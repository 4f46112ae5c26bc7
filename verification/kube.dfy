/** The cluster objects and calls the engine touches, reduced to what it reads
    and writes. The client-go transport is not modelled: each call is a
    function over an abstract cluster state `W`. */
module Kube {
  import opened Wrappers

  /** A container slot of a pod template: its name and image reference. */
  datatype PodContainer = PodContainer(name: string, image: string)

  /** A Deployment or CronJob: its name, its labels, and the containers of its
      pod template (for a CronJob, the job template's pod template). */
  datatype Workload = Workload(name: string, labels: map<string, string>, containers: seq<PodContainer>)

  /** The calls of one workload kind in one namespace: list every item, get one
      item by name, and replace an item. Only `update` changes the cluster. */
  datatype Client<!W> = Client(
    list: W -> Result<seq<Workload>>,
    get: (W, string) -> Result<Workload>,
    update: (W, Workload) -> (W, Option<Error>))

  /** Go's `labels[key]`: the zero value "" when the key is absent. */
  function Label(labels: map<string, string>, key: string): string
  {
    if key in labels then labels[key] else ""
  }

  /** Sets the image of every slot called `name`; other slots keep theirs. */
  function ReplaceImage(slots: seq<PodContainer>, name: string, image: string): (r: seq<PodContainer>)
    ensures |r| == |slots|
    ensures forall i :: 0 <= i < |r| ==> r[i].name == slots[i].name
    ensures forall i :: 0 <= i < |r| ==>
              r[i].image == (if slots[i].name == name then image else slots[i].image)
  {
    if |slots| == 0 then []
    else
      var head := if slots[0].name == name then slots[0].(image := image) else slots[0];
      [head] + ReplaceImage(slots[1..], name, image)
  }

  /** The cluster state after a get-patch-update round, its error, and the items
      sent to `update`, in order. */
  datatype PatchRun<W> = PatchRun(world: W, err: Option<Error>, updates: seq<Workload>)

  /** Gets item `resource`, points every slot called `container` at `image`, and
      writes the item back with a single update, whether or not a slot matched. */
  function PatchImage<W>(client: Client<W>, w: W, resource: string, container: string, image: string): (r: PatchRun<W>)
    ensures client.get(w, resource).Err? ==>
              r.world == w && r.updates == [] && r.err == Some(client.get(w, resource).error)
    ensures client.get(w, resource).Ok? ==>
              var item := client.get(w, resource).value;
              && |r.updates| == 1
              && r.updates[0].name == item.name
              && r.updates[0].labels == item.labels
              && |r.updates[0].containers| == |item.containers|
              && (forall i :: 0 <= i < |item.containers| ==>
                    r.updates[0].containers[i].name == item.containers[i].name)
              && (forall i :: 0 <= i < |item.containers| ==>
                    r.updates[0].containers[i].image ==
                      (if item.containers[i].name == container then image else item.containers[i].image))
              && (r.world, r.err) == client.update(w, r.updates[0])
  {
    match client.get(w, resource)
    case Err(e) => PatchRun(w, Some(e), [])
    case Ok(item) =>
      var patched := item.(containers := ReplaceImage(item.containers, container, image));
      var (w', err) := client.update(w, patched);
      PatchRun(w', err, [patched])
  }
}
