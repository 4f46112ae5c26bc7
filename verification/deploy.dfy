/** The root package's deploy command (deploy.go): listing the containers of
    Deployments as upgrade options, keeping those whose repository has a
    different newest tag, and rewriting a chosen container slot. */
module Deploy {
  import opened Wrappers
  import Strs
  import Semver
  import Kube
  import Folds
  import EcrUtil
  import AppManager

  type Image = AppManager.Image

  /** The `ResourceType` values; the type is a plain Go `int`. */
  const DeploymentResource: int := 0
  const CronjobResource: int := 1

  /** An `Option`: a container slot of a workload, the image it runs, and
      the tag it could move to. */
  datatype UpgradeOption = UpgradeOption(
    kind: int, name: string, app: string, container: string, current: Image, latest: string)

  /** `TypeName`: the display name of a resource type. */
  function TypeName(kind: int): (r: string)
    ensures r == "Deployment" <==> kind == DeploymentResource
    ensures r == "Cronjob" <==> kind == CronjobResource
    ensures r == "ERROR" <==> kind != DeploymentResource && kind != CronjobResource
  {
    if kind == DeploymentResource then "Deployment"
    else if kind == CronjobResource then "Cronjob"
    else "ERROR"
  }

  /** `latestVersion` of the root package, the same algorithm as the one in
      pkg/ecr/util.go: "" for no tags, else the semver-greatest tag when any
      parses, else the lexically greatest. */
  function LatestVersion(parse: string -> Option<Semver.Version>, versions: seq<string>): (r: string)
    ensures |versions| == 0 ==> r == ""
    ensures |versions| > 0 ==> r in versions
    ensures EcrUtil.AnySemver(parse, versions) ==>
              && parse(r).Some?
              && forall i :: 0 <= i < |versions| && parse(versions[i]).Some? ==>
                   Semver.Compare(parse(versions[i]).value, parse(r).value) <= 0
    ensures !EcrUtil.AnySemver(parse, versions) ==>
              forall i :: 0 <= i < |versions| ==> Strs.LexLe(versions[i], r)
  {
    EcrUtil.LatestVersion(parse, versions).tag
  }

  /** A container slot of a named deployment. */
  datatype Slot = Slot(deployment: string, container: Kube.PodContainer)

  /** The slots of a deployment, in order; none when it has no name. */
  function SlotsOf(d: Kube.Workload): (r: seq<Slot>)
    ensures d.name == "" ==> r == []
    ensures d.name != "" ==> |r| == |d.containers|
    ensures d.name != "" ==> forall i :: 0 <= i < |r| ==> r[i] == Slot(d.name, d.containers[i])
  {
    if d.name == "" then []
    else seq(|d.containers|, i requires 0 <= i < |d.containers| => Slot(d.name, d.containers[i]))
  }

  /** Every slot of every named deployment, in list order. */
  function NamedSlots(items: seq<Kube.Workload>): seq<Slot>
  {
    Folds.Concat(SlotsOf, items)
  }

  /** The option for one slot: a Deployment, no application, no target yet;
      `newImage` panics on a reference with two or more '/'. */
  function OptionOf(s: Slot): Result<UpgradeOption>
  {
    match AppManager.NewImage(s.container.image)
    case Err(e) => Err(e)
    case Ok(image) => Ok(UpgradeOption(DeploymentResource, s.deployment, "", s.container.name, image, ""))
  }

  /** `getDeploymentContainerVersions`: one option per slot of every named
      deployment, in order. */
  function ContainerVersions(items: seq<Kube.Workload>): (r: Result<seq<UpgradeOption>>)
    ensures r.Ok? ==> |r.value| == |NamedSlots(items)|
    ensures r.Ok? ==> forall k :: 0 <= k < |r.value| ==> OptionOf(NamedSlots(items)[k]) == Ok(r.value[k])
    ensures r.Err? <==> exists k :: 0 <= k < |NamedSlots(items)| && OptionOf(NamedSlots(items)[k]).Err?
  {
    Folds.MapAll(OptionOf, NamedSlots(items))
  }

  /** A deployment without a name contributes no option. */
  lemma ContainerVersionsSkipsUnnamed(d: Kube.Workload, items: seq<Kube.Workload>)
    requires d.name == ""
    ensures ContainerVersions([d] + items) == ContainerVersions(items)
  {
    assert ([d] + items)[1..] == items;
    assert NamedSlots([d] + items) == NamedSlots(items);
  }

  /** A named deployment contributes one Deployment option per container, in
      order, naming the deployment and the container and carrying its parsed
      image. */
  lemma ContainerVersionsOfOne(d: Kube.Workload)
    requires d.name != "" && ContainerVersions([d]).Ok?
    ensures var r := ContainerVersions([d]).value;
            && |r| == |d.containers|
            && forall i :: 0 <= i < |r| ==>
                 && r[i].kind == DeploymentResource && r[i].name == d.name
                 && r[i].container == d.containers[i].name && r[i].latest == ""
                 && AppManager.NewImage(d.containers[i].image) == Ok(r[i].current)
  {
    assert [d][1..] == [];
    assert NamedSlots([d]) == SlotsOf(d) + [];
  }

  /** The newest tag of a repository, or "" when the map has none. */
  function Lookup(images: map<string, string>, repo: string): string
  {
    if repo in images then images[repo] else ""
  }

  /** The option with its target set from the map, keyed by repository only. */
  function Stamped(o: UpgradeOption, images: map<string, string>): UpgradeOption
  {
    o.(latest := Lookup(images, o.current.repo))
  }

  function Stamp(current: seq<UpgradeOption>, images: map<string, string>): (r: seq<UpgradeOption>)
    ensures |r| == |current|
  {
    seq(|current|, i requires 0 <= i < |current| => Stamped(current[i], images))
  }

  /** An option worth offering: a known target that differs, as a string,
      from the running tag. */
  predicate Upgradable(o: UpgradeOption)
  {
    o.latest != "" && o.latest != o.current.version
  }

  /** `getUpgradeOptions`: the options whose repository has a newest tag
      that is not the running one, with that tag as the target. */
  function UpgradeOptions(current: seq<UpgradeOption>, images: map<string, string>): (r: seq<UpgradeOption>)
    ensures Folds.SubsequenceOf(r, Stamp(current, images))
    ensures forall k :: 0 <= k < |r| ==> Upgradable(r[k])
    ensures forall i :: 0 <= i < |current| && Upgradable(Stamped(current[i], images)) ==>
              Stamped(current[i], images) in r
    ensures |r| <= |current|
    decreases |current|
  {
    if |current| == 0 then []
    else
      var o := Stamped(current[0], images);
      var rest := UpgradeOptions(current[1..], images);
      assert Stamp(current, images)[1..] == Stamp(current[1..], images);
      assert forall i :: 1 <= i < |current| ==> current[i] == current[1..][i - 1];
      if Upgradable(o) then [o] + rest else rest
  }

  /** An option worth offering is kept as often as it is listed. */
  lemma {:induction false} UpgradeOptionsCounts(current: seq<UpgradeOption>, images: map<string, string>)
    ensures forall o :: Upgradable(o) ==> multiset(UpgradeOptions(current, images))[o] == multiset(Stamp(current, images))[o]
    decreases |current|
  {
    if |current| > 0 {
      UpgradeOptionsCounts(current[1..], images);
      assert Stamp(current, images) == [Stamped(current[0], images)] + Stamp(current[1..], images);
    }
  }

  /** The target reference of a choice: `Registry/Repo:Latest`. */
  function NewReference(choice: UpgradeOption): string
  {
    choice.current.registry + "/" + choice.current.repo + ":" + choice.latest
  }

  /** The reference written for a choice parses back to the choice's
      registry and repository, with the target as its tag. */
  lemma NewReferenceRoundTrip(choice: UpgradeOption)
    requires '/' !in choice.current.registry && '/' !in choice.current.repo && '/' !in choice.latest
    requires ':' !in choice.current.repo && ':' !in choice.latest
    ensures AppManager.NewImage(NewReference(choice))
            == Ok(AppManager.Image(NewReference(choice), choice.current.repo, choice.current.registry, choice.latest))
  {
    AppManager.NewImageRoundTrip(choice.current.registry, choice.current.repo, choice.latest);
  }

  /** Number of slots called `name` from index `i` on. */
  function MatchesFrom(slots: seq<Kube.PodContainer>, name: string, i: nat): nat
    requires i <= |slots|
    decreases |slots| - i
  {
    if i == |slots| then 0 else (if slots[i].name == name then 1 else 0) + MatchesFrom(slots, name, i + 1)
  }

  lemma {:induction false} MatchesFromZero(slots: seq<Kube.PodContainer>, name: string, i: nat)
    requires i <= |slots|
    ensures MatchesFrom(slots, name, i) == 0 <==> forall j :: i <= j < |slots| ==> slots[j].name != name
    decreases |slots| - i
  {
    if i < |slots| {
      MatchesFromZero(slots, name, i + 1);
    }
  }

  /** The slots after the loop has passed index `n - 1`: every slot called
      `name` below `n` points at `image`. */
  function Patched(slots: seq<Kube.PodContainer>, name: string, image: string, n: int): (r: seq<Kube.PodContainer>)
    ensures |r| == |slots|
  {
    seq(|slots|, k requires 0 <= k < |slots| =>
      if k < n && slots[k].name == name then slots[k].(image := image) else slots[k])
  }

  /** The outcome of `updateDeployment`: the state, the error, and the items
      sent to `update`, in order. */
  datatype DeployRun<!W> = DeployRun(world: W, err: Option<Error>, updates: seq<Kube.Workload>)

  /** `sent` is the deployment with the slots called `name` up to and
      including some matching slot at or after `i` pointed at `image`. */
  ghost predicate SentAfter(item: Kube.Workload, name: string, image: string, i: nat, sent: Kube.Workload)
  {
    exists j :: i <= j < |item.containers| && item.containers[j].name == name &&
                sent == item.(containers := Patched(item.containers, name, image, j + 1))
  }

  ghost predicate AllSentAfter(item: Kube.Workload, name: string, image: string, i: nat, updates: seq<Kube.Workload>)
  {
    forall k :: 0 <= k < |updates| ==> SentAfter(item, name, image, i, updates[k])
  }

  /** What is sent after a later index is sent after an earlier one. */
  lemma AllSentEarlier(item: Kube.Workload, name: string, image: string, i: nat, updates: seq<Kube.Workload>)
    requires AllSentAfter(item, name, image, i + 1, updates)
    ensures AllSentAfter(item, name, image, i, updates)
  {
    forall k | 0 <= k < |updates|
      ensures SentAfter(item, name, image, i, updates[k])
    {
      assert SentAfter(item, name, image, i + 1, updates[k]);
      var j :| i + 1 <= j < |item.containers| && item.containers[j].name == name &&
               updates[k] == item.(containers := Patched(item.containers, name, image, j + 1));
    }
  }

  /** The update at matching slot `i`, followed by those sent after it. */
  lemma ConsSent(item: Kube.Workload, name: string, image: string, i: nat, rest: seq<Kube.Workload>)
    requires i < |item.containers| && item.containers[i].name == name
    requires AllSentAfter(item, name, image, i + 1, rest)
    ensures AllSentAfter(item, name, image, i, [item.(containers := Patched(item.containers, name, image, i + 1))] + rest)
  {
    var sent := item.(containers := Patched(item.containers, name, image, i + 1));
    var updates := [sent] + rest;
    AllSentEarlier(item, name, image, i, rest);
    forall k | 0 <= k < |updates|
      ensures SentAfter(item, name, image, i, updates[k])
    {
      if k == 0 {
        assert SentAfter(item, name, image, i, sent);
      } else {
        assert updates[k] == rest[k - 1];
      }
    }
  }

  /** The slot loop of `updateDeployment` from index `i`: each slot called
      `name` is pointed at `image` in the local copy, which is then sent
      with an update; the first failing update ends the loop. */
  function Sweep<W>(client: Kube.Client<W>, w: W, item: Kube.Workload, name: string, image: string, i: nat)
    : (r: DeployRun<W>)
    requires i <= |item.containers|
    ensures |r.updates| <= MatchesFrom(item.containers, name, i)
    ensures r.err.None? ==> |r.updates| == MatchesFrom(item.containers, name, i)
    ensures r.err.Some? ==> |r.updates| > 0
    ensures AllSentAfter(item, name, image, i, r.updates)
    ensures r.err.None? && |r.updates| > 0 ==>
              r.updates[|r.updates| - 1] == item.(containers := Patched(item.containers, name, image, |item.containers|))
    decreases |item.containers| - i
  {
    var slots := item.containers;
    if i == |slots| then DeployRun(w, None, [])
    else if slots[i].name == name then
      var sent := item.(containers := Patched(slots, name, image, i + 1));
      var (w', err) := client.update(w, sent);
      if err.Some? then
        ConsSent(item, name, image, i, []);
        assert [sent] + [] == [sent];
        DeployRun(w', err, [sent])
      else
        var rest := Sweep(client, w', item, name, image, i + 1);
        ConsSent(item, name, image, i, rest.updates);
        assert (|rest.updates| == 0 && rest.err.None?) ==>
               Patched(slots, name, image, i + 1) == Patched(slots, name, image, |slots|) by {
          MatchesFromZero(slots, name, i + 1);
        }
        DeployRun(rest.world, rest.err, [sent] + rest.updates)
    else
      var rest := Sweep(client, w, item, name, image, i + 1);
      AllSentEarlier(item, name, image, i, rest.updates);
      rest
  }

  /** `updateDeployment`: get the deployment named by the choice, then run
      the slot loop with the choice's new reference. */
  function UpdateDeployment<W>(client: Kube.Client<W>, w: W, choice: UpgradeOption): (r: DeployRun<W>)
    ensures client.get(w, choice.name).Err? ==> r == DeployRun(w, Some(client.get(w, choice.name).error), [])
    ensures client.get(w, choice.name).Ok? ==>
              var item := client.get(w, choice.name).value;
              && |r.updates| <= MatchesFrom(item.containers, choice.container, 0)
              && (r.err.None? ==> |r.updates| == MatchesFrom(item.containers, choice.container, 0))
              && (r.err.None? && |r.updates| > 0 ==>
                    r.updates[|r.updates| - 1] ==
                      item.(containers := Kube.ReplaceImage(item.containers, choice.container, NewReference(choice))))
  {
    match client.get(w, choice.name)
    case Err(e) => DeployRun(w, Some(e), [])
    case Ok(item) =>
      var r := Sweep(client, w, item, choice.container, NewReference(choice), 0);
      assert Patched(item.containers, choice.container, NewReference(choice), |item.containers|)
             == Kube.ReplaceImage(item.containers, choice.container, NewReference(choice));
      r
  }

  /** A deployment without a slot of the chosen name is not updated at all,
      and the call reports no error. */
  lemma UpdateDeploymentNoMatch<W>(client: Kube.Client<W>, w: W, choice: UpgradeOption)
    requires client.get(w, choice.name).Ok?
    requires forall j :: 0 <= j < |client.get(w, choice.name).value.containers| ==>
               client.get(w, choice.name).value.containers[j].name != choice.container
    ensures UpdateDeployment(client, w, choice) == DeployRun(w, None, [])
  {
    var item := client.get(w, choice.name).value;
    MatchesFromZero(item.containers, choice.container, 0);
    SweepNoMatch(client, w, item, choice.container, NewReference(choice), 0);
  }

  lemma {:induction false} SweepNoMatch<W>(client: Kube.Client<W>, w: W, item: Kube.Workload, name: string,
                                           image: string, i: nat)
    requires i <= |item.containers|
    requires forall j :: i <= j < |item.containers| ==> item.containers[j].name != name
    ensures Sweep(client, w, item, name, image, i) == DeployRun(w, None, [])
    decreases |item.containers| - i
  {
    if i < |item.containers| {
      SweepNoMatch(client, w, item, name, image, i + 1);
    }
  }

  /** Every item an update sends is the fetched deployment with some slots of
      the chosen name pointed at the new reference and nothing else changed. */
  lemma UpdateDeploymentSendsPatches<W>(client: Kube.Client<W>, w: W, choice: UpgradeOption, k: nat)
    requires k < |UpdateDeployment(client, w, choice).updates|
    ensures client.get(w, choice.name).Ok?
    ensures var item := client.get(w, choice.name).value;
            var sent := UpdateDeployment(client, w, choice).updates[k];
            && sent.name == item.name && sent.labels == item.labels
            && |sent.containers| == |item.containers|
            && forall s :: 0 <= s < |item.containers| ==>
                 sent.containers[s].name == item.containers[s].name &&
                 (sent.containers[s].image == item.containers[s].image ||
                  (item.containers[s].name == choice.container && sent.containers[s].image == NewReference(choice)))
  {
    var item := client.get(w, choice.name).value;
    var r := Sweep(client, w, item, choice.container, NewReference(choice), 0);
    assert SentAfter(item, choice.container, NewReference(choice), 0, r.updates[k]);
    var j :| 0 <= j < |item.containers| && item.containers[j].name == choice.container &&
             r.updates[k] == item.(containers := Patched(item.containers, choice.container, NewReference(choice), j + 1));
  }
}
