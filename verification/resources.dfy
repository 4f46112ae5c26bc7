/** The workload kinds of the current engine (pkg/resources): recognising
    ECR images, turning a pod template into containers, and the CronJob
    manager. */
module Resources {
  import opened Wrappers
  import opened AppsTypes
  import opened Strs
  import opened ImageRefs
  import Kube
  import ChangeSets
  import Managers
  import Folds

  /** Registries hosted by Amazon ECR end with this suffix. */
  const EcrSuffix := "amazonaws.com"

  const CronjobKind := "Cronjob"

  /** A recognised ECR image: its family and the tag it runs. */
  datatype EcrImage = EcrImage(id: ImageIdentifier, version: string)

  predicate IsEcr(registry: string)
  {
    HasSuffix(registry, EcrSuffix)
  }

  /** `parse`: `Ok(None)` for an image whose registry (the text before the
      first '/') is not an ECR one; otherwise the registry, the repository and
      the tag ("latest" unless the last segment has exactly one ':'). Two or
      more '/' in an ECR reference make the source panic. */
  function Parse(url: string): (r: Result<Option<EcrImage>>)
    ensures !IsEcr(Before(url, '/')) ==> r == Ok(None)
    ensures IsEcr(Before(url, '/')) ==> (r.Err? <==> Count(url, '/') >= 2)
    ensures r.Err? ==> r.error == TooManySlashes
    ensures IsEcr(Before(url, '/')) && r.Ok? ==>
              r.value == Some(EcrImage(ImageIdentifier(Before(LastSegment(url), ':'), Before(url, '/')),
                                       TagOf(LastSegment(url))))
  {
    var p1 := Split(url, '/');
    SplitShape(url, '/');
    var registry := p1[0];
    if IsEcr(registry) then
      match SplitRef(url)
      case Err(e) => Err(e)
      case Ok(ref) => Ok(Some(EcrImage(ImageIdentifier(ref.repo, registry), ref.version)))
    else Ok(None)
  }

  /** An ECR reference with neither '/' nor ':' names its own repository and
      runs "latest". */
  lemma ParseSingleSegment(url: string)
    requires '/' !in url && ':' !in url && IsEcr(url)
    ensures Parse(url) == Ok(Some(EcrImage(ImageIdentifier(url, url), "latest")))
  {
    assert Before(url, '/') == url;
    assert Before(url, ':') == url;
    CountZero(url, '/');
    CountZero(url, ':');
  }

  /** The reference an upgrade writes parses back to the change set's image
      and target version. */
  lemma ParseRegistryPath(cs: ChangeSet)
    requires IsEcr(cs.imageId.registry)
    requires '/' !in cs.imageId.registry && '/' !in cs.imageId.repo && '/' !in cs.updateTo
    requires ':' !in cs.imageId.repo && ':' !in cs.updateTo
    ensures Parse(ChangeSets.RegistryPath(cs)) == Ok(Some(EcrImage(cs.imageId, cs.updateTo)))
  {
    var id := cs.imageId;
    var url := ChangeSets.RegistryPath(cs);
    SplitRefRoundTrip(id.registry, id.repo, cs.updateTo);
    assert SplitRef(url) == Ok(Ref(id.registry, id.repo, cs.updateTo));
  }

  /** The container record for slot `slot` of workload `name` running `img`. */
  function ContainerFor(name: string, labels: map<string, string>, slot: Kube.PodContainer, img: EcrImage): Container
  {
    Container(ContainerIdentifier(name, slot.name), img.id, Kube.Label(labels, "app"), img.version)
  }

  /** What one slot contributes: its container when it runs a recognised
      ECR image, nothing otherwise. */
  function SlotContainers(name: string, labels: map<string, string>, slot: Kube.PodContainer): seq<Container>
  {
    match Parse(slot.image)
    case Ok(Some(img)) => [ContainerFor(name, labels, slot, img)]
    case _ => []
  }

  /** `SlotContainers` of one workload, as a function value. */
  function SlotOut(name: string, labels: map<string, string>): Kube.PodContainer -> seq<Container>
  {
    (slot: Kube.PodContainer) => SlotContainers(name, labels, slot)
  }

  /** The contributions of all slots, in slot order. */
  function Emitted(name: string, labels: map<string, string>, spec: seq<Kube.PodContainer>): seq<Container>
  {
    Folds.Concat(SlotOut(name, labels), spec)
  }

  /** `resources`: one container per slot running an ECR image, in slot
      order, owned by workload `name` and the application of its "app"
      label; the first unparseable ECR reference makes it panic. */
  function ContainersOf(name: string, labels: map<string, string>, spec: seq<Kube.PodContainer>): (r: Result<seq<Container>>)
    ensures r.Err? <==> exists i :: 0 <= i < |spec| && Parse(spec[i].image).Err?
    ensures r.Err? ==> r.error == TooManySlashes
    ensures r.Ok? ==> r.value == Emitted(name, labels, spec)
    decreases |spec|
  {
    if |spec| == 0 then Ok([])
    else
      var rest := ContainersOf(name, labels, spec[1..]);
      assert forall i :: 1 <= i < |spec| ==> spec[i] == spec[1..][i - 1];
      assert rest.Err? ==> exists i :: 0 <= i < |spec| && Parse(spec[i].image).Err? by {
        if rest.Err? {
          var i :| 0 <= i < |spec[1..]| && Parse(spec[1..][i].image).Err?;
          assert spec[i + 1] == spec[1..][i];
        }
      }
      match Parse(spec[0].image)
      case Err(e) => Err(e)
      case Ok(None) => rest
      case Ok(Some(img)) =>
        match rest
        case Err(e) => Err(e)
        case Ok(cs) => Ok([ContainerFor(name, labels, spec[0], img)] + cs)
  }

  /** Container `c` is the one slot `slot` of workload `name` yields: it
      names the workload and the slot, carries the application of the
      "app" label, and the image and tag the slot's reference names. */
  predicate ComesFrom(name: string, labels: map<string, string>, slot: Kube.PodContainer, c: Container)
  {
    && c.containerId == ContainerIdentifier(name, slot.name)
    && c.app == Kube.Label(labels, "app")
    && Parse(slot.image) == Ok(Some(EcrImage(c.imageId, c.current)))
  }

  lemma SlotContainersFrom(name: string, labels: map<string, string>, slot: Kube.PodContainer)
    ensures |SlotContainers(name, labels, slot)| <= 1
    ensures forall c :: c in SlotContainers(name, labels, slot) ==> ComesFrom(name, labels, slot, c)
  {
  }

  /** `ComesFrom`, as a function value. */
  function FromSlot(name: string, labels: map<string, string>): (Kube.PodContainer, Container) -> bool
  {
    (slot: Kube.PodContainer, c: Container) => ComesFrom(name, labels, slot, c)
  }

  /** Every container found comes from one of the workload's slots, and
      there are no more containers than slots. */
  lemma EmittedFrom(name: string, labels: map<string, string>, spec: seq<Kube.PodContainer>)
    ensures |Emitted(name, labels, spec)| <= |spec|
    ensures forall k :: 0 <= k < |Emitted(name, labels, spec)| ==>
              exists i :: 0 <= i < |spec| && ComesFrom(name, labels, spec[i], Emitted(name, labels, spec)[k])
  {
    forall slot
      ensures |SlotOut(name, labels)(slot)| <= 1
      ensures forall c :: c in SlotOut(name, labels)(slot) ==> FromSlot(name, labels)(slot, c)
    {
      SlotContainersFrom(name, labels, slot);
    }
    Folds.ConcatFrom(SlotOut(name, labels), FromSlot(name, labels), spec);
  }

  /** One slot yields its container when it runs an ECR image and nothing
      otherwise. */
  lemma ContainersOfSlot(name: string, labels: map<string, string>, slot: Kube.PodContainer)
    ensures Parse(slot.image) == Ok(None) ==> ContainersOf(name, labels, [slot]) == Ok([])
    ensures Parse(slot.image).Ok? && Parse(slot.image).value.Some? ==>
              ContainersOf(name, labels, [slot]) == Ok([ContainerFor(name, labels, slot, Parse(slot.image).value.value)])
  {
    assert [slot][1..] == [];
    assert ContainersOf(name, labels, []) == Ok([]);
    if Parse(slot.image).Ok? && Parse(slot.image).value.Some? {
      var c := ContainerFor(name, labels, slot, Parse(slot.image).value.value);
      assert [c] + [] == [c];
    }
  }

  /** The containers of two runs of slots are those of each, in order. */
  lemma ContainersOfAppend(name: string, labels: map<string, string>,
                           s1: seq<Kube.PodContainer>, s2: seq<Kube.PodContainer>)
    ensures ContainersOf(name, labels, s1).Ok? && ContainersOf(name, labels, s2).Ok? ==>
              ContainersOf(name, labels, s1 + s2)
              == Ok(ContainersOf(name, labels, s1).value + ContainersOf(name, labels, s2).value)
  {
    if !(ContainersOf(name, labels, s1).Ok? && ContainersOf(name, labels, s2).Ok?) {
      return;
    }
    var s := s1 + s2;
    forall i | 0 <= i < |s|
      ensures Parse(s[i].image).Ok?
    {
      if i < |s1| {
        assert s[i] == s1[i];
      } else {
        assert s[i] == s2[i - |s1|];
      }
    }
    Folds.ConcatAppend(SlotOut(name, labels), s1, s2);
  }

  /** The CronJob manager's upgrade of one container: get the job, point
      every slot of that name at the change set's reference, update once. */
  function CronjobUpgrade<W>(client: Kube.Client<W>, w: W, cs: ChangeSet, c: Container): (r: Kube.PatchRun<W>)
    ensures client.get(w, c.containerId.resource).Err? ==>
              r.world == w && r.updates == [] && r.err == Some(client.get(w, c.containerId.resource).error)
    ensures client.get(w, c.containerId.resource).Ok? ==>
              var item := client.get(w, c.containerId.resource).value;
              && |r.updates| == 1 && r.updates[0].name == item.name
              && r.updates[0].labels == item.labels
              && |r.updates[0].containers| == |item.containers|
              && (forall i :: 0 <= i < |item.containers| ==>
                    r.updates[0].containers[i].name == item.containers[i].name)
              && (forall i :: 0 <= i < |item.containers| ==>
                    r.updates[0].containers[i].image ==
                      if item.containers[i].name == c.containerId.container
                      then ChangeSets.RegistryPath(cs) else item.containers[i].image)
              && (r.world, r.err) == client.update(w, r.updates[0])
  {
    Kube.PatchImage(client, w, c.containerId.resource, c.containerId.container, ChangeSets.RegistryPath(cs))
  }

  /** After an upgrade, scanning the written job finds the upgraded slot at
      the change set's image and target version. */
  lemma UpgradeThenScan<W>(client: Kube.Client<W>, w: W, cs: ChangeSet, c: Container, i: nat)
    requires client.get(w, c.containerId.resource).Ok?
    requires var item := client.get(w, c.containerId.resource).value;
             i < |item.containers| && item.containers[i].name == c.containerId.container
    requires IsEcr(cs.imageId.registry)
    requires '/' !in cs.imageId.registry && '/' !in cs.imageId.repo && '/' !in cs.updateTo
    requires ':' !in cs.imageId.repo && ':' !in cs.updateTo
    ensures var written := CronjobUpgrade(client, w, cs, c).updates[0];
            Parse(written.containers[i].image) == Ok(Some(EcrImage(cs.imageId, cs.updateTo)))
  {
    ParseRegistryPath(cs);
  }

  /** The CronJob manager: kind "Cronjob"; it lists the namespace's jobs,
      reads containers from each job template, and upgrades one container
      with `CronjobUpgrade`. */
  function CronjobResource<W>(client: Kube.Client<W>): (r: ResourceManager<Kube.Workload, W>)
    ensures r.kind == CronjobKind
    ensures r.fetcher == client.list
    ensures forall item :: r.generator(item) == ContainersOf(item.name, item.labels, item.containers)
  {
    ResourceManager(
      CronjobKind,
      client.list,
      (item: Kube.Workload) => ContainersOf(item.name, item.labels, item.containers),
      (w: W, cs: ChangeSet, c: Container) => var u := CronjobUpgrade(client, w, cs, c); (u.world, u.err))
  }

  /** The CronJob manager upgrades through `CronjobUpgrade`. */
  lemma CronjobResourceUpgrade<W>(client: Kube.Client<W>, w: W, cs: ChangeSet, c: Container)
    ensures CronjobResource(client).upgrade(w, cs, c)
            == (CronjobUpgrade(client, w, cs, c).world, CronjobUpgrade(client, w, cs, c).err)
  {
  }

  /** `Register`: the Deployment manager, then the CronJob manager. */
  function Register<W>(reg: map<string, ResourceManager<Kube.Workload, W>>,
                       deployments: ResourceManager<Kube.Workload, W>,
                       client: Kube.Client<W>): (r: map<string, ResourceManager<Kube.Workload, W>>)
    ensures r.Keys == reg.Keys + {deployments.kind} + {CronjobKind}
    ensures r[CronjobKind] == CronjobResource(client)
    ensures deployments.kind != CronjobKind ==> r[deployments.kind] == deployments
    ensures Managers.KeyedByKind(reg) ==> Managers.KeyedByKind(r)
  {
    var withDeployments := Managers.RegisterResource(reg, deployments);
    Managers.RegisterResource(withDeployments, CronjobResource(client))
  }
}
