/** The older engine (pkg/imagemanager/apps.go): containers of Deployments
    and CronJobs grouped per application and image into two lists, a
    string-equality upgrade decision recomputed on every call, and
    sequential upgrades through two Kubernetes clients. */
module ImageManager {
  import opened Wrappers
  import opened Strs
  import opened ImageRefs
  import Kube
  import Folds
  import AppsTypes

  type ImageIdentifier = AppsTypes.ImageIdentifier
  type ContainerIdentifier = AppsTypes.ContainerIdentifier

  /** A container slot and the image it runs (the same record as the current
      engine's `Container`). */
  type Resource = AppsTypes.Container

  /** The containers of one application that run one image family, split by
      the kind of workload that owns them, with the upgrade decision. */
  datatype ImageMap = ImageMap(
    imageId: ImageIdentifier,
    needsUpdate: bool,
    updateTo: string,
    deployments: seq<Resource>,
    cronjobs: seq<Resource>)

  /** An application: its name and one image map per image family. */
  datatype App = App(name: string, images: map<ImageIdentifier, ImageMap>)

  /** `parse`: registry, repository and tag of any reference; there is no
      registry check, and two or more '/' make the source panic. */
  function Parse(url: string): (r: Result<(ImageIdentifier, string)>)
    ensures r.Err? <==> Count(url, '/') >= 2
    ensures r.Err? ==> r.error == TooManySlashes
    ensures r.Ok? ==> r.value.0.registry == Before(url, '/')
    ensures r.Ok? ==> r.value.0.repo == Before(LastSegment(url), ':')
    ensures r.Ok? ==> r.value.1 == TagOf(LastSegment(url))
  {
    match SplitRef(url)
    case Err(e) => Err(e)
    case Ok(ref) => Ok((AppsTypes.ImageIdentifier(ref.repo, ref.registry), ref.version))
  }

  /** A reference with no '/' is its own registry, tag included, and its
      repository is the text before its first ':'. */
  lemma ParseSingleSegment(url: string)
    requires '/' !in url
    ensures Parse(url).Ok?
    ensures Parse(url).value.0 == AppsTypes.ImageIdentifier(Before(url, ':'), url)
  {
    CountZero(url, '/');
    assert Before(url, '/') == url;
  }

  /** The reference an upgrade writes parses back to the image map's image
      and target. */
  lemma ParseNewImage(im: ImageMap)
    requires '/' !in im.imageId.registry && '/' !in im.imageId.repo && '/' !in im.updateTo
    requires ':' !in im.imageId.repo && ':' !in im.updateTo
    ensures Parse(NewImage(im)) == Ok((im.imageId, im.updateTo))
  {
    SplitRefRoundTrip(im.imageId.registry, im.imageId.repo, im.updateTo);
  }

  /** `newImage`: the reference the image map's containers are moved to.
      When no part holds a '/' and neither repository nor target a ':', the
      split the parsers use gives the three parts back. */
  function NewImage(im: ImageMap): (r: string)
    ensures && '/' !in im.imageId.registry && '/' !in im.imageId.repo && '/' !in im.updateTo
            && ':' !in im.imageId.repo && ':' !in im.updateTo
            ==> SplitRef(r) == Ok(Ref(im.imageId.registry, im.imageId.repo, im.updateTo))
  {
    var r := im.imageId.registry + "/" + im.imageId.repo + ":" + im.updateTo;
    assert && '/' !in im.imageId.registry && '/' !in im.imageId.repo && '/' !in im.updateTo
           && ':' !in im.imageId.repo && ':' !in im.updateTo
           ==> SplitRef(r) == Ok(Ref(im.imageId.registry, im.imageId.repo, im.updateTo)) by {
      if && '/' !in im.imageId.registry && '/' !in im.imageId.repo && '/' !in im.updateTo
         && ':' !in im.imageId.repo && ':' !in im.updateTo {
        SplitRefRoundTrip(im.imageId.registry, im.imageId.repo, im.updateTo);
      }
    }
    r
  }

  /** Every version some container of the image map runs. */
  function InUse(im: ImageMap): set<string>
  {
    set r | r in im.deployments + im.cronjobs :: r.current
  }

  /** `Versions`: the versions in use, each once. */
  method Versions(im: ImageMap) returns (vs: seq<string>)
    ensures forall v :: v in vs <==> v in InUse(im)
    ensures forall i, j :: 0 <= i < j < |vs| ==> vs[i] != vs[j]
  {
    vs := SortedElements(InUse(im));
  }

  /** The image map after `SetLatest(version)`: the target is replaced and
      the flag recomputed from scratch. */
  ghost function ImageUpdated(im: ImageMap, version: string): ImageMap
  {
    im.(updateTo := version, needsUpdate := exists v :: v in InUse(im) && v != version)
  }

  /** The body of `SetLatest` for one image map: reset the flag, then raise
      it for every version in use that differs from the target. */
  method ImageSetLatest(im: ImageMap, version: string) returns (r: ImageMap)
    ensures r == ImageUpdated(im, version)
    ensures r.updateTo == version && r.imageId == im.imageId
    ensures r.deployments == im.deployments && r.cronjobs == im.cronjobs
    ensures r.needsUpdate <==> exists v :: v in InUse(im) && v != version
    ensures (forall v :: v in InUse(im) ==> v == version) ==> !r.needsUpdate
  {
    r := im.(updateTo := version, needsUpdate := false);
    var versions := Versions(im);
    var i := 0;
    while i < |versions|
      invariant 0 <= i <= |versions|
      invariant r.updateTo == version && r.imageId == im.imageId
      invariant r.deployments == im.deployments && r.cronjobs == im.cronjobs
      invariant r.needsUpdate <==> exists j :: 0 <= j < i && versions[j] != version
    {
      if versions[i] != version {
        r := r.(needsUpdate := true);
      }
      i := i + 1;
    }
    assert r.needsUpdate <==> exists v :: v in InUse(im) && v != version by {
      if exists v :: v in InUse(im) && v != version {
        var v :| v in InUse(im) && v != version;
        var j :| 0 <= j < |versions| && versions[j] == v;
      }
      if r.needsUpdate {
        var j :| 0 <= j < |versions| && versions[j] != version;
        assert versions[j] in InUse(im);
      }
    }
  }

  /** `app'` is `app` with the image map for `id`, if it has one, updated
      to `version`, and every other image map unchanged. */
  ghost predicate AppUpdated(app: App, app': App, id: ImageIdentifier, version: string)
  {
    && app'.name == app.name && app'.images.Keys == app.images.Keys
    && forall k :: k in app.images ==>
         app'.images[k] == if k == id then ImageUpdated(app.images[k], version) else app.images[k]
  }

  /** `ImageManager.SetLatest`: every application's image map for
      `registry/repository` is updated; all other image maps are untouched. */
  method SetLatest(apps: map<string, App>, registry: string, repository: string, version: string)
    returns (r: map<string, App>)
    ensures r.Keys == apps.Keys
    ensures forall a :: a in apps ==> r[a].name == apps[a].name && r[a].images.Keys == apps[a].images.Keys
    ensures forall a, id :: a in apps && id in apps[a].images ==>
              r[a].images[id] == if id == AppsTypes.ImageIdentifier(repository, registry)
                                 then ImageUpdated(apps[a].images[id], version)
                                 else apps[a].images[id]
  {
    var id := AppsTypes.ImageIdentifier(repository, registry);
    r := apps;
    var rest := apps.Keys;
    while rest != {}
      invariant rest <= apps.Keys && r.Keys == apps.Keys
      invariant forall a :: a in rest ==> r[a] == apps[a]
      invariant forall a :: a in apps && a !in rest ==> AppUpdated(apps[a], r[a], id, version)
      decreases |rest|
    {
      var a :| a in rest;
      var app := apps[a];
      if id in app.images {
        var im := ImageSetLatest(app.images[id], version);
        r := r[a := app.(images := app.images[id := im])];
      }
      assert AppUpdated(app, r[a], id, version);
      rest := rest - {a};
    }
    forall a | a in apps
      ensures r[a].name == apps[a].name && r[a].images.Keys == apps[a].images.Keys
    {
      assert AppUpdated(apps[a], r[a], id, version);
    }
  }

  /** The resource record for one slot. */
  function ResourceFor(name: string, labels: map<string, string>, slot: Kube.PodContainer,
                       id: ImageIdentifier, version: string): Resource
  {
    AppsTypes.Container(AppsTypes.ContainerIdentifier(name, slot.name), id, Kube.Label(labels, "app"), version)
  }

  /** The resource for one slot, or the parser's panic. */
  function SlotResource(name: string, labels: map<string, string>): Kube.PodContainer -> Result<Resource>
  {
    (slot: Kube.PodContainer) =>
      match Parse(slot.image)
      case Err(e) => Err(e)
      case Ok((id, version)) => Ok(ResourceFor(name, labels, slot, id, version))
  }

  /** `resources`: one resource per slot, in slot order, owned by workload
      `name` and the application of its "app" label; the first unparseable
      reference makes it panic. */
  function Resources(name: string, labels: map<string, string>, spec: seq<Kube.PodContainer>): (r: Result<seq<Resource>>)
    ensures r.Ok? ==> |r.value| == |spec|
    ensures r.Ok? ==> forall i :: 0 <= i < |spec| ==>
              && Parse(spec[i].image).Ok?
              && r.value[i] == ResourceFor(name, labels, spec[i], Parse(spec[i].image).value.0, Parse(spec[i].image).value.1)
  {
    Folds.MapAll(SlotResource(name, labels), spec)
  }

  /** `resources` panics exactly when some slot's reference has two or more '/'. */
  lemma ResourcesFail(name: string, labels: map<string, string>, spec: seq<Kube.PodContainer>)
    ensures Resources(name, labels, spec).Err? <==> exists i :: 0 <= i < |spec| && Parse(spec[i].image).Err?
    ensures Resources(name, labels, spec).Err? ==> Resources(name, labels, spec).error == TooManySlashes
  {
    var r := Resources(name, labels, spec);
    if r.Err? {
      var i :| 0 <= i < |spec| && SlotResource(name, labels)(spec[i]) == Err(r.error);
    }
    if exists i :: 0 <= i < |spec| && Parse(spec[i].image).Err? {
      var i :| 0 <= i < |spec| && Parse(spec[i].image).Err?;
      assert SlotResource(name, labels)(spec[i]).Err?;
    }
  }

  /** The resources of every listed workload that has a name, in list order;
      the first panic of `resources` ends the scan. */
  function Collect(items: seq<Kube.Workload>): Result<seq<Resource>>
    decreases |items|
  {
    if |items| == 0 then Ok([])
    else if items[0].name == "" then Collect(items[1..])
    else
      match Resources(items[0].name, items[0].labels, items[0].containers)
      case Err(e) => Err(e)
      case Ok(own) =>
        match Collect(items[1..])
        case Err(e) => Err(e)
        case Ok(tail) => Ok(own + tail)
  }

  /** Every collected resource belongs to a listed workload with a name. */
  lemma {:induction false} CollectNamed(items: seq<Kube.Workload>)
    requires Collect(items).Ok?
    ensures forall k :: 0 <= k < |Collect(items).value| ==>
              && Collect(items).value[k].containerId.resource != ""
              && exists i :: 0 <= i < |items| && items[i].name == Collect(items).value[k].containerId.resource
    decreases |items|
  {
    if |items| > 0 {
      CollectNamed(items[1..]);
      var tail := Collect(items[1..]).value;
      var r := Collect(items).value;
      forall k | 0 <= k < |r|
        ensures r[k].containerId.resource != ""
        ensures exists i :: 0 <= i < |items| && items[i].name == r[k].containerId.resource
      {
        if items[0].name == "" {
          var i :| 0 <= i < |items[1..]| && items[1..][i].name == r[k].containerId.resource;
          assert items[i + 1] == items[1..][i];
        } else {
          var own := Resources(items[0].name, items[0].labels, items[0].containers).value;
          assert r == own + tail;
          if k < |own| {
            assert r[k] == own[k];
          } else {
            assert r[k] == tail[k - |own|];
            var i :| 0 <= i < |items[1..]| && items[1..][i].name == r[k].containerId.resource;
            assert items[i + 1] == items[1..][i];
          }
        }
      }
    }
  }

  /** The resources one listed workload contributes: none without a name,
      otherwise those of its slots. */
  function OwnResources(item: Kube.Workload): seq<Resource>
  {
    if item.name == "" then []
    else match Resources(item.name, item.labels, item.containers)
         case Ok(rs) => rs
         case Err(_) => []
  }

  /** The workload has a name and `resources` panics on it. */
  predicate Panics(item: Kube.Workload)
  {
    item.name != "" && Resources(item.name, item.labels, item.containers).Err?
  }

  /** A scan of a non-empty listing panics when `resources` panics on its
      first item or the scan of the rest panics. */
  lemma CollectFailsCons(items: seq<Kube.Workload>)
    requires |items| > 0
    ensures Collect(items).Err? <==> Panics(items[0]) || Collect(items[1..]).Err?
  {
  }

  /** A scan panics exactly when `resources` panics on some named workload. */
  lemma {:induction false} CollectFails(items: seq<Kube.Workload>)
    ensures Collect(items).Err? <==> exists i :: 0 <= i < |items| && Panics(items[i])
    decreases |items|
  {
    if |items| > 0 {
      var tail := items[1..];
      CollectFails(tail);
      CollectFailsCons(items);
      if Collect(tail).Err? {
        var i :| 0 <= i < |tail| && Panics(tail[i]);
        assert items[i + 1] == tail[i];
      }
      if !Collect(items).Err? {
        forall i | 0 <= i < |items|
          ensures !Panics(items[i])
        {
          if i > 0 {
            assert items[i] == tail[i - 1];
          }
        }
      }
    }
  }

  /** A scan that does not panic yields the resources of every named
      workload, in list order. */
  lemma {:induction false} CollectResources(items: seq<Kube.Workload>)
    ensures Collect(items).Ok? ==> Collect(items).value == Folds.Concat(OwnResources, items)
    decreases |items|
  {
    if |items| > 0 {
      CollectResources(items[1..]);
    }
  }

  /** The resources of a named workload appear in a scan's result, whole and
      in place: after those of the workloads listed before it and before
      those of the workloads listed after it. */
  lemma CollectContains(items: seq<Kube.Workload>, i: nat)
    requires i < |items| && items[i].name != "" && Collect(items).Ok?
    ensures Resources(items[i].name, items[i].labels, items[i].containers).Ok?
    ensures Collect(items).value
            == Folds.Concat(OwnResources, items[..i])
               + Resources(items[i].name, items[i].labels, items[i].containers).value
               + Folds.Concat(OwnResources, items[i + 1..])
  {
    CollectFails(items);
    CollectResources(items);
    Folds.ConcatSplit(OwnResources, items, i);
  }

  /** Workloads without a name contribute nothing. */
  lemma CollectSkipsUnnamed(item: Kube.Workload, items: seq<Kube.Workload>)
    requires item.name == ""
    ensures Collect([item] + items) == Collect(items)
  {
    assert ([item] + items)[1..] == items;
  }

  /** `scanDeployments` / `scanCronjobs`: the listing's error, or the
      resources of its named items. */
  function ScanKind<W>(client: Kube.Client<W>, w: W): (r: Result<seq<Resource>>)
    ensures client.list(w).Err? ==> r == Err(client.list(w).error)
    ensures client.list(w).Ok? ==> r == Collect(client.list(w).value)
  {
    match client.list(w)
    case Err(e) => Err(e)
    case Ok(items) => Collect(items)
  }

  /** A fresh image map for `id`: no target, no upgrade due, no containers. */
  function NewImageMap(id: ImageIdentifier): ImageMap
  {
    ImageMap(id, false, "", [], [])
  }

  function AppOf(apps: map<string, App>, a: string): App
  {
    if a in apps then apps[a] else App(a, map[])
  }

  function ImageMapOf(app: App, id: ImageIdentifier): ImageMap
  {
    if id in app.images then app.images[id] else NewImageMap(id)
  }

  /** One step of `groupResources2`: file `r` under its application and
      image, appending it to the Deployments list or to the Cronjobs list.
      The application is stored back under its own name. */
  function AddResource(apps: map<string, App>, r: Resource, toDeployments: bool): map<string, App>
  {
    var app := AppOf(apps, r.app);
    var image := ImageMapOf(app, r.imageId);
    var image' := if toDeployments then image.(deployments := image.deployments + [r])
                  else image.(cronjobs := image.cronjobs + [r]);
    apps[app.name := app.(images := app.images[r.imageId := image'])]
  }

  function AddDeployment(apps: map<string, App>, r: Resource): map<string, App>
  {
    AddResource(apps, r, true)
  }

  function AddCronjob(apps: map<string, App>, r: Resource): map<string, App>
  {
    AddResource(apps, r, false)
  }

  /** `groupResources`: deployments first, then cron jobs, into a new map. */
  function GroupResources(deployments: seq<Resource>, cronjobs: seq<Resource>): (r: map<string, App>)
    ensures |deployments| == 0 && |cronjobs| == 0 ==> r == map[]
  {
    Folds.Fold(AddCronjob, Folds.Fold(AddDeployment, map[], deployments), cronjobs)
  }

  /** Applications are stored under their names. */
  ghost predicate Named(apps: map<string, App>)
  {
    forall a :: a in apps ==> apps[a].name == a
  }

  /** The deployments (`toDeployments`) or cron jobs filed under application
      `a` and image `id`. */
  function ListOf(apps: map<string, App>, a: string, id: ImageIdentifier, toDeployments: bool): seq<Resource>
  {
    var im := ImageMapOf(AppOf(apps, a), id);
    if toDeployments then im.deployments else im.cronjobs
  }

  /** The resources of `rs` that belong to application `a` and image `id`. */
  function Pick(r: Resource, a: string, id: ImageIdentifier): seq<Resource>
  {
    if r.app == a && r.imageId == id then [r] else []
  }

  function Belonging(rs: seq<Resource>, a: string, id: ImageIdentifier): seq<Resource>
  {
    Folds.Concat(Added(a, id, true, true), rs)
  }

  lemma AppOfAdd(apps: map<string, App>, r: Resource, toDeployments: bool, a: string)
    requires Named(apps)
    ensures Named(AddResource(apps, r, toDeployments))
    ensures AppOf(AddResource(apps, r, toDeployments), a).images.Keys
            == AppOf(apps, a).images.Keys + (if a == r.app then {r.imageId} else {})
    ensures a != r.app ==> AppOf(AddResource(apps, r, toDeployments), a) == AppOf(apps, a)
  {
  }

  /** Filing `r` appends it to exactly one list: its application's, for its
      image, of its kind. */
  lemma AddResourceLists(apps: map<string, App>, r: Resource, toDeployments: bool,
                         a: string, id: ImageIdentifier, kind: bool)
    requires Named(apps)
    ensures ListOf(AddResource(apps, r, toDeployments), a, id, kind)
            == ListOf(apps, a, id, kind) + (if kind == toDeployments then Pick(r, a, id) else [])
  {
    AppOfAdd(apps, r, toDeployments, a);
    if a == r.app {
      var app := AppOf(apps, a);
      var m := AddResource(apps, r, toDeployments);
      assert app.name == a;
      assert AppOf(m, a).images == app.images[r.imageId := AppOf(m, a).images[r.imageId]];
    }
  }

  /** The observed list `ListOf(_, a, id, kind)`, as a function of the map. */
  function Lister(a: string, id: ImageIdentifier, kind: bool): map<string, App> -> seq<Resource>
  {
    (m: map<string, App>) => ListOf(m, a, id, kind)
  }

  /** What one filing step of kind `toDeployments` appends to that list. */
  function Added(a: string, id: ImageIdentifier, kind: bool, toDeployments: bool): Resource -> seq<Resource>
  {
    if kind == toDeployments then (r: Resource) => Pick(r, a, id) else Folds.Nothing<Resource, Resource>
  }

  ghost function NamedApps(): map<string, App> -> bool
  {
    (m: map<string, App>) => Named(m)
  }

  /** Filing deployments keeps the map named and appends the matching ones
      to the Deployments list, leaving the Cronjobs list alone. */
  lemma DeploymentsLists(m: map<string, App>, rs: seq<Resource>, a: string, id: ImageIdentifier, kind: bool)
    requires Named(m)
    ensures Named(Folds.Fold(AddDeployment, m, rs))
    ensures ListOf(Folds.Fold(AddDeployment, m, rs), a, id, kind)
            == ListOf(m, a, id, kind) + (if kind then Belonging(rs, a, id) else [])
  {
    var out := Added(a, id, kind, true);
    forall m', r | NamedApps()(m')
      ensures NamedApps()(AddDeployment(m', r))
      ensures Lister(a, id, kind)(AddDeployment(m', r)) == Lister(a, id, kind)(m') + out(r)
    {
      AppOfAdd(m', r, true, a);
      AddResourceLists(m', r, true, a, id, kind);
    }
    Folds.FoldAppendsUnder(AddDeployment, NamedApps(), Lister(a, id, kind), out, m, rs);
    Folds.FoldInvariant(AddDeployment, NamedApps(), m, rs);
    if !kind {
      Folds.ConcatOfNothing<Resource, Resource>(rs);
    }
  }

  /** Filing cron jobs appends the matching ones to the Cronjobs list,
      leaving the Deployments list alone. */
  lemma CronjobsLists(m: map<string, App>, rs: seq<Resource>, a: string, id: ImageIdentifier, kind: bool)
    requires Named(m)
    ensures ListOf(Folds.Fold(AddCronjob, m, rs), a, id, kind)
            == ListOf(m, a, id, kind) + (if kind then [] else Belonging(rs, a, id))
  {
    var out := Added(a, id, kind, false);
    forall m', r | NamedApps()(m')
      ensures NamedApps()(AddCronjob(m', r))
      ensures Lister(a, id, kind)(AddCronjob(m', r)) == Lister(a, id, kind)(m') + out(r)
    {
      AppOfAdd(m', r, false, a);
      AddResourceLists(m', r, false, a, id, kind);
    }
    Folds.FoldAppendsUnder(AddCronjob, NamedApps(), Lister(a, id, kind), out, m, rs);
    if kind {
      Folds.ConcatOfNothing<Resource, Resource>(rs);
    }
  }

  /** Grouping files every deployment under Deployments and every cron job
      under Cronjobs of its application and image, in input order, each
      exactly once. */
  lemma GroupResourcesLists(deployments: seq<Resource>, cronjobs: seq<Resource>, a: string, id: ImageIdentifier)
    ensures ListOf(GroupResources(deployments, cronjobs), a, id, true) == Belonging(deployments, a, id)
    ensures ListOf(GroupResources(deployments, cronjobs), a, id, false) == Belonging(cronjobs, a, id)
  {
    var empty: map<string, App> := map[];
    var mid := Folds.Fold(AddDeployment, empty, deployments);
    DeploymentsLists(empty, deployments, a, id, true);
    DeploymentsLists(empty, deployments, a, id, false);
    CronjobsLists(mid, cronjobs, a, id, true);
    CronjobsLists(mid, cronjobs, a, id, false);
    assert ListOf(empty, a, id, true) == [] && ListOf(empty, a, id, false) == [];
  }

  /** The applications after a scan and its error, if any. */
  datatype ScanOutcome = ScanOutcome(apps: map<string, App>, err: Option<Error>)

  /** `Scan`: deployments, then cron jobs; on the first error the
      applications are left as they were, otherwise they are replaced by the
      grouping of what was found. */
  function Scan<W>(apps: map<string, App>, deployClient: Kube.Client<W>, cronClient: Kube.Client<W>, w: W): (r: ScanOutcome)
    ensures ScanKind(deployClient, w).Err? ==> r == ScanOutcome(apps, Some(ScanKind(deployClient, w).error))
    ensures ScanKind(deployClient, w).Ok? && ScanKind(cronClient, w).Err? ==>
              r == ScanOutcome(apps, Some(ScanKind(cronClient, w).error))
    ensures ScanKind(deployClient, w).Ok? && ScanKind(cronClient, w).Ok? ==>
              r == ScanOutcome(GroupResources(ScanKind(deployClient, w).value, ScanKind(cronClient, w).value), None)
  {
    match ScanKind(deployClient, w)
    case Err(e) => ScanOutcome(apps, Some(e))
    case Ok(deployments) =>
      match ScanKind(cronClient, w)
      case Err(e) => ScanOutcome(apps, Some(e))
      case Ok(cronjobs) => ScanOutcome(GroupResources(deployments, cronjobs), None)
  }

  /** A successful scan forgets what an earlier one found: the result does
      not depend on the applications held before. */
  lemma ScanReplaces<W>(before1: map<string, App>, before2: map<string, App>,
                        deployClient: Kube.Client<W>, cronClient: Kube.Client<W>, w: W)
    requires Scan(before1, deployClient, cronClient, w).err.None?
    ensures Scan(before1, deployClient, cronClient, w) == Scan(before2, deployClient, cronClient, w)
  {
  }

  /** One get-patch-update round of an upgrade, and the state it began in. */
  datatype Step<!W> = Step(target: Resource, before: W, run: Kube.PatchRun<W>)

  /** `steps` are the rounds for the first resources of `rs`, each patching
      the resource's slot to `image` through `client`, in order, from state
      `w`, threading the state, and stopping after the first error. */
  ghost predicate Rounds<W>(steps: seq<Step<W>>, client: Kube.Client<W>, w: W, rs: seq<Resource>,
                            image: string, world: W, err: Option<Error>)
  {
    var n := |steps|;
    && n <= |rs|
    && (forall i :: 0 <= i < n ==>
          && steps[i].target == rs[i]
          && steps[i].run == Kube.PatchImage(client, steps[i].before, rs[i].containerId.resource,
                                             rs[i].containerId.container, image))
    && (n == 0 ==> world == w)
    && (n > 0 ==> steps[0].before == w && world == steps[n - 1].run.world)
    && (forall i :: 0 < i < n ==> steps[i].before == steps[i - 1].run.world)
    && (forall i :: 0 <= i < n - 1 ==> steps[i].run.err.None?)
    && (err.None? ==> n == |rs| && (n > 0 ==> steps[n - 1].run.err.None?))
    && (err.Some? ==> n > 0 && err == steps[n - 1].run.err)
  }

  /** The outcome of upgrading one list. */
  datatype ListRun<!W> = ListRun(world: W, err: Option<Error>, steps: seq<Step<W>>)

  /** A successful first round followed by the rounds for the rest of the
      resources are the rounds for all of them. */
  lemma ConsRounds<W>(step: Step<W>, rest: seq<Step<W>>, client: Kube.Client<W>, w: W, rs: seq<Resource>,
                      image: string, world: W, err: Option<Error>)
    requires |rs| > 0 && step.target == rs[0] && step.before == w
    requires step.run == Kube.PatchImage(client, w, rs[0].containerId.resource, rs[0].containerId.container, image)
    requires step.run.err.None?
    requires Rounds(rest, client, step.run.world, rs[1..], image, world, err)
    ensures Rounds([step] + rest, client, w, rs, image, world, err)
  {
    var steps := [step] + rest;
    assert forall i :: 0 < i < |steps| ==> steps[i] == rest[i - 1];
    assert forall i :: 0 < i < |steps| ==> rs[i] == rs[1..][i - 1];
  }

  /** `UpgradeDeployments` / `UpgradeCronjobs`: for each resource, get its
      workload, patch the slot, update; the first error ends the loop. */
  function UpgradeList<W>(client: Kube.Client<W>, w: W, rs: seq<Resource>, image: string): (r: ListRun<W>)
    ensures Rounds(r.steps, client, w, rs, image, r.world, r.err)
    decreases |rs|
  {
    if |rs| == 0 then ListRun(w, None, [])
    else
      var run := Kube.PatchImage(client, w, rs[0].containerId.resource, rs[0].containerId.container, image);
      var step := Step(rs[0], w, run);
      if run.err.Some? then ListRun(run.world, run.err, [step])
      else
        var rest := UpgradeList(client, run.world, rs[1..], image);
        ConsRounds(step, rest.steps, client, w, rs, image, rest.world, rest.err);
        ListRun(rest.world, rest.err, [step] + rest.steps)
  }

  /** The outcome of `Upgrade`: the run over deployments, then the rounds
      over cron jobs. */
  datatype UpgradeRun<!W> = UpgradeRun(world: W, err: Option<Error>,
                                       deployments: ListRun<W>, cronjobSteps: seq<Step<W>>)

  /** `Upgrade`: every deployment, then every cron job, of the image map,
      moved to `NewImage`; the first error ends the whole upgrade. */
  function Upgrade<W>(deployClient: Kube.Client<W>, cronClient: Kube.Client<W>, w: W, im: ImageMap): (r: UpgradeRun<W>)
    ensures Rounds(r.deployments.steps, deployClient, w, im.deployments, NewImage(im),
                   r.deployments.world, r.deployments.err)
    ensures r.deployments.err.Some? ==>
              r.cronjobSteps == [] && r.err == r.deployments.err && r.world == r.deployments.world
    ensures r.deployments.err.None? ==>
              Rounds(r.cronjobSteps, cronClient, r.deployments.world, im.cronjobs, NewImage(im), r.world, r.err)
  {
    var d := UpgradeList(deployClient, w, im.deployments, NewImage(im));
    if d.err.Some? then UpgradeRun(d.world, d.err, d, [])
    else
      var c := UpgradeList(cronClient, d.world, im.cronjobs, NewImage(im));
      UpgradeRun(c.world, c.err, d, c.steps)
  }

  /** A successful upgrade made one round per resource, and each round sent
      exactly one update. */
  lemma UpgradeUpdatesEach<W>(deployClient: Kube.Client<W>, cronClient: Kube.Client<W>, w: W, im: ImageMap)
    ensures var r := Upgrade(deployClient, cronClient, w, im);
            r.err.None? ==>
              (&& |r.deployments.steps| == |im.deployments| && |r.cronjobSteps| == |im.cronjobs|
               && (forall i :: 0 <= i < |r.deployments.steps| ==> |r.deployments.steps[i].run.updates| == 1)
               && (forall i :: 0 <= i < |r.cronjobSteps| ==> |r.cronjobSteps[i].run.updates| == 1))
  {
    var r := Upgrade(deployClient, cronClient, w, im);
    if r.err.None? {
      forall i | 0 <= i < |r.deployments.steps|
        ensures |r.deployments.steps[i].run.updates| == 1
      {
        var s := r.deployments.steps[i];
        assert s.run.err.None?;
      }
      forall i | 0 <= i < |r.cronjobSteps|
        ensures |r.cronjobSteps[i].run.updates| == 1
      {
        var s := r.cronjobSteps[i];
        assert s.run.err.None?;
      }
    }
  }
}
