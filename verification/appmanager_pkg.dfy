/** The oldest engine (pkg/appmanager): workloads grouped per "App" label
    into Deployments and Cronjobs lists of whole resources. The root
    package's appmanager.go and image.go carry the same types, parser and
    container lists; `RootAppManager` reuses them from here and differs only
    in how it names applications. */
module AppManager {
  import opened Wrappers
  import opened Strs
  import opened ImageRefs
  import Kube
  import Folds

  /** A parsed image reference, with the text it came from. */
  datatype Image = Image(original: string, repo: string, registry: string, version: string)

  /** `newImage`: `[registry/]repo[:tag]`; more than one '/' panics. */
  function NewImage(url: string): (r: Result<Image>)
    ensures r.Err? <==> Count(url, '/') >= 2
    ensures r.Err? ==> r.error == TooManySlashes
    ensures r.Ok? ==> r.value.original == url
    ensures r.Ok? ==> r.value.registry == Before(url, '/')
    ensures r.Ok? ==> r.value.repo == Before(LastSegment(url), ':')
    ensures r.Ok? ==> r.value.version == TagOf(LastSegment(url))
  {
    match SplitRef(url)
    case Err(e) => Err(e)
    case Ok(ref) => Ok(Image(url, ref.repo, ref.registry, ref.version))
  }

  /** `newImage("R/name:tag")` gives back `R`, `name` and `tag`. */
  lemma NewImageRoundTrip(registry: string, repo: string, version: string)
    requires '/' !in registry && '/' !in repo && '/' !in version
    requires ':' !in repo && ':' !in version
    ensures var url := registry + "/" + repo + ":" + version;
            NewImage(url) == Ok(Image(url, repo, registry, version))
  {
    SplitRefRoundTrip(registry, repo, version);
  }

  /** A reference without '/' is its own registry, and its repository is the
      text before its first ':'. */
  lemma NewImageSingleSegment(url: string)
    requires '/' !in url
    ensures NewImage(url).Ok?
    ensures NewImage(url).value.registry == url
    ensures NewImage(url).value.repo == Before(url, ':')
  {
    CountZero(url, '/');
    assert Before(url, '/') == url;
  }

  /** A last segment without exactly one ':' names the tag "latest": the
      "latest" corollary of `NewImage`'s tag clause, through `TagOf`. */
  lemma NewImageUntagged(url: string)
    requires Count(url, '/') < 2 && Count(LastSegment(url), ':') != 1
    ensures NewImage(url).Ok? && NewImage(url).value.version == "latest"
  {
  }

  /** A container slot, its image, and the version it could move to. */
  datatype Container = Container(name: string, current: Image, latest: string)

  /** Go's zero `Container`. */
  const ZeroContainer: Container := Container("", Image("", "", "", ""), "")

  /** The container for one slot of a pod template. */
  function ContainerOf(slot: Kube.PodContainer): Result<Container>
  {
    match NewImage(slot.image)
    case Err(e) => Err(e)
    case Ok(image) => Ok(Container(slot.name, image, ""))
  }

  /** `makeContainerList`: the slice is made with length |spec| and then
      appended to, so it holds |spec| zero containers followed by one
      container per slot, in order. */
  function MakeContainerList(spec: seq<Kube.PodContainer>): (r: Result<seq<Container>>)
    ensures r.Err? <==> exists i :: 0 <= i < |spec| && NewImage(spec[i].image).Err?
    ensures r.Ok? ==> |r.value| == 2 * |spec|
    ensures r.Ok? ==> forall i :: 0 <= i < |spec| ==> r.value[i] == ZeroContainer
    ensures r.Ok? ==> forall i :: 0 <= i < |spec| ==>
              r.value[|spec| + i] == Container(spec[i].name, NewImage(spec[i].image).value, "")
  {
    match Folds.MapAll(ContainerOf, spec)
    case Err(e) => Err(e)
    case Ok(cs) => Ok(seq(|spec|, _ => ZeroContainer) + cs)
  }

  /** A workload with its application label and container list. */
  datatype Resource = Resource(name: string, app: string, containers: seq<Container>)

  /** An application: its name and its resources of each kind. */
  datatype App = App(name: string, deployments: seq<Resource>, cronjobs: seq<Resource>)

  /** The resource for a listed item: its name, its "App" label (capital A),
      and its container list. */
  function ResourceOf(item: Kube.Workload): Result<Resource>
  {
    match MakeContainerList(item.containers)
    case Err(e) => Err(e)
    case Ok(cs) => Ok(Resource(item.name, Kube.Label(item.labels, "App"), cs))
  }

  /** The item itself when it has a name, nothing otherwise. */
  function IfNamed(item: Kube.Workload): seq<Kube.Workload>
  {
    if item.name == "" then [] else [item]
  }

  /** The items of a listing that have a name, in list order. */
  function Named(items: seq<Kube.Workload>): (r: seq<Kube.Workload>)
    ensures |r| <= |items|
    ensures forall k :: 0 <= k < |r| ==> r[k].name != ""
    decreases |items|
  {
    if |items| == 0 then []
    else
      IfNamed(items[0]) + Named(items[1..])
  }

  /** `Named` keeps items in list order. */
  lemma {:induction false} NamedInOrder(items: seq<Kube.Workload>)
    ensures Folds.SubsequenceOf(Named(items), items)
    decreases |items|
  {
    if |items| > 0 {
      NamedInOrder(items[1..]);
      var rest := Named(items[1..]);
      if items[0].name != "" {
        assert Named(items) == [items[0]] + rest;
        assert Named(items)[1..] == rest;
      } else {
        assert Named(items) == rest;
      }
    }
  }

  /** `Named` keeps every item with a name as often as it is listed. */
  lemma {:induction false} NamedKeepsNamed(items: seq<Kube.Workload>)
    ensures forall x: Kube.Workload :: x.name != "" ==> multiset(Named(items))[x] == multiset(items)[x]
    decreases |items|
  {
    if |items| > 0 {
      NamedKeepsNamed(items[1..]);
      var rest := Named(items[1..]);
      assert items == [items[0]] + items[1..];
      assert multiset(items) == multiset{items[0]} + multiset(items[1..]);
      assert multiset(Named(items)) == multiset(IfNamed(items[0])) + multiset(rest);
    }
  }

  /** Every listed item with a name is among those kept. */
  lemma NamedKeepsEach(items: seq<Kube.Workload>, i: nat)
    requires i < |items| && items[i].name != ""
    ensures items[i] in Named(items)
  {
    NamedKeepsNamed(items);
    assert items[i] in multiset(items);
  }

  /** The loop of `scanDeployments` / `scanCronjobs` over the listing: one
      resource per item with a name, in list order; a panic while building
      a container list ends the scan. */
  function ResourcesOf(items: seq<Kube.Workload>): (r: Result<seq<Resource>>)
    ensures r.Ok? ==> |r.value| == |Named(items)|
    ensures r.Ok? ==> forall k :: 0 <= k < |r.value| ==> ResourceOf(Named(items)[k]) == Ok(r.value[k])
  {
    Folds.MapAll(ResourceOf, Named(items))
  }

  /** A scan fails exactly when building the container list of some named
      item panics. */
  lemma ResourcesOfFails(items: seq<Kube.Workload>)
    ensures ResourcesOf(items).Err? <==> exists k :: 0 <= k < |Named(items)| && ResourceOf(Named(items)[k]).Err?
  {
    var named := Named(items);
    var r := Folds.MapAll(ResourceOf, named);
    if r.Err? {
      var k :| 0 <= k < |named| && ResourceOf(named[k]) == Err(r.error);
    }
  }

  /** What a scanned resource records: the item's name, its "App" label
      (capital A) and its container list. */
  lemma ResourceOfFields(item: Kube.Workload, r: Resource)
    requires ResourceOf(item) == Ok(r)
    ensures r.name == item.name && r.app == Kube.Label(item.labels, "App")
    ensures MakeContainerList(item.containers) == Ok(r.containers)
  {
  }

  /** An item without a name contributes nothing to a scan. */
  lemma ResourcesOfSkipsUnnamed(item: Kube.Workload, items: seq<Kube.Workload>)
    requires item.name == ""
    ensures ResourcesOf([item] + items) == ResourcesOf(items)
  {
    assert ([item] + items)[1..] == items;
    assert Named([item] + items) == Named(items);
  }

  /** `scanDeployments` / `scanCronjobs`: the listing's error, or its
      resources. */
  function ScanKind<W>(client: Kube.Client<W>, w: W): (r: Result<seq<Resource>>)
    ensures client.list(w).Err? ==> r == Err(client.list(w).error)
    ensures client.list(w).Ok? ==> r == ResourcesOf(client.list(w).value)
  {
    match client.list(w)
    case Err(e) => Err(e)
    case Ok(items) => ResourcesOf(items)
  }

  /** One step of `groupResources`: append `r` to the Deployments or the
      Cronjobs list of `apps[r.app]`, creating the application when it is
      missing; it is named `r.app` when `named` holds, and left with Go's
      zero name "" otherwise. */
  function AddResource(apps: map<string, App>, r: Resource, toDeployments: bool, named: bool): map<string, App>
  {
    var app := if r.app in apps then apps[r.app] else App(if named then r.app else "", [], []);
    var app' := if toDeployments then app.(deployments := app.deployments + [r])
                else app.(cronjobs := app.cronjobs + [r]);
    apps[r.app := app']
  }

  function AddDeployment(named: bool): (map<string, App>, Resource) -> map<string, App>
  {
    (apps: map<string, App>, r: Resource) => AddResource(apps, r, true, named)
  }

  function AddCronjob(named: bool): (map<string, App>, Resource) -> map<string, App>
  {
    (apps: map<string, App>, r: Resource) => AddResource(apps, r, false, named)
  }

  /** The two loops of `groupResources`, deployments first, into a new map. */
  function Group(deployments: seq<Resource>, cronjobs: seq<Resource>, named: bool): (r: map<string, App>)
    ensures |deployments| == 0 && |cronjobs| == 0 ==> r == map[]
  {
    Folds.Fold(AddCronjob(named), Folds.Fold(AddDeployment(named), map[], deployments), cronjobs)
  }

  /** `groupResources` of pkg/appmanager: applications named after their label. */
  function GroupResources(deployments: seq<Resource>, cronjobs: seq<Resource>): (r: map<string, App>)
    ensures |deployments| == 0 && |cronjobs| == 0 ==> r == map[]
  {
    Group(deployments, cronjobs, true)
  }

  /** The list of kind `toDeployments` of application `a` ([] when absent). */
  function ListOf(apps: map<string, App>, a: string, toDeployments: bool): seq<Resource>
  {
    if a !in apps then [] else if toDeployments then apps[a].deployments else apps[a].cronjobs
  }

  /** `r` when it is labelled `a`. */
  function Pick(a: string): Resource -> seq<Resource>
  {
    (r: Resource) => if r.app == a then [r] else []
  }

  lemma AddResourceList(apps: map<string, App>, r: Resource, toDeployments: bool, named: bool,
                        a: string, kind: bool)
    ensures ListOf(AddResource(apps, r, toDeployments, named), a, kind)
            == ListOf(apps, a, kind) + (if kind == toDeployments then Pick(a)(r) else [])
  {
  }

  /** Grouping appends every deployment to the Deployments list and every
      cron job to the Cronjobs list of the application it is labelled with,
      in input order. */
  lemma GroupLists(deployments: seq<Resource>, cronjobs: seq<Resource>, named: bool, a: string)
    ensures ListOf(Group(deployments, cronjobs, named), a, true) == Folds.Concat(Pick(a), deployments)
    ensures ListOf(Group(deployments, cronjobs, named), a, false) == Folds.Concat(Pick(a), cronjobs)
  {
    var empty: map<string, App> := map[];
    var mid := Folds.Fold(AddDeployment(named), empty, deployments);
    forall m, r
      ensures ListOf(AddDeployment(named)(m, r), a, true) == ListOf(m, a, true) + Pick(a)(r)
      ensures ListOf(AddDeployment(named)(m, r), a, false) == ListOf(m, a, false) + Folds.Nothing<Resource, Resource>(r)
      ensures ListOf(AddCronjob(named)(m, r), a, false) == ListOf(m, a, false) + Pick(a)(r)
      ensures ListOf(AddCronjob(named)(m, r), a, true) == ListOf(m, a, true) + Folds.Nothing<Resource, Resource>(r)
    {
      AddResourceList(m, r, true, named, a, true);
      AddResourceList(m, r, true, named, a, false);
      AddResourceList(m, r, false, named, a, false);
      AddResourceList(m, r, false, named, a, true);
    }
    Folds.FoldAppends(AddDeployment(named), (m: map<string, App>) => ListOf(m, a, true), Pick(a), empty, deployments);
    Folds.FoldAppends(AddDeployment(named), (m: map<string, App>) => ListOf(m, a, false), Folds.Nothing<Resource, Resource>, empty, deployments);
    Folds.FoldAppends(AddCronjob(named), (m: map<string, App>) => ListOf(m, a, false), Pick(a), mid, cronjobs);
    Folds.FoldAppends(AddCronjob(named), (m: map<string, App>) => ListOf(m, a, true), Folds.Nothing<Resource, Resource>, mid, cronjobs);
    Folds.ConcatOfNothing<Resource, Resource>(deployments);
    Folds.ConcatOfNothing<Resource, Resource>(cronjobs);
  }

  /** The number of resources of kind `toDeployments` over all applications. */
  ghost function Total(apps: map<string, App>, toDeployments: bool): nat
    decreases |apps|
  {
    if apps == map[] then 0
    else
      var a :| a in apps;
      |ListOf(apps, a, toDeployments)| + Total(apps - {a}, toDeployments)
  }

  /** `Total` may take out any application first. */
  lemma {:induction false} TotalRemove(apps: map<string, App>, a: string, kind: bool)
    requires a in apps
    ensures Total(apps, kind) == |ListOf(apps, a, kind)| + Total(apps - {a}, kind)
    decreases |apps|
  {
    var b :| b in apps && Total(apps, kind) == |ListOf(apps, b, kind)| + Total(apps - {b}, kind);
    if b != a {
      TotalRemove(apps - {b}, a, kind);
      TotalRemove(apps - {a}, b, kind);
      assert apps - {b} - {a} == apps - {a} - {b};
      assert ListOf(apps - {b}, a, kind) == ListOf(apps, a, kind);
      assert ListOf(apps - {a}, b, kind) == ListOf(apps, b, kind);
    }
  }

  /** Filing one resource raises the total of its kind by one and leaves the
      other total as it was. */
  lemma AddResourceTotal(apps: map<string, App>, r: Resource, toDeployments: bool, named: bool, kind: bool)
    ensures Total(AddResource(apps, r, toDeployments, named), kind)
            == Total(apps, kind) + (if kind == toDeployments then 1 else 0)
  {
    var m := AddResource(apps, r, toDeployments, named);
    TotalRemove(m, r.app, kind);
    assert m - {r.app} == apps - {r.app};
    AddResourceList(apps, r, toDeployments, named, r.app, kind);
    if r.app in apps {
      TotalRemove(apps, r.app, kind);
    } else {
      assert apps - {r.app} == apps;
    }
  }

  /** `Total` of one kind, as a function value. */
  ghost function TotalOf(kind: bool): map<string, App> -> nat
  {
    (m: map<string, App>) => Total(m, kind)
  }

  /** Each step of the deployments loop raises the deployments total by one
      and leaves the cron jobs total as it was. */
  lemma DeploymentStepTotals(named: bool, kind: bool)
    ensures forall m, r :: TotalOf(kind)(AddDeployment(named)(m, r)) == TotalOf(kind)(m) + (if kind then 1 else 0)
  {
    forall m, r
      ensures TotalOf(kind)(AddDeployment(named)(m, r)) == TotalOf(kind)(m) + (if kind then 1 else 0)
    {
      AddResourceTotal(m, r, true, named, kind);
    }
  }

  /** Each step of the cron jobs loop raises the cron jobs total by one and
      leaves the deployments total as it was. */
  lemma CronjobStepTotals(named: bool, kind: bool)
    ensures forall m, r :: TotalOf(kind)(AddCronjob(named)(m, r)) == TotalOf(kind)(m) + (if kind then 0 else 1)
  {
    forall m, r
      ensures TotalOf(kind)(AddCronjob(named)(m, r)) == TotalOf(kind)(m) + (if kind then 0 else 1)
    {
      AddResourceTotal(m, r, false, named, kind);
    }
  }

  /** The deployments loop adds one to the deployments total per resource. */
  lemma DeploymentsTotal(named: bool, kind: bool, m: map<string, App>, deployments: seq<Resource>)
    ensures Total(Folds.Fold(AddDeployment(named), m, deployments), kind)
            == Total(m, kind) + (if kind then |deployments| else 0)
  {
    DeploymentStepTotals(named, kind);
    if kind {
      Folds.FoldCounts(AddDeployment(named), TotalOf(kind), 1, m, deployments);
    } else {
      Folds.FoldCounts(AddDeployment(named), TotalOf(kind), 0, m, deployments);
    }
  }

  /** The cron jobs loop adds one to the cron jobs total per resource. */
  lemma CronjobsTotal(named: bool, kind: bool, m: map<string, App>, cronjobs: seq<Resource>)
    ensures Total(Folds.Fold(AddCronjob(named), m, cronjobs), kind)
            == Total(m, kind) + (if kind then 0 else |cronjobs|)
  {
    CronjobStepTotals(named, kind);
    if kind {
      Folds.FoldCounts(AddCronjob(named), TotalOf(kind), 0, m, cronjobs);
    } else {
      Folds.FoldCounts(AddCronjob(named), TotalOf(kind), 1, m, cronjobs);
    }
  }

  /** Grouping loses and duplicates nothing: the Deployments lists hold as
      many resources as there were deployments, and likewise for cron jobs. */
  lemma GroupCounts(deployments: seq<Resource>, cronjobs: seq<Resource>, named: bool, kind: bool)
    ensures Total(Group(deployments, cronjobs, named), kind) == if kind then |deployments| else |cronjobs|
  {
    var empty: map<string, App> := map[];
    var mid := Folds.Fold(AddDeployment(named), empty, deployments);
    DeploymentsTotal(named, kind, empty, deployments);
    CronjobsTotal(named, kind, mid, cronjobs);
    assert Total(empty, kind) == 0;
  }

  /** The applications present are exactly the labels of the inputs, and
      each is named as `named` says. */
  lemma GroupKeys(deployments: seq<Resource>, cronjobs: seq<Resource>, named: bool)
    ensures forall a :: a in Group(deployments, cronjobs, named) <==>
              (exists i :: 0 <= i < |deployments| && deployments[i].app == a) ||
              (exists i :: 0 <= i < |cronjobs| && cronjobs[i].app == a)
    ensures forall a :: a in Group(deployments, cronjobs, named) ==>
              Group(deployments, cronjobs, named)[a].name == (if named then a else "")
  {
    var empty: map<string, App> := map[];
    var inv := (m: map<string, App>) => forall a :: a in m ==> m[a].name == (if named then a else "");
    forall m, r | inv(m)
      ensures inv(AddDeployment(named)(m, r)) && inv(AddCronjob(named)(m, r))
    {
    }
    Folds.FoldInvariant(AddDeployment(named), inv, empty, deployments);
    Folds.FoldInvariant(AddCronjob(named), inv, Folds.Fold(AddDeployment(named), empty, deployments), cronjobs);
    forall a
      ensures a in Group(deployments, cronjobs, named) <==>
              (exists i :: 0 <= i < |deployments| && deployments[i].app == a) ||
              (exists i :: 0 <= i < |cronjobs| && cronjobs[i].app == a)
    {
      GroupLists(deployments, cronjobs, named, a);
      GroupMembership(deployments, cronjobs, named, a);
      PickedIff(deployments, a);
      PickedIff(cronjobs, a);
    }
  }

  /** An application is present exactly when one of its lists is non-empty. */
  lemma GroupMembership(deployments: seq<Resource>, cronjobs: seq<Resource>, named: bool, a: string)
    ensures a in Group(deployments, cronjobs, named) <==>
              |ListOf(Group(deployments, cronjobs, named), a, true)| > 0 ||
              |ListOf(Group(deployments, cronjobs, named), a, false)| > 0
  {
    var empty: map<string, App> := map[];
    var inv := (m: map<string, App>) => forall b :: b in m ==> |ListOf(m, b, true)| > 0 || |ListOf(m, b, false)| > 0;
    forall m, r | inv(m)
      ensures inv(AddDeployment(named)(m, r)) && inv(AddCronjob(named)(m, r))
    {
    }
    Folds.FoldInvariant(AddDeployment(named), inv, empty, deployments);
    Folds.FoldInvariant(AddCronjob(named), inv, Folds.Fold(AddDeployment(named), empty, deployments), cronjobs);
  }

  /** Picking the resources labelled `a` yields something exactly when one
      of them is. */
  lemma {:induction false} PickedIff(rs: seq<Resource>, a: string)
    ensures |Folds.Concat(Pick(a), rs)| > 0 <==> exists i :: 0 <= i < |rs| && rs[i].app == a
    decreases |rs|
  {
    if |rs| > 0 {
      PickedIff(rs[1..], a);
      if exists i :: 0 <= i < |rs[1..]| && rs[1..][i].app == a {
        var i :| 0 <= i < |rs[1..]| && rs[1..][i].app == a;
        assert rs[i + 1] == rs[1..][i];
      }
      if exists i :: 0 <= i < |rs| && rs[i].app == a {
        var i :| 0 <= i < |rs| && rs[i].app == a;
        if i > 0 {
          assert rs[1..][i - 1] == rs[i];
        }
      }
    }
  }

  /** The applications after a scan and its error, if any. */
  datatype ScanOutcome = ScanOutcome(apps: map<string, App>, err: Option<Error>)

  /** The shape of `Scan` in both packages: list deployments, then cron jobs;
      the first error returns with the applications unchanged; otherwise
      they are replaced by the grouping. */
  function ScanWith<W>(apps: map<string, App>, deployClient: Kube.Client<W>, cronClient: Kube.Client<W>,
                       w: W, named: bool): (r: ScanOutcome)
    ensures ScanKind(deployClient, w).Err? ==> r == ScanOutcome(apps, Some(ScanKind(deployClient, w).error))
    ensures ScanKind(deployClient, w).Ok? && ScanKind(cronClient, w).Err? ==>
              r == ScanOutcome(apps, Some(ScanKind(cronClient, w).error))
    ensures ScanKind(deployClient, w).Ok? && ScanKind(cronClient, w).Ok? ==>
              r == ScanOutcome(Group(ScanKind(deployClient, w).value, ScanKind(cronClient, w).value, named), None)
  {
    match ScanKind(deployClient, w)
    case Err(e) => ScanOutcome(apps, Some(e))
    case Ok(deployments) =>
      match ScanKind(cronClient, w)
      case Err(e) => ScanOutcome(apps, Some(e))
      case Ok(cronjobs) => ScanOutcome(Group(deployments, cronjobs, named), None)
  }

  /** `Scan` of pkg/appmanager: a deployment listing error, else a cron job
      listing error, returns with the applications unchanged; when both
      listings succeed the applications become their grouping and no error
      is returned. */
  function Scan<W>(apps: map<string, App>, deployClient: Kube.Client<W>, cronClient: Kube.Client<W>, w: W): (r: ScanOutcome)
    ensures ScanKind(deployClient, w).Err? ==> r == ScanOutcome(apps, Some(ScanKind(deployClient, w).error))
    ensures ScanKind(deployClient, w).Ok? && ScanKind(cronClient, w).Err? ==>
              r == ScanOutcome(apps, Some(ScanKind(cronClient, w).error))
    ensures ScanKind(deployClient, w).Ok? && ScanKind(cronClient, w).Ok? ==>
              r == ScanOutcome(GroupResources(ScanKind(deployClient, w).value, ScanKind(cronClient, w).value), None)
    ensures r.err.Some? ==> r.apps == apps
    ensures r.err.None? ==>
              && ScanKind(deployClient, w).Ok? && ScanKind(cronClient, w).Ok?
              && r.apps == GroupResources(ScanKind(deployClient, w).value, ScanKind(cronClient, w).value)
  {
    ScanWith(apps, deployClient, cronClient, w, true)
  }

  /** `Init` after the client set is built: the applications start empty and
      are then scanned, so a failed scan leaves none. */
  function Init<W>(deployClient: Kube.Client<W>, cronClient: Kube.Client<W>, w: W): (r: ScanOutcome)
    ensures r.err.Some? ==> r.apps == map[]
    ensures r.err.None? ==> r == Scan(map[], deployClient, cronClient, w)
  {
    Scan(map[], deployClient, cronClient, w)
  }

  /** `Deploy` is a stub: it changes nothing and reports no error. */
  function Deploy(app: string, version: string): (r: Option<Error>)
    ensures r.None?
  {
    None
  }
}
