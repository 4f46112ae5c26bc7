/** Applications and the app manager of the current engine
    (pkg/apps/apps.go): grouping discovered containers by application and
    image family, broadcasting a new version, and scanning the cluster. */
module Apps {
  import opened Wrappers
  import opened AppsTypes
  import ChangeSets
  import Managers
  import Semver
  import Folds

  /** An application: its name and one change set per image family it uses. */
  datatype App = App(name: string, changeSets: map<ImageIdentifier, ChangeSet>)

  /** An application with no change sets. */
  function NewApp(name: string): (app: App)
    ensures app.name == name && |app.changeSets| == 0
  {
    App(name, map[])
  }

  /** The change sets of `app`, one per image family, in map iteration order. */
  method GetChangeSets(app: App) returns (r: seq<ChangeSet>)
    ensures |r| == |app.changeSets|
    ensures forall id :: id in app.changeSets ==> app.changeSets[id] in r
    ensures forall i :: 0 <= i < |r| ==> r[i] in app.changeSets.Values
  {
    r := [];
    var rest := app.changeSets.Keys;
    while rest != {}
      invariant rest <= app.changeSets.Keys
      invariant |r| + |rest| == |app.changeSets.Keys|
      invariant forall id :: id in app.changeSets && id !in rest ==> app.changeSets[id] in r
      invariant forall i :: 0 <= i < |r| ==> r[i] in app.changeSets.Values
      decreases |rest|
    {
      var id :| id in rest;
      r := r + [app.changeSets[id]];
      rest := rest - {id};
    }
  }

  /** The application after `App.SetLatest`: only the change set of the named
      image family, if the application has one, is updated. */
  ghost function AppUpdated(app: App, parse: string -> Option<Semver.Version>,
                            registry: string, repository: string, version: string): App
  {
    var id := ImageIdentifier(repository, registry);
    if id in app.changeSets
    then app.(changeSets := app.changeSets[id := ChangeSets.Updated(app.changeSets[id], parse, version)])
    else app
  }

  /** Applies `ChangeSet.SetLatest` to the change set of `registry/repository`. */
  method AppSetLatest(app: App, parse: string -> Option<Semver.Version>,
                      registry: string, repository: string, version: string) returns (r: App)
    ensures r == AppUpdated(app, parse, registry, repository, version)
    ensures r.name == app.name && r.changeSets.Keys == app.changeSets.Keys
    ensures forall id :: id in app.changeSets && id != ImageIdentifier(repository, registry) ==>
              r.changeSets[id] == app.changeSets[id]
    ensures ImageIdentifier(repository, registry) in app.changeSets ==>
              r.changeSets[ImageIdentifier(repository, registry)].updateTo == version
    ensures ImageIdentifier(repository, registry) !in app.changeSets ==> r == app
  {
    var id := ImageIdentifier(repository, registry);
    if id in app.changeSets {
      var cs := ChangeSets.SetLatest(app.changeSets[id], parse, version);
      r := app.(changeSets := app.changeSets[id := cs]);
    } else {
      r := app;
    }
  }

  /** `AppManager.SetLatest`: every application is told about the version. */
  method ManagerSetLatest(apps: map<string, App>, parse: string -> Option<Semver.Version>,
                          registry: string, repository: string, version: string) returns (r: map<string, App>)
    ensures r.Keys == apps.Keys
    ensures forall a :: a in apps ==> r[a] == AppUpdated(apps[a], parse, registry, repository, version)
  {
    r := apps;
    var rest := apps.Keys;
    while rest != {}
      invariant rest <= apps.Keys
      invariant r.Keys == apps.Keys
      invariant forall a :: a in apps && a !in rest ==> r[a] == AppUpdated(apps[a], parse, registry, repository, version)
      invariant forall a :: a in rest ==> r[a] == apps[a]
      decreases |rest|
    {
      var a :| a in rest;
      var app := AppSetLatest(apps[a], parse, registry, repository, version);
      r := r[a := app];
      rest := rest - {a};
    }
  }

  /** The application filed under `a`, or a fresh one when there is none. */
  function AppOf(apps: map<string, App>, a: string): App
  {
    if a in apps then apps[a] else NewApp(a)
  }

  /** The change set of `app` for image `id`, or a fresh one when there is none. */
  function ChangeSetOf(app: App, id: ImageIdentifier): ChangeSet
  {
    if id in app.changeSets then app.changeSets[id] else ChangeSets.NewChangeSet(id)
  }

  /** The containers of kind `kind` that application `a` has for image `id`. */
  function ListOf(apps: map<string, App>, a: string, id: ImageIdentifier, kind: string): seq<Container>
  {
    ChangeSets.KindList(ChangeSetOf(AppOf(apps, a), id), kind)
  }

  /** A change set filed under application `a` and image `id` is for that
      image, and holds only containers of that application and image. */
  ghost predicate ChangeSetWellFormed(a: string, id: ImageIdentifier, cs: ChangeSet)
  {
    && cs.imageId == id
    && forall k, i :: k in cs.containers && 0 <= i < |cs.containers[k]| ==>
         cs.containers[k][i].app == a && cs.containers[k][i].imageId == id
  }

  /** An application filed under `a` is named `a`, and its change sets are
      filed under their images. */
  ghost predicate AppWellFormed(a: string, app: App)
  {
    && app.name == a
    && forall id :: id in app.changeSets ==> ChangeSetWellFormed(a, id, app.changeSets[id])
  }

  ghost predicate WellFormed(apps: map<string, App>)
  {
    forall a :: a in apps ==> AppWellFormed(a, apps[a])
  }

  /** Files `c` in `app` under its image, at the end of its kind's list. */
  function AddToApp(app: App, kind: string, c: Container): (r: App)
    ensures r.name == app.name
    ensures r.changeSets.Keys == app.changeSets.Keys + {c.imageId}
  {
    app.(changeSets := app.changeSets[c.imageId := ChangeSets.AddContainer(ChangeSetOf(app, c.imageId), kind, c)])
  }

  /** `AppManager.AddContainer`: files `c` under its application and image,
      creating either when missing, at the end of its kind's list. */
  function AddContainer(apps: map<string, App>, kind: string, c: Container): (r: map<string, App>)
    ensures forall a :: a in r <==> a in apps || a == c.app
    ensures forall a :: a in apps && a != c.app ==> r[a] == apps[a]
  {
    apps[c.app := AddToApp(AppOf(apps, c.app), kind, c)]
  }

  lemma AppOfAdd(apps: map<string, App>, kind: string, c: Container, a: string)
    ensures AppOf(AddContainer(apps, kind, c), a)
            == if a == c.app then AddToApp(AppOf(apps, a), kind, c) else AppOf(apps, a)
  {
  }

  lemma ChangeSetOfAdd(app: App, kind: string, c: Container, id: ImageIdentifier)
    ensures ChangeSetOf(AddToApp(app, kind, c), id)
            == if id == c.imageId then ChangeSets.AddContainer(ChangeSetOf(app, id), kind, c) else ChangeSetOf(app, id)
  {
  }

  /** Adding `c` appends it to the one list it belongs in and changes no other list. */
  lemma AddContainerLists(apps: map<string, App>, kind: string, c: Container, a: string, id: ImageIdentifier, k: string)
    ensures ListOf(AddContainer(apps, kind, c), a, id, k)
            == ListOf(apps, a, id, k) + (if a == c.app && id == c.imageId && k == kind then [c] else [])
  {
    AppOfAdd(apps, kind, c, a);
    var app := AppOf(apps, a);
    ChangeSetOfAdd(app, kind, c, id);
    ChangeSets.AddContainerKindList(ChangeSetOf(app, id), kind, c, k);
  }

  /** Adding a container names a new application after its key, keeps the
      name of an existing one, keeps every existing change set's decision,
      and starts a new change set with no target and no upgrade due. */
  lemma AddContainerDecisions(apps: map<string, App>, kind: string, c: Container)
    ensures var r := AddContainer(apps, kind, c);
            && r[c.app].name == AppOf(apps, c.app).name
            && (c.app !in apps ==> r[c.app].name == c.app)
            && c.imageId in r[c.app].changeSets
            && (forall id :: c.app in apps && id in apps[c.app].changeSets ==>
                  && id in r[c.app].changeSets
                  && r[c.app].changeSets[id].needsUpdate == apps[c.app].changeSets[id].needsUpdate
                  && r[c.app].changeSets[id].updateTo == apps[c.app].changeSets[id].updateTo)
            && (!(c.app in apps && c.imageId in apps[c.app].changeSets) ==>
                  !r[c.app].changeSets[c.imageId].needsUpdate && r[c.app].changeSets[c.imageId].updateTo == "")
  {
  }

  /** Adding a container of application `a` and image `id` to a well-formed
      change set of theirs keeps it well formed. */
  lemma ChangeSetAddWellFormed(a: string, id: ImageIdentifier, cs: ChangeSet, kind: string, c: Container)
    requires ChangeSetWellFormed(a, id, cs) && c.app == a && c.imageId == id
    ensures ChangeSetWellFormed(a, id, ChangeSets.AddContainer(cs, kind, c))
  {
    var cs' := ChangeSets.AddContainer(cs, kind, c);
    forall k, i | k in cs'.containers && 0 <= i < |cs'.containers[k]|
      ensures cs'.containers[k][i].app == a && cs'.containers[k][i].imageId == id
    {
      if k != kind {
        assert cs'.containers[k] == cs.containers[k];
      } else if i < |cs'.containers[k]| - 1 {
        assert cs'.containers[k][i] == ChangeSets.KindList(cs, kind)[i];
      }
    }
  }

  /** Adding a container keeps applications filed under their names and
      change sets under their images. */
  lemma AddContainerWellFormed(apps: map<string, App>, kind: string, c: Container)
    requires WellFormed(apps)
    ensures WellFormed(AddContainer(apps, kind, c))
  {
    var app := AppOf(apps, c.app);
    assert AppWellFormed(c.app, app);
    var cs := ChangeSetOf(app, c.imageId);
    assert ChangeSetWellFormed(c.app, c.imageId, cs);
    ChangeSetAddWellFormed(c.app, c.imageId, cs, kind, c);
    var app' := AddToApp(app, kind, c);
    assert AppWellFormed(c.app, app') by {
      forall id | id in app'.changeSets
        ensures ChangeSetWellFormed(c.app, id, app'.changeSets[id])
      {
        if id != c.imageId {
          assert app'.changeSets[id] == app.changeSets[id];
        }
      }
    }
    var r := AddContainer(apps, kind, c);
    forall a | a in r
      ensures AppWellFormed(a, r[a])
    {
      if a != c.app {
        assert r[a] == apps[a];
      } else {
        assert r[a] == app';
      }
    }
  }

  /** One discovered container and the kind of the workload it came from. */
  datatype Entry = Entry(kind: string, container: Container)

  function AddEntry(apps: map<string, App>, e: Entry): map<string, App>
  {
    AddContainer(apps, e.kind, e.container)
  }

  /** Adds the entries one after another. */
  function AddAll(apps: map<string, App>, entries: seq<Entry>): map<string, App>
  {
    Folds.Fold(AddEntry, apps, entries)
  }

  /** The container of `e` if it belongs in the list of application `a`,
      image `id` and kind `kind`. */
  function Pick(e: Entry, a: string, id: ImageIdentifier, kind: string): seq<Container>
  {
    if e.kind == kind && e.container.app == a && e.container.imageId == id then [e.container] else []
  }

  /** `Pick` for one list, as a function value. */
  function Picker(a: string, id: ImageIdentifier, kind: string): Entry -> seq<Container>
  {
    (e: Entry) => Pick(e, a, id, kind)
  }

  /** `ListOf` for one list, as a function value. */
  function View(a: string, id: ImageIdentifier, kind: string): map<string, App> -> seq<Container>
  {
    (m: map<string, App>) => ListOf(m, a, id, kind)
  }

  /** The containers among `entries` that belong in one list, in order. */
  function Select(entries: seq<Entry>, a: string, id: ImageIdentifier, kind: string): seq<Container>
  {
    Folds.Concat(Picker(a, id, kind), entries)
  }

  /** Each entry added appends to one list what `Pick` says. */
  lemma AddEntryAppends(a: string, id: ImageIdentifier, kind: string)
    ensures forall m, e :: View(a, id, kind)(AddEntry(m, e)) == View(a, id, kind)(m) + Picker(a, id, kind)(e)
  {
    forall m, e
      ensures View(a, id, kind)(AddEntry(m, e)) == View(a, id, kind)(m) + Picker(a, id, kind)(e)
    {
      var c := e.container;
      AddContainerLists(m, e.kind, c, a, id, kind);
      assert View(a, id, kind)(AddEntry(m, e)) == ListOf(AddContainer(m, e.kind, c), a, id, kind);
      assert Picker(a, id, kind)(e) == if a == c.app && id == c.imageId && kind == e.kind then [c] else [];
    }
  }

  /** Adding entries appends, to every list, exactly the entries that belong
      in it, in order; nothing is lost or reordered. */
  lemma AddAllLists(apps: map<string, App>, entries: seq<Entry>, a: string, id: ImageIdentifier, kind: string)
    ensures ListOf(AddAll(apps, entries), a, id, kind) == ListOf(apps, a, id, kind) + Select(entries, a, id, kind)
  {
    AddEntryAppends(a, id, kind);
    Folds.FoldAppends(AddEntry, View(a, id, kind), Picker(a, id, kind), apps, entries);
  }

  lemma AddAllConcat(apps: map<string, App>, e1: seq<Entry>, e2: seq<Entry>)
    ensures AddAll(AddAll(apps, e1), e2) == AddAll(apps, e1 + e2)
  {
    Folds.FoldConcat(AddEntry, apps, e1, e2);
  }

  lemma AddAllWellFormed(apps: map<string, App>, entries: seq<Entry>)
    requires WellFormed(apps)
    ensures WellFormed(AddAll(apps, entries))
  {
    var inv := (m: map<string, App>) => WellFormed(m);
    forall m, e | inv(m)
      ensures inv(AddEntry(m, e))
    {
      AddContainerWellFormed(m, e.kind, e.container);
    }
    Folds.FoldInvariant(AddEntry, inv, apps, entries);
  }

  /** Each of `cs`, in order, as an entry of kind `kind`. */
  function Tag(kind: string, cs: seq<Container>): (r: seq<Entry>)
    ensures |r| == |cs|
    ensures forall i :: 0 <= i < |cs| ==> r[i].kind == kind && r[i].container == cs[i]
  {
    seq(|cs|, i requires 0 <= i < |cs| => Entry(kind, cs[i]))
  }

  /** The entries the generator makes of one item (none when it panics). */
  function Generated<Item>(kind: string, generator: Item -> Result<seq<Container>>): Item -> seq<Entry>
  {
    (item: Item) => if generator(item).Ok? then Tag(kind, generator(item).value) else []
  }

  /** The generator's containers for each item, in order, tagged with `kind`;
      the first generator panic ends it. */
  function Generate<Item>(kind: string, generator: Item -> Result<seq<Container>>, items: seq<Item>): (r: Result<seq<Entry>>)
    ensures r.Ok? ==> forall i :: 0 <= i < |r.value| ==> r.value[i].kind == kind
    ensures r.Err? <==> exists i :: 0 <= i < |items| && generator(items[i]).Err?
    ensures r.Ok? ==> r.value == Folds.Concat(Generated(kind, generator), items)
    decreases |items|
  {
    if |items| == 0 then Ok([])
    else
      match generator(items[0])
      case Err(e) => Err(e)
      case Ok(cs) =>
        match Generate(kind, generator, items[1..])
        case Err(e) =>
          assert exists i :: 0 <= i < |items| && generator(items[i]).Err? by {
            var j :| 0 <= j < |items[1..]| && generator(items[1..][j]).Err?;
            assert items[j + 1] == items[1..][j];
          }
          Err(e)
        case Ok(rest) =>
          assert forall i :: 1 <= i < |items| ==> items[i] == items[1..][i - 1];
          Ok(Tag(kind, cs) + rest)
  }

  /** The entries one kind's manager yields: its listing's error, or what its
      generator makes of the listed items. */
  function KindEntries<Item, W>(rm: ResourceManager<Item, W>, w: W): Result<seq<Entry>>
  {
    match rm.fetcher(w)
    case Err(e) => Err(e)
    case Ok(items) => Generate(rm.kind, rm.generator, items)
  }

  /** What the kinds in `order` yield: the entries of every kind before the
      first one that fails, and that kind's error. */
  datatype Discovery = Discovery(entries: seq<Entry>, err: Option<Error>)

  /** The entries of kind `k` when it lists and generates without error. */
  function KindOutput<Item, W>(reg: map<string, ResourceManager<Item, W>>, w: W): string -> seq<Entry>
  {
    (k: string) => if k in reg && KindEntries(reg[k], w).Ok? then KindEntries(reg[k], w).value else []
  }

  /** Discovery over the kinds of `order`, all of them registered. */
  function DiscoverFrom<Item, W>(reg: map<string, ResourceManager<Item, W>>, order: seq<string>, w: W): (d: Discovery)
    requires forall i :: 0 <= i < |order| ==> order[i] in reg
    ensures d.err.None? <==> forall i :: 0 <= i < |order| ==> KindEntries(reg[order[i]], w).Ok?
    ensures d.err.Some? ==> exists i :: 0 <= i < |order| && KindEntries(reg[order[i]], w) == Err(d.err.value)
    ensures d.err.None? ==> d.entries == Folds.Concat(KindOutput(reg, w), order)
  {
    if |order| == 0 then Discovery([], None)
    else
      match KindEntries(reg[order[0]], w)
      case Err(e) => Discovery([], Some(e))
      case Ok(es) =>
        var rest := DiscoverFrom(reg, order[1..], w);
        assert forall i :: 1 <= i < |order| ==> order[i] == order[1..][i - 1];
        assert rest.err.Some? ==> exists i :: 0 <= i < |order| && KindEntries(reg[order[i]], w) == Err(rest.err.value) by {
          if rest.err.Some? {
            var i :| 0 <= i < |order[1..]| && KindEntries(reg[order[1..][i]], w) == Err(rest.err.value);
            assert order[i + 1] == order[1..][i];
          }
        }
        Discovery(es + rest.entries, rest.err)
  }

  /** Kind `order[i]` is the first of `order` to fail, with error `e`: every
      kind before it lists and generates. */
  ghost predicate FailsFirstAt<Item, W>(reg: map<string, ResourceManager<Item, W>>, order: seq<string>, w: W,
                                        i: int, e: Error)
  {
    && 0 <= i < |order| && order[i] in reg && KindEntries(reg[order[i]], w) == Err(e)
    && forall j :: 0 <= j < i ==> order[j] in reg && KindEntries(reg[order[j]], w).Ok?
  }

  /** A first kind that lists and generates puts its entries in front of
      the discovery over the rest. */
  lemma DiscoverFromStep<Item, W>(reg: map<string, ResourceManager<Item, W>>, order: seq<string>, w: W)
    requires |order| > 0 && forall i :: 0 <= i < |order| ==> order[i] in reg
    requires KindEntries(reg[order[0]], w).Ok?
    ensures DiscoverFrom(reg, order, w) ==
              Discovery(KindEntries(reg[order[0]], w).value + DiscoverFrom(reg, order[1..], w).entries,
                        DiscoverFrom(reg, order[1..], w).err)
  {
  }

  /** The first failure of `order[1..]` is the first failure of `order`
      when `order[0]` succeeds. */
  lemma FailsFirstAtShift<Item, W>(reg: map<string, ResourceManager<Item, W>>, order: seq<string>, w: W,
                                   i: int, e: Error)
    requires |order| > 0 && order[0] in reg && KindEntries(reg[order[0]], w).Ok?
    requires FailsFirstAt(reg, order[1..], w, i, e)
    ensures FailsFirstAt(reg, order, w, i + 1, e)
  {
    assert order[i + 1] == order[1..][i];
    forall j | 0 <= j < i + 1
      ensures order[j] in reg && KindEntries(reg[order[j]], w).Ok?
    {
      if j > 0 {
        assert order[j] == order[1..][j - 1];
      }
    }
  }

  /** The output of the first `i + 1` kinds is that of the first kind
      followed by that of the next `i`. */
  lemma ConcatPrefixCons<E, T>(out: E -> seq<T>, es: seq<E>, i: nat)
    requires i < |es|
    ensures Folds.Concat(out, es[..i + 1]) == out(es[0]) + Folds.Concat(out, es[1..][..i])
  {
    assert es[..i + 1][1..] == es[1..][..i];
  }

  /** A failed discovery stops at the first failing kind of `order` with its
      error, and holds exactly the entries of the kinds before it. */
  lemma {:induction false} DiscoverFromFirstError<Item, W>(reg: map<string, ResourceManager<Item, W>>,
                                                           order: seq<string>, w: W)
    requires forall i :: 0 <= i < |order| ==> order[i] in reg
    ensures var d := DiscoverFrom(reg, order, w);
            d.err.Some? ==> exists i :: FailsFirstAt(reg, order, w, i, d.err.value)
                                        && d.entries == Folds.Concat(KindOutput(reg, w), order[..i])
    decreases |order|
  {
    if |order| > 0 {
      var first := KindEntries(reg[order[0]], w);
      if first.Err? {
        assert FailsFirstAt(reg, order, w, 0, first.error);
        assert order[..0] == [];
      } else {
        var rest := DiscoverFrom(reg, order[1..], w);
        assert forall i :: 0 <= i < |order[1..]| ==> order[1..][i] in reg by {
          assert forall i :: 0 <= i < |order[1..]| ==> order[1..][i] == order[i + 1];
        }
        DiscoverFromStep(reg, order, w);
        DiscoverFromFirstError(reg, order[1..], w);
        if rest.err.Some? {
          var i :| FailsFirstAt(reg, order[1..], w, i, rest.err.value)
                   && rest.entries == Folds.Concat(KindOutput(reg, w), order[1..][..i]);
          FailsFirstAtShift(reg, order, w, i, rest.err.value);
          ConcatPrefixCons(KindOutput(reg, w), order, i);
        }
      }
    }
  }

  /** Discovery over the whole registry, its kinds visited in the map
      iteration order `order`: no error exactly when every registered kind
      lists and generates; otherwise the error of the first failing kind in
      `order`, with the entries of the kinds before it. */
  function Discover<Item, W>(reg: map<string, ResourceManager<Item, W>>, order: seq<string>, w: W): (d: Discovery)
    requires ChangeSets.Enumerates(order, reg.Keys)
    ensures d.err.None? <==> forall k :: k in reg ==> KindEntries(reg[k], w).Ok?
    ensures d.err.Some? ==> exists k :: k in reg && KindEntries(reg[k], w) == Err(d.err.value)
    ensures d.err.None? ==> d.entries == Folds.Concat(KindOutput(reg, w), order)
    ensures d.err.Some? ==> exists i :: FailsFirstAt(reg, order, w, i, d.err.value)
                                        && d.entries == Folds.Concat(KindOutput(reg, w), order[..i])
  {
    var d := DiscoverFrom(reg, order, w);
    DiscoverFromFirstError(reg, order, w);
    assert d.err.None? <==> forall k :: k in reg ==> KindEntries(reg[k], w).Ok? by {
      if d.err.None? {
        forall k | k in reg
          ensures KindEntries(reg[k], w).Ok?
        {
          var i :| 0 <= i < |order| && order[i] == k;
        }
      }
    }
    d
  }

  /** The applications after a scan and the error it stopped at, if any. */
  datatype ScanResult = ScanResult(apps: map<string, App>, err: Option<Error>)

  /** The scan loop over the kinds of `order`, all of them registered. */
  function ScanFrom<Item, W>(apps: map<string, App>, reg: map<string, ResourceManager<Item, W>>,
                             order: seq<string>, w: W): (r: ScanResult)
    requires forall i :: 0 <= i < |order| ==> order[i] in reg
    ensures r.apps == AddAll(apps, DiscoverFrom(reg, order, w).entries)
    ensures r.err == DiscoverFrom(reg, order, w).err
    decreases |order|
  {
    if |order| == 0 then ScanResult(apps, None)
    else
      match KindEntries(reg[order[0]], w)
      case Err(e) => ScanResult(apps, Some(e))
      case Ok(es) =>
        AddAllConcat(apps, es, DiscoverFrom(reg, order[1..], w).entries);
        ScanFrom(AddAll(apps, es), reg, order[1..], w)
  }

  /** `AppManager.Scan`: every registered kind, in map iteration order
      `order`, lists its workloads and adds their containers as it goes.
      Its outcome is that of adding, to the applications already there,
      every entry the kinds yield before the first failing one, and
      returning that kind's error; it fails only when some registered kind
      does. */
  function Scan<Item, W>(apps: map<string, App>, reg: map<string, ResourceManager<Item, W>>,
                         order: seq<string>, w: W): (r: ScanResult)
    requires ChangeSets.Enumerates(order, reg.Keys)
    ensures r.apps == AddAll(apps, Discover(reg, order, w).entries)
    ensures r.err == Discover(reg, order, w).err
    ensures r.err.None? <==> forall k :: k in reg ==> KindEntries(reg[k], w).Ok?
    ensures r.err.Some? ==> exists i :: FailsFirstAt(reg, order, w, i, r.err.value)
                                        && r.apps == AddAll(apps, Folds.Concat(KindOutput(reg, w), order[..i]))
  {
    ScanFrom(apps, reg, order, w)
  }

  /** Entries none of which is of kind `kind` fill no list of that kind. */
  lemma {:induction false} SelectOtherKind(entries: seq<Entry>, a: string, id: ImageIdentifier, kind: string)
    requires forall i :: 0 <= i < |entries| ==> entries[i].kind != kind
    ensures Select(entries, a, id, kind) == []
    decreases |entries|
  {
    if |entries| > 0 {
      SelectOtherKind(entries[1..], a, id, kind);
    }
  }

  /** A discovery without error is the first kind's entries followed by
      the discovery over the rest. */
  lemma DiscoverFromCons<Item, W>(reg: map<string, ResourceManager<Item, W>>, order: seq<string>, w: W)
    requires |order| > 0 && forall i :: 0 <= i < |order| ==> order[i] in reg
    requires DiscoverFrom(reg, order, w).err.None?
    ensures KindEntries(reg[order[0]], w).Ok?
    ensures DiscoverFrom(reg, order[1..], w).err.None?
    ensures DiscoverFrom(reg, order, w).entries
            == KindEntries(reg[order[0]], w).value + DiscoverFrom(reg, order[1..], w).entries
  {
  }

  /** Every entry a manager yields carries the manager's kind. */
  lemma KindEntriesTagged<Item, W>(rm: ResourceManager<Item, W>, w: W)
    requires KindEntries(rm, w).Ok?
    ensures forall i :: 0 <= i < |KindEntries(rm, w).value| ==> KindEntries(rm, w).value[i].kind == rm.kind
  {
  }

  /** The tail of a list without repeats has none either, and lacks the head. */
  lemma TailDistinct(order: seq<string>)
    requires |order| > 0
    requires forall i, j :: 0 <= i < j < |order| ==> order[i] != order[j]
    ensures forall i, j :: 0 <= i < j < |order[1..]| ==> order[1..][i] != order[1..][j]
    ensures order[0] !in order[1..]
    ensures forall x :: x in order <==> x == order[0] || x in order[1..]
  {
    assert order == [order[0]] + order[1..];
  }

  /** With managers filed under their own kinds, the entries of kind `kind`
      that a discovery over distinct kinds finds are those of the manager
      for `kind` alone, wherever it comes in the order. */
  lemma {:induction false} DiscoverFromSelect<Item, W>(reg: map<string, ResourceManager<Item, W>>, order: seq<string>, w: W,
                                                       a: string, id: ImageIdentifier, kind: string)
    requires forall i :: 0 <= i < |order| ==> order[i] in reg
    requires forall i, j :: 0 <= i < j < |order| ==> order[i] != order[j]
    requires Managers.KeyedByKind(reg)
    requires DiscoverFrom(reg, order, w).err.None?
    ensures Select(DiscoverFrom(reg, order, w).entries, a, id, kind)
            == if kind in order then Select(KindEntries(reg[kind], w).value, a, id, kind) else []
    decreases |order|
  {
    if |order| > 0 {
      var k := order[0];
      var rest := order[1..];
      DiscoverFromCons(reg, order, w);
      var es := KindEntries(reg[k], w).value;
      var restEntries := DiscoverFrom(reg, rest, w).entries;
      TailDistinct(order);
      DiscoverFromSelect(reg, rest, w, a, id, kind);
      Folds.ConcatAppend(Picker(a, id, kind), es, restEntries);
      if k != kind {
        assert reg[k].kind == k;
        KindEntriesTagged(reg[k], w);
        SelectOtherKind(es, a, id, kind);
      }
    }
  }

  /** A discovery over the whole registry finds, for each kind, the entries
      of that kind's manager, whatever the iteration order. */
  lemma DiscoverSelect<Item, W>(reg: map<string, ResourceManager<Item, W>>, order: seq<string>, w: W,
                                a: string, id: ImageIdentifier, kind: string)
    requires ChangeSets.Enumerates(order, reg.Keys) && Managers.KeyedByKind(reg)
    requires Discover(reg, order, w).err.None?
    ensures Select(Discover(reg, order, w).entries, a, id, kind)
            == if kind in reg then Select(KindEntries(reg[kind], w).value, a, id, kind) else []
  {
    DiscoverFromSelect(reg, order, w, a, id, kind);
  }

  /** A scan adds to what is already there: every list of the applications
      before the scan is a prefix of the same list after it. */
  lemma ScanKeepsExisting<Item, W>(apps: map<string, App>, reg: map<string, ResourceManager<Item, W>>,
                                   order: seq<string>, w: W, a: string, id: ImageIdentifier, kind: string)
    requires ChangeSets.Enumerates(order, reg.Keys)
    ensures ListOf(apps, a, id, kind) <= ListOf(Scan(apps, reg, order, w).apps, a, id, kind)
  {
    AddAllLists(apps, Discover(reg, order, w).entries, a, id, kind);
  }

  /** Scanning an unchanged cluster twice lists every container twice: when
      the first scan succeeds, whatever order the map iteration picks each
      time; otherwise when both visit the kinds in the same order. */
  lemma ScanTwiceDuplicates<Item, W>(apps: map<string, App>, reg: map<string, ResourceManager<Item, W>>,
                                     order1: seq<string>, order2: seq<string>, w: W,
                                     a: string, id: ImageIdentifier, kind: string)
    requires ChangeSets.Enumerates(order1, reg.Keys) && ChangeSets.Enumerates(order2, reg.Keys)
    requires Managers.KeyedByKind(reg)
    ensures var once := Scan(apps, reg, order1, w);
            var found := Select(Discover(reg, order1, w).entries, a, id, kind);
            once.err.None? || order1 == order2 ==>
              ListOf(Scan(once.apps, reg, order2, w).apps, a, id, kind) == ListOf(apps, a, id, kind) + found + found
  {
    var once := Scan(apps, reg, order1, w);
    AddAllLists(apps, Discover(reg, order1, w).entries, a, id, kind);
    AddAllLists(once.apps, Discover(reg, order2, w).entries, a, id, kind);
    if once.err.None? {
      DiscoverSelect(reg, order1, w, a, id, kind);
      DiscoverSelect(reg, order2, w, a, id, kind);
    }
  }

  /** A scan keeps applications filed under their names and change sets
      under their images. */
  lemma ScanWellFormed<Item, W>(apps: map<string, App>, reg: map<string, ResourceManager<Item, W>>,
                                order: seq<string>, w: W)
    requires ChangeSets.Enumerates(order, reg.Keys)
    requires WellFormed(apps)
    ensures WellFormed(Scan(apps, reg, order, w).apps)
  {
    AddAllWellFormed(apps, Discover(reg, order, w).entries);
  }
}
