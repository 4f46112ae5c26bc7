/** Change sets of the current engine (pkg/apps/changeset.go): adding
    containers, listing the versions in use, deciding whether an upgrade is
    needed, and dispatching the upgrade to each kind's manager. */
module ChangeSets {
  import opened Wrappers
  import opened AppsTypes
  import Strs
  import Semver
  import ImageRefs

  /** A change set for `id` with no containers, no target and no upgrade due. */
  function NewChangeSet(id: ImageIdentifier): (cs: ChangeSet)
    ensures cs.imageId == id && !cs.needsUpdate && cs.updateTo == ""
    ensures InUse(cs) == {}
  {
    ChangeSet(id, false, "", map[])
  }

  /** Every version string some container of `cs` currently runs. */
  function InUse(cs: ChangeSet): set<string>
  {
    set kind, c | kind in cs.containers && c in cs.containers[kind] :: c.current
  }

  /** The containers of kind `kind` (none when the kind is absent). */
  function KindList(cs: ChangeSet, kind: string): seq<Container>
  {
    if kind in cs.containers then cs.containers[kind] else []
  }

  /** Appends `c` to the list of kind `kind`, creating the list if needed. */
  function AddContainer(cs: ChangeSet, kind: string, c: Container): (r: ChangeSet)
    ensures r.imageId == cs.imageId && r.needsUpdate == cs.needsUpdate && r.updateTo == cs.updateTo
    ensures r.containers.Keys == cs.containers.Keys + {kind}
    ensures r.containers[kind] == KindList(cs, kind) + [c]
  {
    cs.(containers := cs.containers[kind := KindList(cs, kind) + [c]])
  }

  /** Adding a container appends it to its kind's list and to no other. */
  lemma AddContainerKindList(cs: ChangeSet, kind: string, c: Container, k: string)
    ensures KindList(AddContainer(cs, kind, c), k) == KindList(cs, k) + (if k == kind then [c] else [])
  {
  }

  /** Adding a container adds its version to the versions in use. */
  lemma AddContainerInUse(cs: ChangeSet, kind: string, c: Container)
    ensures InUse(AddContainer(cs, kind, c)) == InUse(cs) + {c.current}
  {
    var r := AddContainer(cs, kind, c);
    assert c in r.containers[kind];
    forall v | v in InUse(r)
      ensures v in InUse(cs) + {c.current}
    {
      var k, x :| k in r.containers && x in r.containers[k] && x.current == v;
      if k != kind {
        assert x in cs.containers[k];
      } else if x != c {
        assert x in KindList(cs, kind);
      }
    }
  }

  /** The versions in use, each once, in ascending string order. */
  method Versions(cs: ChangeSet) returns (vs: seq<string>)
    ensures forall v :: v in vs <==> v in InUse(cs)
    ensures Strs.StrictlySorted(vs)
  {
    vs := Strs.SortedElements(InUse(cs));
  }

  /** Whether a container at version `v` calls for an upgrade to `target`: by
      string inequality when the target is not a semantic version; otherwise
      when `v` is not one either, or has lower precedence. */
  predicate Demands(parse: string -> Option<Semver.Version>, target: string, v: string)
  {
    match parse(target)
    case None => v != target
    case Some(t) => parse(v).None? || Semver.Compare(parse(v).value, t) < 0
  }

  /** The change set after `SetLatest(version)`: the target is replaced, and
      the flag is raised when some version in use demands the upgrade; a flag
      already raised stays raised. */
  ghost function Updated(cs: ChangeSet, parse: string -> Option<Semver.Version>, version: string): ChangeSet
  {
    cs.(updateTo := version,
        needsUpdate := cs.needsUpdate || exists v :: v in InUse(cs) && Demands(parse, version, v))
  }

  /** Records `version` as the target and flags the change set when a
      container needs it, scanning the versions in use as the source does. */
  method SetLatest(cs: ChangeSet, parse: string -> Option<Semver.Version>, version: string) returns (r: ChangeSet)
    ensures r == Updated(cs, parse, version)
    ensures r.updateTo == version && r.imageId == cs.imageId && r.containers == cs.containers
    ensures cs.needsUpdate ==> r.needsUpdate
    ensures InUse(cs) == {} ==> r.needsUpdate == cs.needsUpdate
    ensures parse(version).None? ==>
              (r.needsUpdate <==> cs.needsUpdate || exists v :: v in InUse(cs) && v != version)
    ensures (parse(version).Some? &&
             exists v :: v in InUse(cs) &&
               (parse(v).None? || Semver.Compare(parse(v).value, parse(version).value) < 0))
            ==> r.needsUpdate
    ensures (parse(version).Some? &&
             forall v :: v in InUse(cs) ==>
               parse(v).Some? && Semver.Compare(parse(v).value, parse(version).value) >= 0)
            ==> r.needsUpdate == cs.needsUpdate
  {
    r := cs.(updateTo := version);
    var versions := Versions(cs);
    var target := parse(version);
    if target.None? {
      var i := 0;
      while i < |versions|
        invariant 0 <= i <= |versions|
        invariant forall j :: 0 <= j < i ==> versions[j] == version
      {
        if versions[i] != version {
          assert versions[i] in InUse(cs) && Demands(parse, version, versions[i]);
          r := r.(needsUpdate := true);
          return;
        }
        i := i + 1;
      }
      assert forall v :: v in InUse(cs) ==> !Demands(parse, version, v);
    } else {
      var i := 0;
      while i < |versions|
        invariant 0 <= i <= |versions|
        invariant forall j :: 0 <= j < i ==> !Demands(parse, version, versions[j])
      {
        var current := parse(versions[i]);
        if current.None? {
          assert versions[i] in InUse(cs) && Demands(parse, version, versions[i]);
          r := r.(needsUpdate := true);
          return;
        }
        if Semver.Compare(current.value, target.value) < 0 {
          assert versions[i] in InUse(cs) && Demands(parse, version, versions[i]);
          r := r.(needsUpdate := true);
          return;
        }
        i := i + 1;
      }
      assert forall v :: v in InUse(cs) ==> !Demands(parse, version, v);
    }
  }

  /** The full image reference every container of `cs` is moved to. When no
      part holds a '/' and neither repository nor target a ':', the split
      the parsers use gives the three parts back. */
  function RegistryPath(cs: ChangeSet): (r: string)
    ensures && '/' !in cs.imageId.registry && '/' !in cs.imageId.repo && '/' !in cs.updateTo
            && ':' !in cs.imageId.repo && ':' !in cs.updateTo
            ==> ImageRefs.SplitRef(r) == Ok(ImageRefs.Ref(cs.imageId.registry, cs.imageId.repo, cs.updateTo))
  {
    var r := cs.imageId.registry + "/" + cs.imageId.repo + ":" + cs.updateTo;
    assert && '/' !in cs.imageId.registry && '/' !in cs.imageId.repo && '/' !in cs.updateTo
           && ':' !in cs.imageId.repo && ':' !in cs.updateTo
           ==> ImageRefs.SplitRef(r) == Ok(ImageRefs.Ref(cs.imageId.registry, cs.imageId.repo, cs.updateTo)) by {
      if && '/' !in cs.imageId.registry && '/' !in cs.imageId.repo && '/' !in cs.updateTo
         && ':' !in cs.imageId.repo && ':' !in cs.updateTo {
        ImageRefs.SplitRefRoundTrip(cs.imageId.registry, cs.imageId.repo, cs.updateTo);
      }
    }
    r
  }

  /** One container to upgrade, with the kind whose manager handles it. */
  datatype Target = Target(kind: string, container: Container)

  /** One call of a manager's upgrade operation: what it was for, the cluster
      state before and after, and the error it returned. */
  datatype Call<!W> = Call(target: Target, before: W, after: W, outcome: Option<Error>)

  /** The cluster state after an upgrade run, its error, and the calls made. */
  datatype UpgradeRun<!W> = UpgradeRun(world: W, err: Option<Error>, calls: seq<Call<W>>)

  /** The targets of `cs`: kind by kind in `order`, each kind's list in order. */
  function Work(cs: ChangeSet, order: seq<string>): (work: seq<Target>)
    requires forall i :: 0 <= i < |order| ==> order[i] in cs.containers
  {
    if |order| == 0 then []
    else
      var list := cs.containers[order[0]];
      seq(|list|, i requires 0 <= i < |list| => Target(order[0], list[i])) + Work(cs, order[1..])
  }

  /** `order` lists every key of a map exactly once, as Go's map range does. */
  ghost predicate Enumerates(order: seq<string>, keys: set<string>)
  {
    && (forall i, j :: 0 <= i < j < |order| ==> order[i] != order[j])
    && (forall k :: k in keys <==> k in order)
  }

  /** The call was made through the manager registered for its kind. */
  ghost predicate Dispatched<Item, W>(call: Call<W>, cs: ChangeSet, managers: map<string, ResourceManager<Item, W>>)
  {
    && call.target.kind in managers
    && managers[call.target.kind].upgrade(call.before, cs, call.target.container) == (call.after, call.outcome)
  }

  /** The calls of `run` went to the first targets of `work`, in order, each
      through its kind's manager. */
  ghost predicate FollowsWork<Item, W>(run: UpgradeRun<W>, cs: ChangeSet,
                                       managers: map<string, ResourceManager<Item, W>>, work: seq<Target>)
  {
    && |run.calls| <= |work|
    && (forall i :: 0 <= i < |run.calls| ==> run.calls[i].target == work[i] && Dispatched(run.calls[i], cs, managers))
  }

  /** Each call starts in the state the previous one left, the first in `w`,
      and the run ends in the state the last call left. */
  ghost predicate Threaded<W>(run: UpgradeRun<W>, w: W)
  {
    var n := |run.calls|;
    && (n == 0 ==> run.world == w)
    && (n > 0 ==> run.calls[0].before == w && run.world == run.calls[n - 1].after)
    && (forall i :: 0 < i < n ==> run.calls[i].before == run.calls[i - 1].after)
  }

  /** Every call but the last succeeded; the run fails with the last call's
      error, or with a nil dereference at the next target when its kind has no
      manager; without an error every target was done. */
  ghost predicate StopsAtError<Item, W>(run: UpgradeRun<W>, managers: map<string, ResourceManager<Item, W>>,
                                        work: seq<Target>)
  {
    var n := |run.calls|;
    && (forall i :: 0 <= i < n - 1 ==> run.calls[i].outcome.None?)
    && (n > 0 && run.calls[n - 1].outcome.Some? ==> run.err == run.calls[n - 1].outcome)
    && (run.err.None? ==> n == |work| && (n > 0 ==> run.calls[n - 1].outcome.None?))
    && (run.err.Some? && (n == 0 || run.calls[n - 1].outcome.None?) ==>
          run.err == Some(NilDereference) && n < |work| && work[n].kind !in managers)
  }

  /** `run` upgrades the targets of `work` in order, starting in state `w`,
      threading the cluster state from call to call, and stopping at the first
      error: a call that failed, or a kind with no registered manager (a nil
      dereference in the source). */
  ghost predicate StopsAtFirstError<Item, W>(run: UpgradeRun<W>, w: W, cs: ChangeSet,
                                             managers: map<string, ResourceManager<Item, W>>, work: seq<Target>)
  {
    FollowsWork(run, cs, managers, work) && Threaded(run, w) && StopsAtError(run, managers, work)
  }

  /** A successful first call followed by a run over the remaining targets is
      a run over all of them. */
  lemma ConsCall<Item, W>(call: Call<W>, rest: UpgradeRun<W>, w: W, cs: ChangeSet,
                          managers: map<string, ResourceManager<Item, W>>, work: seq<Target>)
    requires |work| > 0 && call.target == work[0] && call.before == w && call.outcome.None?
    requires Dispatched(call, cs, managers)
    requires StopsAtFirstError(rest, call.after, cs, managers, work[1..])
    ensures StopsAtFirstError(UpgradeRun(rest.world, rest.err, [call] + rest.calls), w, cs, managers, work)
  {
    var r := UpgradeRun(rest.world, rest.err, [call] + rest.calls);
    assert forall i :: 0 < i < |r.calls| ==> r.calls[i] == rest.calls[i - 1];
    assert FollowsWork(r, cs, managers, work);
    assert Threaded(r, w);
    assert StopsAtError(r, managers, work);
  }

  /** Calls the manager of each target's kind on it, in order, stopping at the
      first error. */
  function RunTargets<Item, W>(cs: ChangeSet, managers: map<string, ResourceManager<Item, W>>,
                               work: seq<Target>, w: W): (r: UpgradeRun<W>)
    ensures StopsAtFirstError(r, w, cs, managers, work)
    decreases |work|
  {
    if |work| == 0 then UpgradeRun(w, None, [])
    else
      var t := work[0];
      if t.kind !in managers then UpgradeRun(w, Some(NilDereference), [])
      else
        var (w1, outcome) := managers[t.kind].upgrade(w, cs, t.container);
        var call := Call(t, w, w1, outcome);
        if outcome.Some? then UpgradeRun(w1, outcome, [call])
        else
          var rest := RunTargets(cs, managers, work[1..], w1);
          ConsCall(call, rest, w, cs, managers, work);
          UpgradeRun(rest.world, rest.err, [call] + rest.calls)
  }

  /** `ChangeSet.Upgrade`: every container of every kind, kinds in the map's
      iteration order `order`, stopping at the first error. */
  function Upgrade<Item, W>(cs: ChangeSet, managers: map<string, ResourceManager<Item, W>>,
                            order: seq<string>, w: W): (r: UpgradeRun<W>)
    requires Enumerates(order, cs.containers.Keys)
    ensures StopsAtFirstError(r, w, cs, managers, Work(cs, order))
  {
    RunTargets(cs, managers, Work(cs, order), w)
  }

  /** The work list holds every container of the change set under its kind. */
  lemma {:induction false} WorkCoversAll(cs: ChangeSet, order: seq<string>)
    requires forall i :: 0 <= i < |order| ==> order[i] in cs.containers
    ensures forall k, c :: k in order && c in cs.containers[k] ==> Target(k, c) in Work(cs, order)
    ensures forall t :: t in Work(cs, order) ==> t.kind in order && t.container in cs.containers[t.kind]
  {
    if |order| > 0 {
      WorkCoversAll(cs, order[1..]);
      var list := cs.containers[order[0]];
      var head := seq(|list|, i requires 0 <= i < |list| => Target(order[0], list[i]));
      assert Work(cs, order) == head + Work(cs, order[1..]);
      forall k, c | k in order && c in cs.containers[k]
        ensures Target(k, c) in Work(cs, order)
      {
        if k == order[0] {
          var i :| 0 <= i < |list| && list[i] == c;
          assert head[i] == Target(k, c);
        } else {
          assert k in order[1..];
        }
      }
    }
  }
}
