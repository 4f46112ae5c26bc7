/** Left folds over sequences, for the loops that apply one step per element
    ("for _, x := range xs { s = step(s, x) }"), with the facts the model
    needs about them proved once for any step. */
module Folds {
  import Wrappers

  /** Applies `f` to the state and each element in turn. */
  function Fold<S, E>(f: (S, E) -> S, s: S, es: seq<E>): S
    decreases |es|
  {
    if |es| == 0 then s else Fold(f, f(s, es[0]), es[1..])
  }

  /** The outputs `out(e)` of every element, concatenated in order. */
  function Concat<E, T>(out: E -> seq<T>, es: seq<E>): (r: seq<T>)
    ensures |es| == 0 ==> r == []
    decreases |es|
  {
    if |es| == 0 then [] else out(es[0]) + Concat(out, es[1..])
  }

  /** The output of a step that appends nothing. */
  function Nothing<E, T>(e: E): seq<T>
  {
    []
  }

  /** Steps that append nothing append nothing in total. */
  lemma {:induction false} ConcatOfNothing<E, T>(es: seq<E>)
    ensures Concat(Nothing<E, T>, es) == []
    decreases |es|
  {
    if |es| > 0 {
      ConcatOfNothing<E, T>(es[1..]);
    }
  }

  /** The outputs of two pieces are those of each, in order. */
  lemma {:induction false} ConcatAppend<E, T>(out: E -> seq<T>, e1: seq<E>, e2: seq<E>)
    ensures Concat(out, e1 + e2) == Concat(out, e1) + Concat(out, e2)
    decreases |e1|
  {
    if |e1| > 0 {
      assert (e1 + e2)[1..] == e1[1..] + e2;
      ConcatAppend(out, e1[1..], e2);
    } else {
      assert e1 + e2 == e2;
    }
  }

  /** The output of one element sits, in place, between the outputs of the
      elements before it and those after it. */
  lemma ConcatSplit<E, T>(out: E -> seq<T>, es: seq<E>, i: nat)
    requires i < |es|
    ensures Concat(out, es) == Concat(out, es[..i]) + out(es[i]) + Concat(out, es[i + 1..])
  {
    assert es == es[..i] + es[i..];
    ConcatAppend(out, es[..i], es[i..]);
    assert es[i..][1..] == es[i + 1..];
  }

  /** `r` is `s` with some elements left out, the rest in order. */
  ghost predicate SubsequenceOf<T>(r: seq<T>, s: seq<T>)
    decreases |s|
  {
    if |r| == 0 then true
    else if |s| == 0 then false
    else (r[0] == s[0] && SubsequenceOf(r[1..], s[1..])) || SubsequenceOf(r, s[1..])
  }

  /** Folding over two pieces one after the other is folding over both. */
  lemma {:induction false} FoldConcat<S, E>(f: (S, E) -> S, s: S, e1: seq<E>, e2: seq<E>)
    ensures Fold(f, Fold(f, s, e1), e2) == Fold(f, s, e1 + e2)
    decreases |e1|
  {
    if |e1| > 0 {
      assert (e1 + e2)[1..] == e1[1..] + e2;
      FoldConcat(f, f(s, e1[0]), e1[1..], e2);
    } else {
      assert e1 + e2 == e2;
    }
  }

  /** A property every step preserves holds after the fold. */
  lemma {:induction false} FoldInvariant<S, E>(f: (S, E) -> S, inv: S -> bool, s: S, es: seq<E>)
    requires inv(s)
    requires forall s', e :: inv(s') ==> inv(f(s', e))
    ensures inv(Fold(f, s, es))
    decreases |es|
  {
    if |es| > 0 {
      FoldInvariant(f, inv, f(s, es[0]), es[1..]);
    }
  }

  /** When every step appends `out(e)` to the observed sequence `view`, the
      fold appends the outputs of all elements, in order. */
  lemma FoldAppends<S, E, T>(f: (S, E) -> S, view: S -> seq<T>, out: E -> seq<T>, s: S, es: seq<E>)
    requires forall s', e :: view(f(s', e)) == view(s') + out(e)
    ensures view(Fold(f, s, es)) == view(s) + Concat(out, es)
  {
    FoldAppendsUnder(f, _ => true, view, out, s, es);
  }

  /** The same, for steps that append as described only from states with
      property `inv`, and keep it. */
  lemma {:induction false} FoldAppendsUnder<S, E, T>(f: (S, E) -> S, inv: S -> bool, view: S -> seq<T>,
                                                     out: E -> seq<T>, s: S, es: seq<E>)
    requires inv(s)
    requires forall s', e :: inv(s') ==> inv(f(s', e)) && view(f(s', e)) == view(s') + out(e)
    ensures view(Fold(f, s, es)) == view(s) + Concat(out, es)
    decreases |es|
  {
    if |es| > 0 {
      FoldAppendsUnder(f, inv, view, out, f(s, es[0]), es[1..]);
    }
  }

  /** When every step raises `measure` by `inc`, the fold raises it by
      `inc` per element. */
  lemma {:induction false} FoldCounts<S, E>(f: (S, E) -> S, measure: S -> nat, inc: nat, s: S, es: seq<E>)
    requires forall s', e :: measure(f(s', e)) == measure(s') + inc
    ensures measure(Fold(f, s, es)) == measure(s) + inc * |es|
    decreases |es|
  {
    if |es| > 0 {
      FoldCounts(f, measure, inc, f(s, es[0]), es[1..]);
    }
  }

  /** When every element has at most one output, each related to it by
      `from`, there are no more outputs than elements and each output is
      related to some element. */
  lemma {:induction false} ConcatFrom<E, T>(out: E -> seq<T>, from: (E, T) -> bool, es: seq<E>)
    requires forall e :: |out(e)| <= 1
    requires forall e, t :: t in out(e) ==> from(e, t)
    ensures |Concat(out, es)| <= |es|
    ensures forall k :: 0 <= k < |Concat(out, es)| ==> exists i :: 0 <= i < |es| && from(es[i], Concat(out, es)[k])
    decreases |es|
  {
    if |es| > 0 {
      ConcatFrom(out, from, es[1..]);
      var head := out(es[0]);
      var tail := Concat(out, es[1..]);
      forall k | 0 <= k < |head + tail|
        ensures exists i :: 0 <= i < |es| && from(es[i], (head + tail)[k])
      {
        if k < |head| {
          assert (head + tail)[k] in head;
          assert from(es[0], (head + tail)[k]);
        } else {
          assert (head + tail)[k] == tail[k - |head|];
          var i :| 0 <= i < |es[1..]| && from(es[1..][i], tail[k - |head|]);
          assert es[i + 1] == es[1..][i];
        }
      }
    }
  }

  /** Applies a fallible `f` to every element in order; the first failure
      ends the loop with its error (Go's "for ... { v, err := f(x); if err
      != nil { return nil, err }; out = append(out, v) }"). */
  function MapAll<A, B>(f: A -> Wrappers.Result<B>, s: seq<A>): (r: Wrappers.Result<seq<B>>)
    ensures r.Err? <==> exists i :: 0 <= i < |s| && f(s[i]).Err?
    ensures r.Err? ==> exists i :: 0 <= i < |s| && f(s[i]) == Wrappers.Err(r.error)
    ensures r.Ok? ==> |r.value| == |s|
    ensures r.Ok? ==> forall i :: 0 <= i < |s| ==> f(s[i]) == Wrappers.Ok(r.value[i])
    decreases |s|
  {
    if |s| == 0 then Wrappers.Ok([])
    else
      var rest := MapAll(f, s[1..]);
      assert forall i :: 1 <= i < |s| ==> s[i] == s[1..][i - 1];
      match f(s[0])
      case Err(e) => Wrappers.Err(e)
      case Ok(v) =>
        match rest
        case Err(e) =>
          assert exists i :: 0 <= i < |s| && f(s[i]) == Wrappers.Err(e) by {
            var i :| 0 <= i < |s[1..]| && f(s[1..][i]) == Wrappers.Err(e);
            assert s[i + 1] == s[1..][i];
          }
          Wrappers.Err(e)
        case Ok(vs) => Wrappers.Ok([v] + vs)
  }
}
