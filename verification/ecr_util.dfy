/** Choosing the newest tag of a repository (pkg/ecr/util.go). */
module EcrUtil {
  import opened Wrappers
  import Strs
  import Semver

  /** A tag together with the version it parses to. */
  datatype Parsed = Parsed(tag: string, version: Semver.Version)

  /** The chosen tag, and the caller's slice as it is left afterwards (the
      fallback path sorts it in place). */
  datatype Latest = Latest(tag: string, slice: seq<string>)

  /** Some tag of `vs` parses as a semantic version. */
  ghost predicate AnySemver(parse: string -> Option<Semver.Version>, vs: seq<string>)
  {
    exists i :: 0 <= i < |vs| && parse(vs[i]).Some?
  }

  /** The tag of greatest precedence among those of `vs` that parse. The sort
      the source uses is not stable, so which of several equal-precedence tags
      wins is unspecified there; this model lets the later one win. */
  function GreatestSemver(parse: string -> Option<Semver.Version>, vs: seq<string>): (r: Option<Parsed>)
    ensures r.None? <==> !AnySemver(parse, vs)
    ensures r.Some? ==> r.value.tag in vs && parse(r.value.tag) == Some(r.value.version)
    ensures r.Some? ==> forall i :: 0 <= i < |vs| && parse(vs[i]).Some? ==>
                          Semver.Compare(parse(vs[i]).value, r.value.version) <= 0
    decreases |vs|
  {
    if |vs| == 0 then None
    else
      var init := vs[..|vs| - 1];
      var last := vs[|vs| - 1];
      var rest := GreatestSemver(parse, init);
      assert forall i :: 0 <= i < |init| ==> vs[i] == init[i];
      match parse(last)
      case None => rest
      case Some(v) =>
        if rest.None? || Semver.Compare(rest.value.version, v) <= 0 then
          Semver.CompareProps(v, v);
          forall i | 0 <= i < |vs| - 1 && parse(vs[i]).Some?
            ensures Semver.Compare(parse(vs[i]).value, v) <= 0
          {
            Semver.CompareTransitive(parse(vs[i]).value, rest.value.version, v);
          }
          Some(Parsed(last, v))
        else
          Semver.CompareProps(rest.value.version, v);
          rest
  }

  /** `latestVersion`: "" for no tags; otherwise the original spelling of the
      semver-greatest tag when any tag parses, and the lexically greatest tag
      (after sorting the caller's slice) when none does. */
  function LatestVersion(parse: string -> Option<Semver.Version>, versions: seq<string>): (r: Latest)
    ensures |versions| == 0 ==> r.tag == "" && r.slice == versions
    ensures |versions| > 0 ==> r.tag in versions
    ensures AnySemver(parse, versions) ==>
              && r.slice == versions
              && parse(r.tag).Some?
              && forall i :: 0 <= i < |versions| && parse(versions[i]).Some? ==>
                   Semver.Compare(parse(versions[i]).value, parse(r.tag).value) <= 0
    ensures !AnySemver(parse, versions) && |versions| > 0 ==>
              forall i :: 0 <= i < |versions| ==> Strs.LexLe(versions[i], r.tag)
    ensures !AnySemver(parse, versions) ==>
              Strs.Sorted(r.slice) && multiset(r.slice) == multiset(versions)
  {
    if |versions| == 0 then Latest("", versions)
    else
      match GreatestSemver(parse, versions)
      case Some(p) => Latest(p.tag, versions)
      case None =>
        var sorted := Strs.SortStrings(versions);
        assert |sorted| == |versions| by {
          assert |multiset(sorted)| == |multiset(versions)|;
        }
        var top := sorted[|sorted| - 1];
        Strs.SortedLastIsMax(sorted);
        assert top in multiset(versions);
        forall i | 0 <= i < |versions|
          ensures Strs.LexLe(versions[i], top)
        {
          assert versions[i] in multiset(sorted);
        }
        Latest(top, sorted)
  }

  /** The chosen version does not depend on the order of the tags: any
      reordering picks a tag of the same precedence (so the same parsed
      version) on the semver path, and the very same tag on the fallback. */
  lemma LatestIgnoresOrder(parse: string -> Option<Semver.Version>, p: seq<string>, q: seq<string>)
    requires multiset(p) == multiset(q)
    ensures AnySemver(parse, p) <==> AnySemver(parse, q)
    ensures AnySemver(parse, p) ==> parse(LatestVersion(parse, p).tag) == parse(LatestVersion(parse, q).tag)
    ensures !AnySemver(parse, p) ==> LatestVersion(parse, p).tag == LatestVersion(parse, q).tag
  {
    forall x ensures x in p <==> x in q {
      assert x in p <==> x in multiset(p);
      assert x in q <==> x in multiset(q);
    }
    if AnySemver(parse, p) {
      var i :| 0 <= i < |p| && parse(p[i]).Some?;
      assert p[i] in q;
    }
    if AnySemver(parse, q) {
      var i :| 0 <= i < |q| && parse(q[i]).Some?;
      assert q[i] in p;
    }
    var a := LatestVersion(parse, p).tag;
    var b := LatestVersion(parse, q).tag;
    if |p| > 0 {
      assert |q| > 0 by { assert p[0] in q; }
      var ia :| 0 <= ia < |q| && q[ia] == a;
      var ib :| 0 <= ib < |p| && p[ib] == b;
      if AnySemver(parse, p) {
        Semver.CompareProps(parse(a).value, parse(b).value);
      } else {
        Strs.LexLeAntisymmetric(a, b);
      }
    } else {
      assert |q| == 0 by {
        assert |multiset(q)| == |multiset(p)|;
      }
    }
  }
}
