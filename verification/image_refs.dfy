/** The image-reference splitting that every generation of the tool performs:
    `[registry/]repo[:tag]`, split first on '/' and then, in the last segment,
    on ':'. Each generation wraps it in its own parser and result type. */
module ImageRefs {
  import opened Wrappers
  import opened Strs

  /** The three parts of an image reference. */
  datatype Ref = Ref(registry: string, repo: string, version: string)

  /** The tag named by a last segment: the text after its ':' when it has
      exactly one, and "latest" when it has none or several. */
  function TagOf(segment: string): string
  {
    if Count(segment, ':') == 1 then AfterFirst(segment, ':') else "latest"
  }

  /** The segment that carries repository and tag: the text after the '/', or
      the whole reference when it has no '/'. */
  function LastSegment(url: string): string
  {
    if '/' in url then AfterFirst(url, '/') else url
  }

  /** The first piece of a split is the text before the first separator;
      there are exactly two pieces when the separator occurs once, and the
      second is then the text after it. */
  lemma SplitPieces(s: string, sep: char)
    ensures Split(s, sep)[0] == Before(s, sep)
    ensures |Split(s, sep)| == Count(s, sep) + 1
    ensures |Split(s, sep)| == 1 <==> sep !in s
    ensures |Split(s, sep)| == 2 <==> Count(s, sep) == 1
    ensures |Split(s, sep)| == 2 ==> Split(s, sep)[1] == AfterFirst(s, sep)
  {
    SplitLength(s, sep);
    SplitShape(s, sep);
    CountZero(s, sep);
    if Count(s, sep) == 1 {
      var tail := AfterFirst(s, sep);
      SplitLength(tail, sep);
      CountZero(tail, sep);
      SplitShape(tail, sep);
    }
  }

  /** Splits `url` as the parsers do: registry = the first '/'-segment, repo =
      the last segment up to its first ':', tag = `TagOf` the last segment; two
      or more '/' make the source panic. */
  function SplitRef(url: string): (r: Result<Ref>)
    ensures r.Err? <==> Count(url, '/') >= 2
    ensures r.Err? ==> r.error == TooManySlashes
    ensures r.Ok? ==> r.value == Ref(Before(url, '/'), Before(LastSegment(url), ':'), TagOf(LastSegment(url)))
  {
    var p1 := Split(url, '/');
    SplitPieces(url, '/');
    if |p1| > 2 then Err(TooManySlashes)
    else
      var segment := if |p1| == 1 then p1[0] else p1[1];
      assert segment == LastSegment(url);
      var p2 := Split(segment, ':');
      SplitPieces(segment, ':');
      Ok(Ref(p1[0], p2[0], if |p2| == 2 then p2[1] else "latest"))
  }

  /** Splitting the reference `registry/repo:version` gives back its parts when
      none of them contains '/' and neither repo nor version contains ':'. */
  lemma SplitRefRoundTrip(registry: string, repo: string, version: string)
    requires '/' !in registry && '/' !in repo && '/' !in version
    requires ':' !in repo && ':' !in version
    ensures SplitRef(registry + "/" + repo + ":" + version) == Ok(Ref(registry, repo, version))
  {
    var rest := repo + [':'] + version;
    var url := registry + ['/'] + rest;
    assert registry + "/" + repo + ":" + version == url;
    assert Count(url, '/') == 0 + 1 + 0 by {
      CountZero(registry, '/');
      CountZero(rest, '/');
      CountConcat(registry, ['/'], '/');
      CountConcat(registry + ['/'], rest, '/');
    }
    assert LastSegment(url) == rest by {
      assert url[|registry|] == '/';
      CutAtFirst(registry, '/', rest);
    }
    assert Before(url, '/') == registry by {
      CutAtFirst(registry, '/', rest);
    }
    assert Count(rest, ':') == 1 by {
      CountZero(repo, ':');
      CountZero(version, ':');
      CountConcat(repo, [':'], ':');
      CountConcat(repo + [':'], version, ':');
    }
    CutAtFirst(repo, ':', version);
  }
}
