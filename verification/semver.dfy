/** Precedence of semantic versions, as set out in item 11 of Semantic
    Versioning 2.0.0. Turning a tag string into a `Version` (the lenient
    grammar of the semver library the tool links against) is not modelled:
    every operation that needs it takes the parser as a parameter
    `parse: string -> Option<Version>`. */
module Semver {
  import Strs

  /** One dot-separated pre-release identifier. */
  datatype Ident = Numeric(n: nat) | Alphanumeric(text: string)

  /** A parsed version. Build metadata plays no part in precedence (item 10)
      and is not kept. */
  datatype Version = Version(major: nat, minor: nat, patch: nat, pre: seq<Ident>)

  function CompareNat(a: nat, b: nat): int
  {
    if a < b then -1 else if a > b then 1 else 0
  }

  /** ASCII order of alphanumeric identifiers (item 11.4.2). */
  function CompareText(a: string, b: string): int
  {
    if a == b then 0 else if Strs.LexLe(a, b) then -1 else 1
  }

  /** Item 11.4.1-11.4.3: numeric identifiers compare numerically, textual ones
      in ASCII order, and a numeric identifier is below a textual one. */
  function CompareIdent(a: Ident, b: Ident): int
  {
    match (a, b)
    case (Numeric(x), Numeric(y)) => CompareNat(x, y)
    case (Numeric(_), Alphanumeric(_)) => -1
    case (Alphanumeric(_), Numeric(_)) => 1
    case (Alphanumeric(x), Alphanumeric(y)) => CompareText(x, y)
  }

  /** Item 11.4: identifiers left to right; when all shared ones are equal the
      longer list has the higher precedence (item 11.4.4). */
  function ComparePre(a: seq<Ident>, b: seq<Ident>): int
  {
    if |a| == 0 then (if |b| == 0 then 0 else -1)
    else if |b| == 0 then 1
    else if CompareIdent(a[0], b[0]) != 0 then CompareIdent(a[0], b[0])
    else ComparePre(a[1..], b[1..])
  }

  /** Item 11.2-11.3: major, minor and patch numerically; then a version without
      a pre-release is above one with a pre-release; then item 11.4.
      Negative means `a` has the lower precedence. */
  function Compare(a: Version, b: Version): int
  {
    if a.major != b.major then CompareNat(a.major, b.major)
    else if a.minor != b.minor then CompareNat(a.minor, b.minor)
    else if a.patch != b.patch then CompareNat(a.patch, b.patch)
    else if |a.pre| == 0 && |b.pre| == 0 then 0
    else if |a.pre| == 0 then 1
    else if |b.pre| == 0 then -1
    else ComparePre(a.pre, b.pre)
  }

  lemma CompareTextLe(a: string, b: string)
    ensures CompareText(a, b) <= 0 <==> Strs.LexLe(a, b)
    ensures CompareText(b, a) == -CompareText(a, b)
  {
    Strs.LexLeRefl(a);
    Strs.LexLeTotal(a, b);
    if Strs.LexLe(a, b) && Strs.LexLe(b, a) {
      Strs.LexLeAntisymmetric(a, b);
    }
  }

  lemma CompareIdentProps(a: Ident, b: Ident)
    ensures CompareIdent(b, a) == -CompareIdent(a, b)
    ensures CompareIdent(a, b) == 0 <==> a == b
  {
    if a.Alphanumeric? && b.Alphanumeric? {
      CompareTextLe(a.text, b.text);
    }
  }

  lemma CompareIdentTransitive(a: Ident, b: Ident, c: Ident)
    requires CompareIdent(a, b) <= 0 && CompareIdent(b, c) <= 0
    ensures CompareIdent(a, c) <= 0
  {
    if a.Alphanumeric? && b.Alphanumeric? && c.Alphanumeric? {
      CompareTextLe(a.text, b.text);
      CompareTextLe(b.text, c.text);
      CompareTextLe(a.text, c.text);
      Strs.LexLeTransitive(a.text, b.text, c.text);
    }
  }

  lemma {:induction false} ComparePreProps(a: seq<Ident>, b: seq<Ident>)
    ensures ComparePre(b, a) == -ComparePre(a, b)
    ensures ComparePre(a, b) == 0 <==> a == b
  {
    if |a| > 0 && |b| > 0 {
      CompareIdentProps(a[0], b[0]);
      ComparePreProps(a[1..], b[1..]);
      assert a == [a[0]] + a[1..] && b == [b[0]] + b[1..];
    }
  }

  lemma {:induction false} ComparePreTransitive(a: seq<Ident>, b: seq<Ident>, c: seq<Ident>)
    requires ComparePre(a, b) <= 0 && ComparePre(b, c) <= 0
    ensures ComparePre(a, c) <= 0
  {
    if |a| > 0 && |b| > 0 && |c| > 0 {
      CompareIdentTransitive(a[0], b[0], c[0]);
      CompareIdentProps(a[0], b[0]);
      CompareIdentProps(b[0], c[0]);
      CompareIdentProps(a[0], c[0]);
      if CompareIdent(a[0], c[0]) == 0 {
        ComparePreTransitive(a[1..], b[1..], c[1..]);
      }
    }
  }

  /** Precedence is antisymmetric, and two versions have equal precedence
      exactly when they are the same version. */
  lemma CompareProps(a: Version, b: Version)
    ensures Compare(b, a) == -Compare(a, b)
    ensures Compare(a, b) == 0 <==> a == b
    ensures -1 <= Compare(a, b) <= 1
  {
    ComparePreProps(a.pre, b.pre);
    ComparePreBounded(a.pre, b.pre);
  }

  lemma {:induction false} ComparePreBounded(a: seq<Ident>, b: seq<Ident>)
    ensures -1 <= ComparePre(a, b) <= 1
  {
    if |a| > 0 && |b| > 0 {
      CompareIdentProps(a[0], b[0]);
      if a[0].Alphanumeric? && b[0].Alphanumeric? {
        CompareTextLe(a[0].text, b[0].text);
      }
      ComparePreBounded(a[1..], b[1..]);
    }
  }

  /** Precedence is transitive. */
  lemma CompareTransitive(a: Version, b: Version, c: Version)
    requires Compare(a, b) <= 0 && Compare(b, c) <= 0
    ensures Compare(a, c) <= 0
  {
    if a.major == b.major == c.major && a.minor == b.minor == c.minor && a.patch == b.patch == c.patch
       && |a.pre| > 0 && |b.pre| > 0 && |c.pre| > 0 {
      ComparePreTransitive(a.pre, b.pre, c.pre);
    }
  }

  /** A strict step followed by a weak one is strict. */
  lemma CompareStrictTransitive(a: Version, b: Version, c: Version)
    requires Compare(a, b) < 0 && Compare(b, c) <= 0
    ensures Compare(a, c) < 0
  {
    CompareTransitive(a, b, c);
    CompareProps(a, c);
    CompareProps(a, b);
  }
}
