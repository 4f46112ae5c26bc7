/** The push progress display (pkg/ecr/push.go): each layer ID announced by
    the Docker push stream gets the next terminal line, and later messages
    for it are drawn in place by moving the cursor up and back down. */
module Progress {
  import Strs
  import Folds

  /** One decoded line of the push stream (its `ProgressDetail` map is not
      used by the display and is not kept). */
  datatype ProgressLine = ProgressLine(id: string, status: string, progress: string, error: string)

  /** `ProgressDisplay`: the line each known ID was given and the number of
      lines printed so far. */
  datatype Display = Display(bars: map<string, int>, lines: int)

  /** The display a push starts with. */
  const Empty: Display := Display(map[], 0)

  /** The text shown after the ID: the progress bar, or the status when
      there is no bar. */
  function Shown(data: ProgressLine): string
  {
    if data.progress == "" then data.status else data.progress
  }

  /** `formatProgress`: `ID: shown`. */
  function FormatProgress(data: ProgressLine): (r: string)
    ensures |r| == |data.id| + 2 + |Shown(data)|
    ensures r[..|data.id|] == data.id
    ensures r[|data.id|..|data.id| + 2] == ": "
    ensures r[|data.id| + 2..] == Shown(data)
  {
    data.id + ": " + Shown(data)
  }

  /** An ID without ':' can be read back from the formatted line, and so
      can the text shown after it. */
  lemma FormatProgressRoundTrip(data: ProgressLine)
    requires ':' !in data.id
    ensures Strs.Before(FormatProgress(data), ':') == data.id
    ensures Strs.AfterFirst(FormatProgress(data), ':') == " " + Shown(data)
  {
    assert FormatProgress(data) == data.id + [':'] + (" " + Shown(data));
    Strs.CutAtFirst(data.id, ':', " " + Shown(data));
  }

  /** The decimal digits of `n`, most significant first. */
  function Digits(n: nat): (r: string)
    ensures |r| > 0
    ensures forall k :: 0 <= k < |r| ==> '0' <= r[k] <= '9'
    decreases n
  {
    if n < 10 then [('0' as int + n) as char]
    else Digits(n / 10) + [('0' as int + n % 10) as char]
  }

  /** The value of a string of decimal digits. */
  function Value(s: string): int
    decreases |s|
  {
    if |s| == 0 then 0 else 10 * Value(s[..|s| - 1]) + (s[|s| - 1] as int - '0' as int)
  }

  /** Reading the digits back gives the number. */
  lemma {:induction false} DigitsValue(n: nat)
    ensures Value(Digits(n)) == n
    decreases n
  {
    if n >= 10 {
      DigitsValue(n / 10);
      var d := Digits(n);
      assert d[..|d| - 1] == Digits(n / 10);
    }
  }

  /** Go's `%d` of an int: a '-' before the digits of a negative number. */
  function Itoa(n: int): (r: string)
    ensures |r| > 0
    ensures n >= 0 ==> Value(r) == n
    ensures n < 0 ==> r[0] == '-' && Value(r[1..]) == -n
  {
    if n >= 0 then
      DigitsValue(n);
      Digits(n)
    else
      DigitsValue(-n);
      assert ("-" + Digits(-n))[1..] == Digits(-n);
      "-" + Digits(-n)
  }

  /** The terminal's escape character. */
  const Esc: char := 27 as char

  /** Move to the start of the line, then up `lineno` lines. */
  function MoveUp(lineno: int): string
  {
    [Esc] + "[1000D" + [Esc] + "[" + Itoa(lineno) + "A"
  }

  /** Move down `lineno` lines. */
  function MoveDown(lineno: int): string
  {
    [Esc] + "[" + Itoa(lineno) + "B"
  }

  /** `updateLine`: the upward move, the message, then the downward move. */
  function UpdateLine(lineno: int, message: string): (r: string)
    ensures |r| == |MoveUp(lineno)| + |message| + |MoveDown(lineno)|
    ensures r[..|MoveUp(lineno)|] == MoveUp(lineno)
    ensures r[|MoveUp(lineno)|..|MoveUp(lineno)| + |message|] == message
    ensures r[|MoveUp(lineno)| + |message|..] == MoveDown(lineno)
  {
    MoveUp(lineno) + message + MoveDown(lineno)
  }

  /** The moves of an update bring their own escape characters, two up and
      one down, and a redrawn line has no others besides the message's. */
  lemma UpdateLineEscapes(lineno: int, message: string)
    ensures Strs.Count(UpdateLine(lineno, message), Esc) == 3 + Strs.Count(message, Esc)
  {
    MoveEscapes(lineno);
    Strs.CountConcat(MoveUp(lineno), message, Esc);
    Strs.CountConcat(MoveUp(lineno) + message, MoveDown(lineno), Esc);
  }

  lemma MoveEscapes(lineno: int)
    ensures Strs.Count(MoveUp(lineno), Esc) == 2
    ensures Strs.Count(MoveDown(lineno), Esc) == 1
  {
    var n := Itoa(lineno);
    NoEscInNumber(lineno);
    Strs.CountZero("[1000D", Esc);
    Strs.CountZero("[", Esc);
    Strs.CountZero("A", Esc);
    Strs.CountZero("B", Esc);
    assert Strs.Count([Esc], Esc) == 1;
    Strs.CountConcat([Esc], "[1000D", Esc);
    Strs.CountConcat([Esc] + "[1000D", [Esc], Esc);
    Strs.CountConcat([Esc] + "[1000D" + [Esc], "[", Esc);
    Strs.CountConcat([Esc] + "[1000D" + [Esc] + "[", n, Esc);
    Strs.CountConcat([Esc] + "[1000D" + [Esc] + "[" + n, "A", Esc);
    Strs.CountConcat([Esc], "[", Esc);
    Strs.CountConcat([Esc] + "[", n, Esc);
    Strs.CountConcat([Esc] + "[" + n, "B", Esc);
  }

  lemma NoEscInNumber(n: int)
    ensures Strs.Count(Itoa(n), Esc) == 0
  {
    var s := Itoa(n);
    assert Esc !in s by {
      if n >= 0 {
        assert forall k :: 0 <= k < |s| ==> '0' <= s[k] <= '9';
      } else {
        var d := Digits(-n);
        assert s == "-" + d;
        assert forall k :: 0 <= k < |d| ==> '0' <= d[k] <= '9';
      }
    }
    Strs.CountZero(s, Esc);
  }

  /** The display after one message, and what it prints. */
  datatype Step = Step(display: Display, output: string)

  /** `ProgressDisplay.Update`: messages without an ID are ignored; a known
      ID has its line redrawn `lines - bars[id]` lines up; a new ID is given
      the next line, and printed on it. */
  function Update(d: Display, data: ProgressLine): (r: Step)
    ensures data.id == "" ==> r == Step(d, "")
    ensures data.id != "" && data.id in d.bars ==>
              r.display == d && r.output == UpdateLine(d.lines - d.bars[data.id], FormatProgress(data))
    ensures data.id != "" && data.id !in d.bars ==>
              && r.display.bars == d.bars[data.id := d.lines]
              && r.display.lines == d.lines + 1
              && r.output == data.id + "\n"
  {
    if data.id == "" then Step(d, "")
    else if data.id in d.bars then Step(d, UpdateLine(d.lines - d.bars[data.id], FormatProgress(data)))
    else Step(Display(d.bars[data.id := d.lines], d.lines + 1), data.id + "\n")
  }

  /** The display invariant: one line per known ID, and the IDs occupy the
      lines 0 .. lines-1, one each. */
  ghost predicate Wf(d: Display)
  {
    && d.lines == |d.bars|
    && (forall id :: id in d.bars ==> 0 <= d.bars[id] < d.lines)
    && (forall a, b :: a in d.bars && b in d.bars && a != b ==> d.bars[a] != d.bars[b])
  }

  lemma EmptyWf()
    ensures Wf(Empty)
  {
  }

  /** Every update keeps the invariant. */
  lemma UpdateWf(d: Display, data: ProgressLine)
    requires Wf(d)
    ensures Wf(Update(d, data).display)
  {
    if data.id != "" && data.id !in d.bars {
      assert (d.bars[data.id := d.lines]).Keys == d.bars.Keys + {data.id};
    }
  }

  /** Under the invariant, redrawing a known ID moves the cursor up between
      1 and `lines` lines: never below the bottom, never above the first. */
  lemma OffsetInRange(d: Display, id: string)
    requires Wf(d) && id in d.bars
    ensures 1 <= d.lines - d.bars[id] <= d.lines
  {
  }

  /** The display after each message of the stream in turn. */
  function Next(d: Display, data: ProgressLine): Display
  {
    Update(d, data).display
  }

  function Run(d: Display, stream: seq<ProgressLine>): Display
  {
    Folds.Fold(Next, d, stream)
  }

  /** The non-empty IDs of a stream. */
  function Ids(stream: seq<ProgressLine>): set<string>
  {
    set k | 0 <= k < |stream| && stream[k].id != "" :: stream[k].id
  }

  /** From the empty display, the invariant holds after any stream. */
  lemma RunWf(stream: seq<ProgressLine>)
    ensures Wf(Run(Empty, stream))
  {
    forall d, data | Wf(d)
      ensures Wf(Next(d, data))
    {
      UpdateWf(d, data);
    }
    Folds.FoldInvariant(Next, Wf, Empty, stream);
  }

  /** The IDs of a stream are those of its first message and of the rest. */
  lemma IdsCons(stream: seq<ProgressLine>)
    requires |stream| > 0
    ensures Ids(stream) == (if stream[0].id == "" then {} else {stream[0].id}) + Ids(stream[1..])
  {
    var first := if stream[0].id == "" then {} else {stream[0].id};
    forall x | x in Ids(stream)
      ensures x in first + Ids(stream[1..])
    {
      var k :| 0 <= k < |stream| && stream[k].id != "" && stream[k].id == x;
      if k > 0 {
        assert stream[1..][k - 1] == stream[k];
      }
    }
    forall x | x in Ids(stream[1..])
      ensures x in Ids(stream)
    {
      var k :| 0 <= k < |stream[1..]| && stream[1..][k].id != "" && stream[1..][k].id == x;
      assert stream[k + 1] == stream[1..][k];
    }
  }

  /** The known IDs are exactly the non-empty IDs seen, so the number of
      lines is the number of distinct IDs. */
  lemma {:induction false} RunKeys(d: Display, stream: seq<ProgressLine>)
    ensures Run(d, stream).bars.Keys == d.bars.Keys + Ids(stream)
    decreases |stream|
  {
    if |stream| > 0 {
      RunKeys(Next(d, stream[0]), stream[1..]);
      IdsCons(stream);
      assert Next(d, stream[0]).bars.Keys == d.bars.Keys + (if stream[0].id == "" then {} else {stream[0].id});
    }
  }

  /** A push stream draws one line per distinct layer ID. */
  lemma RunLines(stream: seq<ProgressLine>)
    ensures Run(Empty, stream).lines == |Ids(stream)|
  {
    RunWf(stream);
    RunKeys(Empty, stream);
    assert Run(Empty, stream).bars.Keys == Ids(stream);
  }
}
