// getDateFilters: the composite-period string, such as "0,3:3,6:6,9:9,12",
// becomes one date window per ':'-separated segment.  Each window is kept as
// its pair of month offsets from the base date; the ee.Filter.date built from
// base.advance(start, 'month') and base.advance(end, 'month') is not modelled.

module DateFilters {
  import opened Js

  /** The window [start, end) in months after the base date. */
  datatype Window = Window(start: Number, end: Number)

  /** One segment "a,b": field 0 gives the start, field 1 the end.  A
      segment without ',' has no field 1, and parseInt(undefined) is NaN. */
  function SegmentWindow(segment: string): Window
  {
    var sp := Split(segment, ',');
    Window(ParseInt(sp[0]), ParseIntField(if |sp| > 1 then Some(sp[1]) else None))
  }

  /** What getDateFilters returns: the windows of the segments, in order. */
  function Windows(intervals: string): seq<Window>
  {
    var segments := Split(intervals, ':');
    seq(|segments|, i requires 0 <= i < |segments| => SegmentWindow(segments[i]))
  }

  /** getDateFilters: fills an array with one window per segment. */
  method GetDateFilters(intervals: string) returns (windows: seq<Window>)
    ensures |windows| == Count(intervals, ':') + 1
    ensures windows == Windows(intervals)
  {
    var splTxt := Split(intervals, ':');
    var outArray := new Window[|splTxt|];
    var ii := 0;
    while ii < |splTxt|
      invariant 0 <= ii <= |splTxt| == outArray.Length
      invariant forall k :: 0 <= k < ii ==> outArray[k] == SegmentWindow(splTxt[k])
    {
      var sp := Split(splTxt[ii], ',');
      var start := ParseInt(sp[0]);
      var end := ParseIntField(if |sp| > 1 then Some(sp[1]) else None);
      outArray[ii] := Window(start, end);
      ii := ii + 1;
    }
    windows := outArray[..];
    assert forall k :: 0 <= k < |splTxt| ==> windows[k] == SegmentWindow(splTxt[k]);
  }

  // ---------------------------------------------------------------------------
  // Properties

  /** A segment without ',' yields a window whose end is NaN, not an error. */
  lemma SegmentWithoutComma(segment: string)
    requires ',' !in segment
    ensures SegmentWindow(segment).end == NaN
    ensures SegmentWindow(segment).start == ParseInt(segment)
  {
    SplitNoSep(segment, ',');
    ParseIntFieldMissing();
  }

  /** The text "a,b" for a window of integer bounds. */
  function SegmentText(start: int, end: int): string
  {
    IntToString(start) + "," + IntToString(end)
  }

  lemma NoSeparatorInIntText(n: int, c: char)
    requires c == ',' || c == ':'
    ensures c !in IntToString(n)
  {
    var d := NatToString(if n < 0 then -n else n);
    assert !IsDigit(c);
  }

  lemma SegmentTextWindow(start: int, end: int)
    ensures SegmentWindow(SegmentText(start, end)) == Window(Int(start), Int(end))
  {
    var a, b := IntToString(start), IntToString(end);
    NoSeparatorInIntText(start, ',');
    NoSeparatorInIntText(end, ',');
    SplitCons(a, ',', b);
    SplitNoSep(b, ',');
    assert a + "," + b == a + [','] + b;
    ParseIntOfIntToStringExact(start);
    ParseIntOfIntToStringExact(end);
  }

  /** The interval string for a list of integer windows, "a,b:c,d:...". */
  function Format(bounds: seq<(int, int)>): string
    requires |bounds| > 0
  {
    Join(seq(|bounds|, i requires 0 <= i < |bounds| => SegmentText(bounds[i].0, bounds[i].1)), ':')
  }

  /** Parsing the text of any non-empty list of integer windows gives that
      list back, one window per segment in input order. */
  lemma WindowsOfFormat(bounds: seq<(int, int)>)
    requires |bounds| > 0
    ensures Windows(Format(bounds)) ==
            seq(|bounds|, i requires 0 <= i < |bounds| => Window(Int(bounds[i].0), Int(bounds[i].1)))
  {
    var texts := seq(|bounds|, i requires 0 <= i < |bounds| => SegmentText(bounds[i].0, bounds[i].1));
    forall i | 0 <= i < |texts|
      ensures ':' !in texts[i]
      ensures SegmentWindow(texts[i]) == Window(Int(bounds[i].0), Int(bounds[i].1))
    {
      NoSeparatorInIntText(bounds[i].0, ':');
      NoSeparatorInIntText(bounds[i].1, ':');
      SegmentTextWindow(bounds[i].0, bounds[i].1);
    }
    SplitJoin(texts, ':');
  }

  lemma DefaultSegmentTexts()
    ensures SegmentText(0, 3) == "0,3" && SegmentText(3, 6) == "3,6"
    ensures SegmentText(6, 9) == "6,9" && SegmentText(9, 12) == "9,12"
  {
    assert NatToString(12) == "12";
  }

  lemma DefaultFormat()
    ensures Format([(0, 3), (3, 6), (6, 9), (9, 12)]) == "0,3:3,6:6,9:9,12"
  {
    var bounds := [(0, 3), (3, 6), (6, 9), (9, 12)];
    var texts := ["0,3", "3,6", "6,9", "9,12"];
    DefaultSegmentTexts();
    assert seq(|bounds|, i requires 0 <= i < |bounds| => SegmentText(bounds[i].0, bounds[i].1)) == texts;
    assert Join(texts[3..], ':') == "9,12";
    assert Join(texts[2..], ':') == "6,9:9,12";
    assert Join(texts[1..], ':') == "3,6:6,9:9,12";
  }

  /** The script's default, "0,3:3,6:6,9:9,12", gives the four quarters of
      the year after the base date. */
  lemma DefaultIntervals()
    ensures Windows("0,3:3,6:6,9:9,12") ==
            [Window(Int(0), Int(3)), Window(Int(3), Int(6)), Window(Int(6), Int(9)), Window(Int(9), Int(12))]
  {
    var bounds := [(0, 3), (3, 6), (6, 9), (9, 12)];
    WindowsOfFormat(bounds);
    DefaultFormat();
    var ws := seq(|bounds|, i requires 0 <= i < |bounds| => Window(Int(bounds[i].0), Int(bounds[i].1)));
    assert ws == [Window(Int(0), Int(3)), Window(Int(3), Int(6)), Window(Int(6), Int(9)), Window(Int(9), Int(12))];
  }
}
