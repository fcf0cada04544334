/**
 * From recorded input frames to the note list (the frame part of parseData,
 * page.js:488-511) and back (makeBitStringFromLanes, page.js:514-520).
 */
module Chart {
  import opened Common
  import opened Notes

  /** Number of characters in a frame's bit string. */
  const FRAME_BITS: int := 16
  /** The first bit that encodes a lane; bit `i` encodes lane `i - 2`. */
  const FIRST_LANE_BIT: int := 2

  /**
   * One entry of the frame list, after `+entry[0]` / `+entry.t` and
   * `String(entry[1] ?? "")` / `String(entry.bits ?? "")`: the time, absent
   * when it is not a finite number, and the bit string before trimming.
   */
  datatype Frame = Frame(time: Option<real>, bits: string)

  /** The characters `String.prototype.trim` removes: WhiteSpace and LineTerminator. */
  predicate IsJsSpace(c: char) {
    var x := c as int;
    x == 0x09 || x == 0x0A || x == 0x0B || x == 0x0C || x == 0x0D || x == 0x20 ||
    x == 0xA0 || x == 0x1680 || (0x2000 <= x <= 0x200A) || x == 0x2028 || x == 0x2029 ||
    x == 0x202F || x == 0x205F || x == 0x3000 || x == 0xFEFF
  }

  /** `s` with its leading white space removed. */
  function TrimStart(s: string): string {
    if |s| > 0 && IsJsSpace(s[0]) then TrimStart(s[1..]) else s
  }

  /** `s` with its trailing white space removed. */
  function TrimEnd(s: string): string {
    if |s| > 0 && IsJsSpace(s[|s| - 1]) then TrimEnd(s[..|s| - 1]) else s
  }

  /**
   * `String.prototype.trim`: the slice of `s` left after dropping its
   * leading and trailing runs of white space.
   */
  function Trim(s: string): (r: string)
    ensures |r| <= |s|
    ensures var a := |s| - |TrimStart(s)|;
      && 0 <= a && a + |r| <= |s| && r == s[a..a + |r|]
      && (forall k :: 0 <= k < a ==> IsJsSpace(s[k]))
      && (forall k :: a + |r| <= k < |s| ==> IsJsSpace(s[k]))
    ensures |r| > 0 ==> !IsJsSpace(r[0]) && !IsJsSpace(r[|r| - 1])
  {
    TrimSlice(s);
    TrimEnd(TrimStart(s))
  }

  /** Trimming both ends keeps a slice of `s` and cuts only white space. */
  lemma TrimSlice(s: string)
    ensures var t := TrimStart(s);
      var r := TrimEnd(t);
      var a := |s| - |t|;
      && 0 <= a && a + |r| <= |s| && r == s[a..a + |r|]
      && (forall k :: 0 <= k < a ==> IsJsSpace(s[k]))
      && (forall k :: a + |r| <= k < |s| ==> IsJsSpace(s[k]))
      && (|r| > 0 ==> !IsJsSpace(r[0]) && !IsJsSpace(r[|r| - 1]))
  {
    var t := TrimStart(s);
    TrimStartSpec(s);
    TrimEndSpec(t);
    var r := TrimEnd(t);
    var a := |s| - |t|;
    assert t == s[a..];
    assert r == t[..|r|];
    forall k | a + |r| <= k < |s|
      ensures IsJsSpace(s[k])
    {
      assert s[k] == t[k - a];
    }
  }

  /** TrimStart drops exactly the leading run of white space. */
  lemma {:induction false} TrimStartSpec(s: string)
    ensures var r := TrimStart(s);
      && |r| <= |s| && r == s[|s| - |r|..]
      && (forall k :: 0 <= k < |s| - |r| ==> IsJsSpace(s[k]))
      && (|r| > 0 ==> !IsJsSpace(r[0]))
  {
    if |s| > 0 && IsJsSpace(s[0]) {
      TrimStartSpec(s[1..]);
    }
  }

  /** TrimEnd drops exactly the trailing run of white space. */
  lemma {:induction false} TrimEndSpec(s: string)
    ensures var r := TrimEnd(s);
      && |r| <= |s| && r == s[..|r|]
      && (forall k :: |r| <= k < |s| ==> IsJsSpace(s[k]))
      && (|r| > 0 ==> !IsJsSpace(r[|r| - 1]))
  {
    if |s| > 0 && IsJsSpace(s[|s| - 1]) {
      TrimEndSpec(s[..|s| - 1]);
    }
  }

  /** A string without white space at either end is its own trim. */
  lemma TrimUntouched(s: string)
    requires |s| > 0 ==> !IsJsSpace(s[0]) && !IsJsSpace(s[|s| - 1])
    ensures Trim(s) == s
  {
  }

  /**
   * The lanes that bits 2 .. i-1 of a 16-character string switch on, in bit
   * order: bit `b` equal to '1' yields lane `b - 2`.
   */
  function LanesUpTo(bits: string, i: int): (r: seq<int>)
    requires |bits| == FRAME_BITS && FIRST_LANE_BIT <= i <= FRAME_BITS
    decreases i
  {
    if i == FIRST_LANE_BIT then []
    else LanesUpTo(bits, i - 1) + (if bits[i - 1] == '1' then [i - 1 - FIRST_LANE_BIT] else [])
  }

  /**
   * Bits 2 .. i-1 switch on exactly the lanes whose bit is '1', each once and
   * in increasing order.
   */
  lemma {:induction false} LanesUpToSpec(bits: string, i: int)
    requires |bits| == FRAME_BITS && FIRST_LANE_BIT <= i <= FRAME_BITS
    ensures forall k :: 0 <= k < |LanesUpTo(bits, i)| ==>
      0 <= LanesUpTo(bits, i)[k] < i - FIRST_LANE_BIT && bits[LanesUpTo(bits, i)[k] + FIRST_LANE_BIT] == '1'
    ensures forall l :: 0 <= l < i - FIRST_LANE_BIT && bits[l + FIRST_LANE_BIT] == '1' ==> l in LanesUpTo(bits, i)
    ensures forall a, b :: 0 <= a < b < |LanesUpTo(bits, i)| ==> LanesUpTo(bits, i)[a] < LanesUpTo(bits, i)[b]
    decreases i
  {
    if i > FIRST_LANE_BIT {
      LanesUpToSpec(bits, i - 1);
      var init := LanesUpTo(bits, i - 1);
      var r := LanesUpTo(bits, i);
      forall l | 0 <= l < i - FIRST_LANE_BIT && bits[l + FIRST_LANE_BIT] == '1'
        ensures l in r
      {
        if l < i - 1 - FIRST_LANE_BIT {
          assert l in init;
          var k :| 0 <= k < |init| && init[k] == l;
          assert r[k] == l;
        } else {
          assert r[|r| - 1] == l;
        }
      }
    }
  }

  /** Fresh notes at time `t`, one per lane, in the order given. */
  function NotesAt(t: real, lanes: seq<int>): (r: seq<Note>)
    ensures |r| == |lanes|
    ensures forall k :: 0 <= k < |r| ==> r[k] == Note(t, lanes[k], false, false, Unplanned)
  {
    if lanes == [] then []
    else NotesAt(t, lanes[..|lanes| - 1]) + [Note(t, lanes[|lanes| - 1], false, false, Unplanned)]
  }

  /**
   * The notes one frame contributes: none when its time is not finite or its
   * trimmed bit string is not 16 characters long, else one per '1' bit.
   */
  function FrameNotes(f: Frame): seq<Note> {
    var bits := Trim(f.bits);
    if f.time.None? || |bits| != FRAME_BITS then []
    else NotesAt(f.time.value, LanesUpTo(bits, FRAME_BITS))
  }

  /** The notes of all frames, in frame order, before sorting. */
  function RawNotes(fs: seq<Frame>): seq<Note> {
    if fs == [] then [] else RawNotes(fs[..|fs| - 1]) + FrameNotes(fs[|fs| - 1])
  }

  predicate SortedByTime(s: seq<Note>) {
    forall i, j :: 0 <= i < j < |s| ==> s[i].time <= s[j].time
  }

  /** Places `x` after every note of `s` that is not later than it. */
  function Insert(x: Note, s: seq<Note>): (r: seq<Note>)
    requires SortedByTime(s)
    ensures SortedByTime(r)
    ensures |r| == |s| + 1
    ensures r[0] == x || (s != [] && r[0] == s[0])
  {
    if s == [] then [x]
    else if x.time < s[0].time then [x] + s
    else
      var rest := Insert(x, s[1..]);
      assert rest[0] == x || rest[0] == s[1];
      [s[0]] + rest
  }

  /** Inserting adds exactly the one note. */
  lemma {:induction false} InsertPermutes(x: Note, s: seq<Note>)
    requires SortedByTime(s)
    ensures multiset(Insert(x, s)) == multiset(s) + multiset{x}
  {
    if s != [] && x.time >= s[0].time {
      InsertPermutes(x, s[1..]);
      assert s == [s[0]] + s[1..];
    }
  }

  /**
   * `out.sort((a, b) => a.time - b.time)`: a stable sort by ascending time
   * (Array.prototype.sort is stable).
   */
  function SortByTime(s: seq<Note>): (r: seq<Note>)
    ensures SortedByTime(r)
    ensures |r| == |s|
  {
    if s == [] then [] else Insert(s[|s| - 1], SortByTime(s[..|s| - 1]))
  }

  /** Sorting only reorders: the result is a permutation of the input. */
  lemma {:induction false} SortPermutes(s: seq<Note>)
    ensures multiset(SortByTime(s)) == multiset(s)
  {
    if s != [] {
      SortPermutes(s[..|s| - 1]);
      InsertPermutes(s[|s| - 1], SortByTime(s[..|s| - 1]));
      assert s == s[..|s| - 1] + [s[|s| - 1]];
    }
  }

  /** Every note of `s` moved `d` ms earlier. */
  function Shift(s: seq<Note>, d: real): (r: seq<Note>)
    ensures |r| == |s|
    ensures forall k :: 0 <= k < |s| ==> r[k] == s[k].(time := s[k].time - d)
  {
    seq(|s|, k requires 0 <= k < |s| => s[k].(time := s[k].time - d))
  }

  /** The time parseData subtracts: that of the earliest note, or 0 for none. */
  function Origin(sorted: seq<Note>): real {
    if |sorted| > 0 then sorted[0].time else 0.0
  }

  /** The note list parseData returns for a frame list. */
  function Decode(fs: seq<Frame>): seq<Note> {
    var sorted := SortByTime(RawNotes(fs));
    Shift(sorted, Origin(sorted))
  }

  /** One more lane adds one more note. */
  lemma NotesAtSnoc(t: real, lanes: seq<int>, l: int)
    ensures NotesAt(t, lanes + [l]) == NotesAt(t, lanes) + [Note(t, l, false, false, Unplanned)]
  {
    assert (lanes + [l])[..|lanes|] == lanes;
  }

  /** One more bit examined: the note of the lane it switches on, if any, is pushed last. */
  lemma LanesUpToStep(out: seq<Note>, bits: string, i: int, t: real)
    requires |bits| == FRAME_BITS && FIRST_LANE_BIT <= i < FRAME_BITS
    ensures out + NotesAt(t, LanesUpTo(bits, i + 1))
         == out + NotesAt(t, LanesUpTo(bits, i)) + (if bits[i] == '1' then [Note(t, i - FIRST_LANE_BIT, false, false, Unplanned)] else [])
  {
    var sofar := NotesAt(t, LanesUpTo(bits, i));
    if bits[i] == '1' {
      var n := Note(t, i - FIRST_LANE_BIT, false, false, Unplanned);
      NotesAtSnoc(t, LanesUpTo(bits, i), i - FIRST_LANE_BIT);
      assert out + (sofar + [n]) == out + sofar + [n];
    } else {
      assert LanesUpTo(bits, i + 1) == LanesUpTo(bits, i);
      assert out + sofar + [] == out + sofar;
    }
  }

  /** One more frame examined: its notes come last. */
  lemma RawNotesStep(fs: seq<Frame>, j: nat)
    requires j < |fs|
    ensures RawNotes(fs[..j + 1]) == RawNotes(fs[..j]) + FrameNotes(fs[j])
  {
    assert fs[..j + 1][..j] == fs[..j];
  }

  /** The inner loop of parseData: one note per '1' among bits 2..15, appended in bit order. */
  method PushFrameNotes(out: seq<Note>, t: real, bits: string) returns (r: seq<Note>)
    requires |bits| == FRAME_BITS
    ensures r == out + NotesAt(t, LanesUpTo(bits, |bits|))
  {
    r := out;
    var i := FIRST_LANE_BIT;
    while i < |bits|
      invariant FIRST_LANE_BIT <= i <= |bits|
      invariant r == out + NotesAt(t, LanesUpTo(bits, i))
    {
      LanesUpToStep(out, bits, i, t);
      if bits[i] == '1' {
        r := r + [Note(t, i - FIRST_LANE_BIT, false, false, Unplanned)];
      }
      i := i + 1;
    }
  }

  /** The frame loop of parseData: the notes of every well-formed frame, in frame order. */
  method CollectFrameNotes(frames: seq<Frame>) returns (out: seq<Note>)
    ensures out == RawNotes(frames)
  {
    out := [];
    var j := 0;
    while j < |frames|
      invariant 0 <= j <= |frames|
      invariant out == RawNotes(frames[..j])
    {
      var entry := frames[j];
      var bits := Trim(entry.bits);
      RawNotesStep(frames, j);
      if entry.time.Some? && |bits| == FRAME_BITS {
        out := PushFrameNotes(out, entry.time.value, bits);
      }
      j := j + 1;
    }
    assert frames[..j] == frames;
  }

  /** The last loop of parseData: every time reduced by the first note's time. */
  method NormaliseTimes(sorted: seq<Note>) returns (out: seq<Note>)
    ensures out == Shift(sorted, Origin(sorted))
  {
    out := sorted;
    var t0 := if |out| > 0 then out[0].time else 0.0;
    var k := 0;
    while k < |out|
      invariant 0 <= k <= |out| == |sorted|
      invariant forall m :: 0 <= m < k ==> out[m] == sorted[m].(time := sorted[m].time - t0)
      invariant forall m :: k <= m < |out| ==> out[m] == sorted[m]
    {
      out := out[k := out[k].(time := out[k].time - t0)];
      k := k + 1;
    }
  }

  /** parseData from the frame list on: collect, sort by time, move the first note to 0. */
  method DecodeFrames(frames: seq<Frame>) returns (out: seq<Note>)
    ensures out == Decode(frames)
  {
    out := CollectFrameNotes(frames);
    out := SortByTime(out);
    out := NormaliseTimes(out);
  }

  /** Moving every note by the same amount keeps the time order. */
  lemma ShiftSorted(s: seq<Note>, d: real)
    requires SortedByTime(s)
    ensures SortedByTime(Shift(s, d))
  {
  }

  lemma ShiftCons(a: Note, s: seq<Note>, d: real)
    ensures Shift([a] + s, d) == [a.(time := a.time - d)] + Shift(s, d)
  {
  }

  /** Shifting commutes with inserting. */
  lemma {:induction false} InsertShift(x: Note, s: seq<Note>, d: real)
    requires SortedByTime(s)
    ensures SortedByTime(Shift(s, d))
    ensures Insert(x.(time := x.time - d), Shift(s, d)) == Shift(Insert(x, s), d)
  {
    ShiftSorted(s, d);
    var x' := x.(time := x.time - d);
    if s == [] {
      assert Shift([x], d) == [x'];
    } else if x.time < s[0].time {
      ShiftCons(x, s, d);
    } else {
      var ss := Shift(s, d);
      assert ss[1..] == Shift(s[1..], d);
      InsertShift(x, s[1..], d);
      assert Insert(x', ss) == [ss[0]] + Insert(x', ss[1..]);
      assert Insert(x, s) == [s[0]] + Insert(x, s[1..]);
      ShiftCons(s[0], Insert(x, s[1..]), d);
    }
  }

  /** Shifting commutes with sorting: the comparison only sees differences. */
  lemma {:induction false} SortShift(s: seq<Note>, d: real)
    ensures SortByTime(Shift(s, d)) == Shift(SortByTime(s), d)
  {
    if s != [] {
      var init := s[..|s| - 1];
      assert Shift(s, d)[..|s| - 1] == Shift(init, d);
      SortShift(init, d);
      InsertShift(s[|s| - 1], SortByTime(init), d);
    }
  }

  /** Sorting a list that is already in time order leaves it alone. */
  lemma {:induction false} SortSortedIsIdentity(s: seq<Note>)
    requires SortedByTime(s)
    ensures SortByTime(s) == s
  {
    if s != [] {
      var init := s[..|s| - 1];
      SortSortedIsIdentity(init);
      InsertAtEnd(s[|s| - 1], init);
      assert init + [s[|s| - 1]] == s;
    }
  }

  /** The notes of `s` at exactly `time`, in their order in `s`. */
  function AtTime(s: seq<Note>, time: real): (r: seq<Note>)
    ensures |r| <= |s|
  {
    if s == [] then []
    else (if s[0].time == time then [s[0]] else []) + AtTime(s[1..], time)
  }

  lemma {:induction false} AtTimeConcat(a: seq<Note>, b: seq<Note>, time: real)
    ensures AtTime(a + b, time) == AtTime(a, time) + AtTime(b, time)
  {
    if a == [] {
      assert a + b == b;
    } else {
      var head := if a[0].time == time then [a[0]] else [];
      assert (a + b)[0] == a[0];
      assert (a + b)[1..] == a[1..] + b;
      AtTimeConcat(a[1..], b, time);
      assert AtTime(a + b, time) == head + (AtTime(a[1..], time) + AtTime(b, time));
      assert head + (AtTime(a[1..], time) + AtTime(b, time)) == (head + AtTime(a[1..], time)) + AtTime(b, time);
    }
  }

  /** Inserting `x` puts it after every note of its own time already there. */
  lemma {:induction false} InsertStable(x: Note, s: seq<Note>, time: real)
    requires SortedByTime(s)
    ensures AtTime(Insert(x, s), time) == AtTime(s, time) + (if x.time == time then [x] else [])
  {
    if s == [] {
      assert Insert(x, s) == [x];
      assert AtTime([x], time) == (if x.time == time then [x] else []) + AtTime([], time);
    } else if x.time < s[0].time {
      if x.time == time {
        AtTimeNone(s, time);
      }
      var r := [x] + s;
      assert Insert(x, s) == r;
      assert r[0] == x && r[1..] == s;
      assert AtTime(r, time) == (if x.time == time then [x] else []) + AtTime(s, time);
    } else {
      InsertPast(x, s);
      InsertStable(x, s[1..], time);
      AtTimeFront(s[0], Insert(x, s[1..]), s[1..], if x.time == time then [x] else [], time);
      assert [s[0]] + s[1..] == s;
    }
  }

  /** Inserting past the first note leaves it first: the step of Insert that recurses. */
  lemma InsertPast(x: Note, s: seq<Note>)
    requires SortedByTime(s) && s != [] && x.time >= s[0].time
    ensures SortedByTime(s[1..])
    ensures Insert(x, s) == [s[0]] + Insert(x, s[1..])
  {
  }

  /** A note put in front of two lists that agree at `time` up to `tail` keeps them agreeing. */
  lemma AtTimeFront(h: Note, rest: seq<Note>, tl: seq<Note>, tail: seq<Note>, time: real)
    requires AtTime(rest, time) == AtTime(tl, time) + tail
    ensures AtTime([h] + rest, time) == AtTime([h] + tl, time) + tail
  {
    var head := if h.time == time then [h] else [];
    assert ([h] + rest)[0] == h && ([h] + rest)[1..] == rest;
    assert ([h] + tl)[0] == h && ([h] + tl)[1..] == tl;
    assert head + (AtTime(tl, time) + tail) == (head + AtTime(tl, time)) + tail;
  }

  /** No note of a time-ordered list that starts after `time` is at `time`. */
  lemma {:induction false} AtTimeNone(s: seq<Note>, time: real)
    requires SortedByTime(s) && s != [] && time < s[0].time
    ensures AtTime(s, time) == []
  {
    if |s| > 1 {
      AtTimeNone(s[1..], time);
    }
  }

  /**
   * The sort is stable: the notes of any one time keep their relative order
   * (with SortPermutes, the sort only moves notes across different times).
   */
  lemma {:induction false} SortStable(s: seq<Note>, time: real)
    ensures AtTime(SortByTime(s), time) == AtTime(s, time)
  {
    if s != [] {
      var init := s[..|s| - 1];
      var x := s[|s| - 1];
      SortStable(init, time);
      InsertStable(x, SortByTime(init), time);
      assert s == init + [x];
      AtTimeConcat(init, [x], time);
    }
  }

  lemma {:induction false} InsertAtEnd(x: Note, s: seq<Note>)
    requires SortedByTime(s)
    requires forall k :: 0 <= k < |s| ==> s[k].time <= x.time
    ensures Insert(x, s) == s + [x]
  {
    if s != [] {
      InsertAtEnd(x, s[1..]);
      assert [s[0]] + (s[1..] + [x]) == s + [x];
    }
  }

  /** The decoded chart is in time order, starts at 0 and never goes below it. */
  lemma DecodeNormalised(fs: seq<Frame>)
    ensures var r := Decode(fs);
      && SortedByTime(r)
      && (|r| > 0 ==> r[0].time == 0.0)
      && (forall k :: 0 <= k < |r| ==> r[k].time >= 0.0)
  {
    var sorted := SortByTime(RawNotes(fs));
    ShiftSorted(sorted, Origin(sorted));
  }

  /** The decoded chart holds only fresh notes, in lanes 0..13. */
  lemma DecodeFreshNotes(fs: seq<Frame>)
    ensures Decodable(Decode(fs))
  {
    var raw := RawNotes(fs);
    var sorted := SortByTime(raw);
    RawNotesShape(fs);
    SortPermutes(raw);
    forall k | 0 <= k < |sorted|
      ensures Fresh(sorted[k]) && 0 <= sorted[k].lane < FRAME_BITS - FIRST_LANE_BIT
    {
      assert sorted[k] in multiset(raw);
    }
  }

  /**
   * The decoded chart holds exactly the frames' notes, each moved earlier by
   * the time of the earliest one.
   */
  lemma DecodePermutes(fs: seq<Frame>)
    ensures var raw := RawNotes(fs);
      multiset(Decode(fs)) == multiset(Shift(raw, Origin(SortByTime(raw))))
  {
    var raw := RawNotes(fs);
    var t0 := Origin(SortByTime(raw));
    SortShift(raw, t0);
    SortPermutes(Shift(raw, t0));
  }

  /** Fresh notes whose lanes some bit 2..15 can encode. */
  predicate Decodable(ns: seq<Note>) {
    forall k :: 0 <= k < |ns| ==> Fresh(ns[k]) && 0 <= ns[k].lane < FRAME_BITS - FIRST_LANE_BIT
  }

  lemma DecodableConcat(a: seq<Note>, b: seq<Note>)
    requires Decodable(a) && Decodable(b)
    ensures Decodable(a + b)
  {
    assert forall k :: |a| <= k < |a| + |b| ==> (a + b)[k] == b[k - |a|];
  }

  /** Every note of one frame is fresh and lies in lanes 0..13. */
  lemma FrameNotesShape(f: Frame)
    ensures Decodable(FrameNotes(f))
  {
    var bits := Trim(f.bits);
    if f.time.Some? && |bits| == FRAME_BITS {
      var lanes := LanesUpTo(bits, FRAME_BITS);
      LanesUpToSpec(bits, FRAME_BITS);
    }
  }

  /** Every note before sorting is fresh and lies in lanes 0..13. */
  lemma {:induction false} RawNotesShape(fs: seq<Frame>)
    ensures Decodable(RawNotes(fs))
  {
    if fs != [] {
      RawNotesShape(fs[..|fs| - 1]);
      FrameNotesShape(fs[|fs| - 1]);
      DecodableConcat(RawNotes(fs[..|fs| - 1]), FrameNotes(fs[|fs| - 1]));
    }
  }

  /** A frame whose time is not finite or whose bit string is malformed adds nothing. */
  lemma MalformedFrameSkipped(fs: seq<Frame>, f: Frame)
    requires f.time.None? || |Trim(f.bits)| != FRAME_BITS
    ensures RawNotes(fs + [f]) == RawNotes(fs)
  {
    assert (fs + [f])[..|fs|] == fs;
  }

  /**
   * A frame with a time and a 16-character bit string with no white space at
   * its ends decodes to its lanes' notes, all at time 0.
   */
  lemma DecodeOneFrame(t: real, bits: string)
    requires |bits| == FRAME_BITS
    requires !IsJsSpace(bits[0]) && !IsJsSpace(bits[FRAME_BITS - 1])
    ensures Decode([Frame(Some(t), bits)]) == NotesAt(0.0, LanesUpTo(bits, FRAME_BITS))
  {
    var f := Frame(Some(t), bits);
    var ls := LanesUpTo(bits, FRAME_BITS);
    TrimUntouched(bits);
    assert FrameNotes(f) == NotesAt(t, ls);
    assert [f][..0] == [];
    assert RawNotes([f]) == NotesAt(t, ls);
    NotesAtShift(t, ls);
  }

  /** Notes that share one time are sorted already and normalise to time 0. */
  lemma NotesAtShift(t: real, lanes: seq<int>)
    ensures var raw := NotesAt(t, lanes);
      var sorted := SortByTime(raw);
      Shift(sorted, Origin(sorted)) == NotesAt(0.0, lanes)
  {
    var raw := NotesAt(t, lanes);
    assert SortedByTime(raw);
    SortSortedIsIdentity(raw);
    if |raw| > 0 {
      assert Origin(raw) == t;
      ShiftToZero(t, lanes);
    }
  }

  lemma ShiftToZero(t: real, lanes: seq<int>)
    ensures Shift(NotesAt(t, lanes), t) == NotesAt(0.0, lanes)
  {
    var r := Shift(NotesAt(t, lanes), t);
    var z := NotesAt(0.0, lanes);
    forall k | 0 <= k < |r|
      ensures r[k] == z[k]
    {
      assert NotesAt(t, lanes)[k] == Note(t, lanes[k], false, false, Unplanned);
    }
  }

  /**
   * A '1' at bit 15 decodes to lane 13, outside the twelve lanes the game has
   * keys for.
   */
  lemma DecodeAdmitsLaneBeyondKeys()
    ensures Decode([Frame(Some(0.0), "0000000000000001")]) == [Note(0.0, 13, false, false, Unplanned)]
    ensures 13 >= LANES
  {
    var bits := "0000000000000001";
    assert forall j :: 0 <= j < FRAME_BITS - 1 ==> bits[j] == '0';
    DecodeOneFrame(0.0, bits);
    LanesUpToSpec(bits, FRAME_BITS - 1);
    assert LanesUpTo(bits, FRAME_BITS - 1) == [];
  }

  /** The bit string makeBitStringFromLanes builds for a list of lanes. */
  function BitString(lanes: seq<int>): (s: string)
    ensures |s| == FRAME_BITS
  {
    seq(FRAME_BITS, i requires 0 <= i < FRAME_BITS =>
      if FIRST_LANE_BIT <= i && i - FIRST_LANE_BIT < LANES && i - FIRST_LANE_BIT in lanes then '1' else '0')
  }

  /** makeBitStringFromLanes: a '1' for every in-range lane, '0' elsewhere. */
  method MakeBitStringFromLanes(lanes: seq<int>) returns (s: string)
    ensures s == BitString(lanes)
    ensures |s| == FRAME_BITS
    ensures forall i :: 0 <= i < FRAME_BITS ==> s[i] == '0' || s[i] == '1'
    ensures forall l :: 0 <= l < LANES ==> (s[l + FIRST_LANE_BIT] == '1' <==> l in lanes)
  {
    var arr := new char[FRAME_BITS](_ => '0');
    for k := 0 to |lanes|
      invariant forall i :: 0 <= i < FRAME_BITS ==>
        arr[i] == if FIRST_LANE_BIT <= i && i - FIRST_LANE_BIT < LANES && i - FIRST_LANE_BIT in lanes[..k] then '1' else '0'
    {
      var lane := lanes[k];
      if lane >= 0 && lane < LANES {
        arr[lane + FIRST_LANE_BIT] := '1';
      }
      assert lanes[..k + 1] == lanes[..k] + [lane];
    }
    assert lanes[..|lanes|] == lanes;
    s := arr[..];
  }

  /** The distinct lanes of `lanes` that the game has keys for. */
  ghost function KeyedLanes(lanes: seq<int>): set<int> {
    set l | l in lanes && 0 <= l < LANES
  }

  /**
   * Round trip: decoding the single frame `[t, makeBitStringFromLanes(L)]`
   * yields one fresh note at time 0 for each distinct in-range lane of `L`,
   * in increasing lane order.
   */
  lemma RoundTrip(t: real, lanes: seq<int>)
    ensures var r := Decode([Frame(Some(t), BitString(lanes))]);
      && (set k | 0 <= k < |r| :: r[k].lane) == KeyedLanes(lanes)
      && (forall a, b :: 0 <= a < b < |r| ==> r[a].lane < r[b].lane)
      && (forall k :: 0 <= k < |r| ==> r[k] == Note(0.0, r[k].lane, false, false, Unplanned))
  {
    var bits := BitString(lanes);
    var ls := LanesUpTo(bits, FRAME_BITS);
    DecodeOneFrame(t, bits);
    BitStringLanes(lanes);
    LanesIncreasing(bits);
    NotesAtLanes(ls);
  }

  /** The lanes of a frame come out in increasing order. */
  lemma LanesIncreasing(bits: string)
    requires |bits| == FRAME_BITS
    ensures var ls := LanesUpTo(bits, FRAME_BITS);
      forall a, b :: 0 <= a < b < |ls| ==> ls[a] < ls[b]
  {
    LanesUpToSpec(bits, FRAME_BITS);
  }

  /** Fresh notes at time 0, one per lane of `ls`, in the order of `ls`. */
  lemma NotesAtLanes(ls: seq<int>)
    ensures var r := NotesAt(0.0, ls);
      && (set k | 0 <= k < |r| :: r[k].lane) == (set l | l in ls)
      && (forall k :: 0 <= k < |r| ==> r[k].lane == ls[k])
      && (forall k :: 0 <= k < |r| ==> r[k] == Note(0.0, r[k].lane, false, false, Unplanned))
  {
    var r := NotesAt(0.0, ls);
    assert forall k :: 0 <= k < |r| ==> r[k].lane == ls[k];
  }

  /** The lanes read back from an encoded bit string are its keyed lanes. */
  lemma BitStringLanes(lanes: seq<int>)
    ensures (set l | l in LanesUpTo(BitString(lanes), FRAME_BITS)) == KeyedLanes(lanes)
  {
    var bits := BitString(lanes);
    var ls := LanesUpTo(bits, FRAME_BITS);
    LanesUpToSpec(bits, FRAME_BITS);
    forall l | l in ls
      ensures l in KeyedLanes(lanes)
    {
      var k :| 0 <= k < |ls| && ls[k] == l;
      assert bits[l + FIRST_LANE_BIT] == '1';
    }
    forall l | l in KeyedLanes(lanes)
      ensures l in ls
    {
      assert bits[l + FIRST_LANE_BIT] == '1';
    }
  }
}
