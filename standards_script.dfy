/**
 * The client side of the standards search: the reader that cuts the
 * response stream into `text/event-stream` frames and dispatches the ones
 * carrying JSON data, the stage timer's `mm:ss` text, the score colour band
 * and the labels shown for equivalence types and validation criteria.
 *
 * The framing is a simplified reader of the server-sent events format of
 * section 9.2 of the WHATWG HTML Living Standard: frames are cut only at
 * `"\n\n"`, only `event: ` and `data: ` lines (with the space) are read,
 * and the last of each wins.
 */
module StandardsScript {
  import opened Wrappers
  import opened Text
  import opened Translator

  /** `s.split(sep)` for a non-empty separator: cut at each leftmost occurrence. */
  function Split(s: string, sep: string): (r: seq<string>)
    requires |sep| > 0
    ensures |r| >= 1
    decreases |s|
  {
    if |s| < |sep| then [s]
    else if s[..|sep|] == sep then [""] + Split(s[|sep|..], sep)
    else
      var rest := Split(s[1..], sep);
      [[s[0]] + rest[0]] + rest[1..]
  }

  /** The first piece starts the text, and no piece contains the separator. */
  lemma {:induction false} SplitPieces(s: string, sep: string)
    requires |sep| > 0
    ensures StartsWith(s, Split(s, sep)[0])
    ensures Separated(Split(s, sep), sep)
    decreases |s|
  {
    if |s| < |sep| {
      ShortNotContains(s, sep);
    } else if s[..|sep|] == sep {
      SplitPieces(s[|sep|..], sep);
      PiecesAfterSeparator(s, sep);
    } else {
      SplitPieces(s[1..], sep);
      PiecesAfterChar(s, sep);
    }
  }

  /** The step of `SplitPieces` for a text that starts with the separator. */
  lemma {:induction false} PiecesAfterSeparator(s: string, sep: string)
    requires |sep| > 0 && |s| >= |sep| && s[..|sep|] == sep
    requires Separated(Split(s[|sep|..], sep), sep)
    ensures StartsWith(s, Split(s, sep)[0]) && Separated(Split(s, sep), sep)
  {
    ShortNotContains("", sep);
    SplitAtSeparator(s, sep);
    var r := Split(s, sep);
    assert forall k :: 1 <= k < |r| ==> r[k] == Split(s[|sep|..], sep)[k - 1];
  }

  /** The step of `SplitPieces` for a text that does not start with the separator. */
  lemma {:induction false} PiecesAfterChar(s: string, sep: string)
    requires |sep| > 0 && |s| >= |sep| && s[..|sep|] != sep
    requires StartsWith(s[1..], Split(s[1..], sep)[0]) && Separated(Split(s[1..], sep), sep)
    ensures StartsWith(s, Split(s, sep)[0]) && Separated(Split(s, sep), sep)
  {
    SplitAtChar(s, sep);
    var rest := Split(s[1..], sep);
    var piece := [s[0]] + rest[0];
    assert piece[1..] == rest[0];
    assert StartsWith(s, piece) by {
      assert s == [s[0]] + s[1..];
      assert s[1..][..|rest[0]|] == rest[0];
    }
    assert !StartsWith(piece, sep) by {
      if |sep| <= |piece| {
        assert piece[..|sep|] == s[..|sep|];
      }
    }
    assert !Contains(piece, sep);
    var r := Split(s, sep);
    assert r == [piece] + rest[1..];
    assert forall k :: 1 <= k < |r| ==> r[k] == rest[k];
  }

  /**
   * Each cut is made at the leftmost occurrence of the separator: none
   * starts inside a piece that a cut follows.
   */
  predicate LeftmostCuts(pieces: seq<string>, sep: string)
    requires |sep| > 0
  {
    forall k :: 0 <= k < |pieces| - 1 ==> !Contains(pieces[k] + sep[..|sep| - 1], sep)
  }

  /** `Split` always cuts at the leftmost occurrence. */
  lemma {:induction false} SplitLeftmost(s: string, sep: string)
    requires |sep| > 0
    ensures LeftmostCuts(Split(s, sep), sep)
    decreases |s|
  {
    var r := Split(s, sep);
    var short := sep[..|sep| - 1];
    if |s| < |sep| {
      assert r == [s];
    } else if s[..|sep|] == sep {
      var tail := Split(s[|sep|..], sep);
      SplitLeftmost(s[|sep|..], sep);
      SplitAtSeparator(s, sep);
      ShortNotContains("" + short, sep);
      forall k | 0 <= k < |r| - 1 ensures !Contains(r[k] + short, sep) {
        if k > 0 {
          assert r[k] == tail[k - 1];
        }
      }
    } else {
      var rest := Split(s[1..], sep);
      SplitLeftmost(s[1..], sep);
      SplitAtChar(s, sep);
      if |rest| > 1 {
        FirstCutLeftmost(s, sep);
      }
      forall k | 0 <= k < |r| - 1 ensures !Contains(r[k] + short, sep) {
        if k > 0 {
          assert r[k] == rest[k];
        }
      }
    }
  }

  /** The step of `SplitLeftmost` for the first piece of a text not starting with the separator. */
  lemma {:induction false} FirstCutLeftmost(s: string, sep: string)
    requires |sep| > 0 && |s| >= |sep| && s[..|sep|] != sep
    requires var rest := Split(s[1..], sep);
      |rest| > 1 && !Contains(rest[0] + sep[..|sep| - 1], sep)
    ensures var rest := Split(s[1..], sep);
      !Contains([s[0]] + rest[0] + sep[..|sep| - 1], sep)
  {
    var rest := Split(s[1..], sep);
    var short := sep[..|sep| - 1];
    var x := [s[0]] + rest[0] + short;
    SplitJoin(s[1..], sep);
    var after := Join(rest[1..], sep);
    assert s[1..] == rest[0] + sep + after;
    assert x[1..] == rest[0] + short;
    if |sep| <= |x| {
      PrefixThroughCut(s, rest[0], sep, after);
      assert x[..|sep|] == s[..|sep|];
    }
  }

  /** A text `c + p + sep + q` starts with `c + p` followed by all but the last character of `sep`. */
  lemma {:induction false} PrefixThroughCut(s: string, p: string, sep: string, q: string)
    requires |sep| > 0 && |s| > 0 && s[1..] == p + sep + q
    ensures ([s[0]] + p + sep[..|sep| - 1]) == s[..1 + |p| + |sep| - 1]
  {
    var x := [s[0]] + p + sep[..|sep| - 1];
    forall i | 0 <= i < |x| ensures x[i] == s[i] {
      if i > 0 {
        assert s[i] == (p + sep + q)[i - 1];
      }
    }
  }

  /** A text without the separator is a single piece. */
  lemma {:induction false} SplitNoSeparator(s: string, sep: string)
    requires |sep| > 0 && !Contains(s, sep)
    ensures Split(s, sep) == [s]
    decreases |s|
  {
    if |s| >= |sep| {
      assert s[..|sep|] != sep;
      SplitNoSeparator(s[1..], sep);
      SplitAtChar(s, sep);
      assert [s[0]] + s[1..] == s;
    }
  }

  /**
   * The pieces are determined by the text: pieces that join back to it, are
   * cut leftmost and end with a piece free of the separator are `Split`'s.
   */
  lemma {:induction false} SplitUnique(s: string, sep: string, pieces: seq<string>)
    requires |sep| > 0 && |pieces| >= 1
    requires Join(pieces, sep) == s
    requires LeftmostCuts(pieces, sep) && !Contains(pieces[|pieces| - 1], sep)
    ensures pieces == Split(s, sep)
    decreases |s|
  {
    if |pieces| == 1 {
      SplitNoSeparator(s, sep);
    } else if pieces[0] == "" {
      DropEmptyPiece(s, sep, pieces);
      SplitUnique(s[|sep|..], sep, pieces[1..]);
      SplitAtSeparator(s, sep);
      assert pieces == [""] + pieces[1..];
    } else {
      ShiftFirstPiece(s, sep, pieces);
      var shifted := [pieces[0][1..]] + pieces[1..];
      SplitUnique(s[1..], sep, shifted);
      SplitAtChar(s, sep);
      assert [pieces[0][0]] + pieces[0][1..] == pieces[0];
      assert pieces == [[s[0]] + shifted[0]] + shifted[1..];
    }
  }

  /** The step of `SplitUnique` for an empty first piece: the text starts with the separator. */
  lemma {:induction false} DropEmptyPiece(s: string, sep: string, pieces: seq<string>)
    requires |sep| > 0 && |pieces| > 1 && pieces[0] == ""
    requires Join(pieces, sep) == s
    requires LeftmostCuts(pieces, sep) && !Contains(pieces[|pieces| - 1], sep)
    ensures |s| >= |sep| && s[..|sep|] == sep
    ensures Join(pieces[1..], sep) == s[|sep|..]
    ensures LeftmostCuts(pieces[1..], sep) && !Contains(pieces[1..][|pieces| - 2], sep)
  {
    var after := Join(pieces[1..], sep);
    assert s == "" + sep + after;
    assert s[..|sep|] == sep && s[|sep|..] == after;
    forall k | 0 <= k < |pieces[1..]| - 1 ensures !Contains(pieces[1..][k] + sep[..|sep| - 1], sep) {
      assert pieces[1..][k] == pieces[k + 1];
    }
  }

  /** The step of `SplitUnique` for a first piece that is not empty: drop its first character. */
  lemma {:induction false} ShiftFirstPiece(s: string, sep: string, pieces: seq<string>)
    requires |sep| > 0 && |pieces| > 1 && pieces[0] != ""
    requires Join(pieces, sep) == s
    requires LeftmostCuts(pieces, sep) && !Contains(pieces[|pieces| - 1], sep)
    ensures |s| >= |sep| && s[..|sep|] != sep && s[0] == pieces[0][0]
    ensures var shifted := [pieces[0][1..]] + pieces[1..];
      && Join(shifted, sep) == s[1..]
      && LeftmostCuts(shifted, sep) && !Contains(shifted[|shifted| - 1], sep)
  {
    var short := sep[..|sep| - 1];
    var p0 := pieces[0];
    var after := Join(pieces[1..], sep);
    var shifted := [p0[1..]] + pieces[1..];
    assert s == p0 + sep + after;
    assert !Contains(p0 + short, sep);
    assert (p0 + short)[1..] == p0[1..] + short;
    assert (p0 + short)[..|sep|] == s[..|sep|];
    assert shifted[1..] == pieces[1..];
    JoinCons(p0[0], shifted, sep);
    assert [p0[0]] + p0[1..] == p0;
    assert s == [s[0]] + s[1..];
    forall k | 0 <= k < |shifted| - 1 ensures !Contains(shifted[k] + short, sep) {
      if k > 0 {
        assert shifted[k] == pieces[k];
      }
    }
  }

  /** No piece contains the separator. */
  predicate Separated(pieces: seq<string>, sep: string) {
    forall k :: 0 <= k < |pieces| ==> !Contains(pieces[k], sep)
  }

  /** `pieces.join(sep)` */
  function Join(pieces: seq<string>, sep: string): string
    requires |pieces| >= 1
  {
    if |pieces| == 1 then pieces[0] else pieces[0] + sep + Join(pieces[1..], sep)
  }

  /** Joining the pieces with the separator gives back the text. */
  lemma {:induction false} SplitJoin(s: string, sep: string)
    requires |sep| > 0
    ensures Join(Split(s, sep), sep) == s
    decreases |s|
  {
    if |s| < |sep| {
      assert Split(s, sep) == [s];
    } else if s[..|sep|] == sep {
      SplitJoin(s[|sep|..], sep);
      JoinAfterSeparator(s, sep);
    } else {
      SplitJoin(s[1..], sep);
      JoinAfterChar(s, sep);
    }
  }

  /** The step of `SplitJoin` for a text that starts with the separator. */
  lemma {:induction false} JoinAfterSeparator(s: string, sep: string)
    requires |sep| > 0 && |s| >= |sep| && s[..|sep|] == sep
    requires Join(Split(s[|sep|..], sep), sep) == s[|sep|..]
    ensures Join(Split(s, sep), sep) == s
  {
    var tail := Split(s[|sep|..], sep);
    var r := [""] + tail;
    assert Split(s, sep) == r;
    assert r[1..] == tail;
    assert Join(r, sep) == "" + sep + Join(tail, sep);
    assert s == s[..|sep|] + s[|sep|..];
  }

  /** The step of `SplitJoin` for a text whose first character starts the first piece. */
  lemma {:induction false} JoinAfterChar(s: string, sep: string)
    requires |sep| > 0 && |s| >= |sep| && s[..|sep|] != sep
    requires Join(Split(s[1..], sep), sep) == s[1..]
    ensures Join(Split(s, sep), sep) == s
  {
    SplitAtChar(s, sep);
    JoinCons(s[0], Split(s[1..], sep), sep);
    assert s == [s[0]] + s[1..];
  }

  /** Prefixing the first piece with a character prefixes the joined text with it. */
  lemma {:induction false} JoinCons(c: char, pieces: seq<string>, sep: string)
    requires |pieces| >= 1
    ensures Join([[c] + pieces[0]] + pieces[1..], sep) == [c] + Join(pieces, sep)
  {
    var r := [[c] + pieces[0]] + pieces[1..];
    if |pieces| > 1 {
      assert r[1..] == pieces[1..];
    }
  }

  /**
   * Text arriving later never moves a cut already made: splitting `t + c`
   * keeps every piece of `t` but the last, and re-splits that last piece
   * together with `c`.
   */
  lemma {:induction false} SplitAppend(t: string, c: string, sep: string)
    requires |sep| > 0
    ensures var p := Split(t, sep);
      Split(t + c, sep) == p[..|p| - 1] + Split(p[|p| - 1] + c, sep)
    decreases |t|
  {
    if |t| < |sep| {
      assert Split(t, sep) == [t];
    } else if t[..|sep|] == sep {
      SplitAppend(t[|sep|..], c, sep);
      AppendAfterSeparator(t, c, sep);
    } else {
      SplitAppend(t[1..], c, sep);
      AppendAfterChar(t, c, sep);
    }
  }

  /** `Split` on a text that starts with the separator. */
  lemma {:induction false} SplitAtSeparator(s: string, sep: string)
    requires |sep| > 0 && |s| >= |sep| && s[..|sep|] == sep
    ensures Split(s, sep) == [""] + Split(s[|sep|..], sep)
  {
  }

  /** `Split` on a text that does not start with the separator. */
  lemma {:induction false} SplitAtChar(s: string, sep: string)
    requires |sep| > 0 && |s| >= |sep| && s[..|sep|] != sep
    ensures var rest := Split(s[1..], sep);
      Split(s, sep) == [[s[0]] + rest[0]] + rest[1..]
  {
  }

  /** The step of `SplitAppend` for a text that starts with the separator. */
  lemma {:induction false} AppendAfterSeparator(t: string, c: string, sep: string)
    requires |sep| > 0 && |t| >= |sep| && t[..|sep|] == sep
    requires var p := Split(t[|sep|..], sep);
      Split(t[|sep|..] + c, sep) == p[..|p| - 1] + Split(p[|p| - 1] + c, sep)
    ensures var p := Split(t, sep);
      Split(t + c, sep) == p[..|p| - 1] + Split(p[|p| - 1] + c, sep)
  {
    var u := t[|sep|..];
    var tail := Split(u, sep);
    var last := tail[|tail| - 1];
    SplitAtSeparator(t, sep);
    assert (t + c)[..|sep|] == t[..|sep|];
    assert (t + c)[|sep|..] == u + c;
    SplitAtSeparator(t + c, sep);
    var p := [""] + tail;
    assert p[..|p| - 1] == [""] + tail[..|tail| - 1];
    assert p[|p| - 1] == last;
    calc {
      Split(t + c, sep);
      [""] + Split(u + c, sep);
      [""] + (tail[..|tail| - 1] + Split(last + c, sep));
      p[..|p| - 1] + Split(last + c, sep);
    }
  }

  /** The step of `SplitAppend` for a text that does not start with the separator. */
  lemma {:induction false} AppendAfterChar(t: string, c: string, sep: string)
    requires |sep| > 0 && |t| >= |sep| && t[..|sep|] != sep
    requires var p := Split(t[1..], sep);
      Split(t[1..] + c, sep) == p[..|p| - 1] + Split(p[|p| - 1] + c, sep)
    ensures var p := Split(t, sep);
      Split(t + c, sep) == p[..|p| - 1] + Split(p[|p| - 1] + c, sep)
  {
    var rest := Split(t[1..], sep);
    SplitAtChar(t, sep);
    if |rest| == 1 {
      SinglePiece(t[1..], sep);
      assert [t[0]] + t[1..] == t;
      assert Split(t, sep) == [t];
    } else {
      assert (t + c)[..|sep|] == t[..|sep|];
      assert (t + c)[1..] == t[1..] + c;
      assert (t + c)[0] == t[0];
      SplitAtChar(t + c, sep);
      PiecesStep([t[0]], rest, Split(t[1..] + c, sep), Split(rest[|rest| - 1] + c, sep));
    }
  }

  /** A text split into one piece is that piece. */
  lemma {:induction false} SinglePiece(s: string, sep: string)
    requires |sep| > 0 && |Split(s, sep)| == 1
    ensures Split(s, sep) == [s]
  {
    SplitJoin(s, sep);
  }

  /** The list algebra of the `AppendAfterChar` step, with the splits as plain sequences. */
  lemma {:induction false} PiecesStep(h: string, rest: seq<string>, rest': seq<string>, last: seq<string>)
    requires |rest| > 1 && rest' == rest[..|rest| - 1] + last
    ensures var p := [h + rest[0]] + rest[1..];
      [h + rest'[0]] + rest'[1..] == p[..|p| - 1] + last
  {
    var p := [h + rest[0]] + rest[1..];
    assert rest'[0] == rest[0];
    assert rest'[1..] == rest[1..|rest| - 1] + last;
    assert p[..|p| - 1] == [h + rest[0]] + rest[1..|rest| - 1];
  }

  /** The frame separator. */
  const FRAME_END := "\n\n"

  /** One dispatched event: its type and its parsed data. */
  datatype Event = Event(kind: string, data: Json)

  /** `event: ` and `data: ` lines: the last of each wins; the type defaults to `'message'`. */
  datatype Fields = Fields(kind: string, data: string)

  /** The fields after the line loop has read `lines`. */
  function ReadLines(lines: seq<string>): (f: Fields)
    decreases |lines|
  {
    if lines == [] then Fields("message", "")
    else
      var prev := ReadLines(lines[..|lines| - 1]);
      var line := lines[|lines| - 1];
      if StartsWith(line, "event: ") then prev.(kind := line[7..])
      else if StartsWith(line, "data: ") then prev.(data := line[6..])
      else prev
  }

  /** A line starting with `event: ` does not start with `data: `. */
  lemma {:induction false} EventLineIsNotData(line: string)
    requires StartsWith(line, "event: ")
    ensures !StartsWith(line, "data: ")
  {
    assert line[0] == 'e';
  }

  /** The data field is the rest of the last `data: ` line. */
  lemma {:induction false} LastDataWins(lines: seq<string>, j: nat)
    requires j < |lines| && StartsWith(lines[j], "data: ")
    requires forall i :: j < i < |lines| ==> !StartsWith(lines[i], "data: ")
    ensures ReadLines(lines).data == lines[j][6..]
    decreases |lines|
  {
    var line := lines[|lines| - 1];
    if j == |lines| - 1 {
      if StartsWith(line, "event: ") {
        EventLineIsNotData(line);
      }
    } else {
      var init := lines[..|lines| - 1];
      LastDataWins(init, j);
    }
  }

  /** Without a `data: ` line the data field stays empty. */
  lemma {:induction false} NoDataLine(lines: seq<string>)
    requires forall i :: 0 <= i < |lines| ==> !StartsWith(lines[i], "data: ")
    ensures ReadLines(lines).data == ""
    decreases |lines|
  {
    if lines != [] {
      NoDataLine(lines[..|lines| - 1]);
    }
  }

  /** The event type is the rest of the last `event: ` line. */
  lemma {:induction false} LastEventWins(lines: seq<string>, j: nat)
    requires j < |lines| && StartsWith(lines[j], "event: ")
    requires forall i :: j < i < |lines| ==> !StartsWith(lines[i], "event: ")
    ensures ReadLines(lines).kind == lines[j][7..]
    decreases |lines|
  {
    if j < |lines| - 1 {
      LastEventWins(lines[..|lines| - 1], j);
    }
  }

  /** Without an `event: ` line the type is `'message'`. */
  lemma {:induction false} NoEventLine(lines: seq<string>)
    requires forall i :: 0 <= i < |lines| ==> !StartsWith(lines[i], "event: ")
    ensures ReadLines(lines).kind == "message"
    decreases |lines|
  {
    if lines != [] {
      NoEventLine(lines[..|lines| - 1]);
    }
  }

  /** `line.startsWith('event: ')`, with the `data: ` case as an `else`. */
  method ParseFrame(frame: string) returns (kind: string, data: string)
    ensures Fields(kind, data) == ReadLines(Split(frame, "\n"))
  {
    var lines := Split(frame, "\n");
    kind := "message";
    data := "";
    for i := 0 to |lines|
      invariant Fields(kind, data) == ReadLines(lines[..i])
    {
      assert lines[..i + 1][..i] == lines[..i];
      var line := lines[i];
      if StartsWith(line, "event: ") {
        kind := line[7..];
      } else if StartsWith(line, "data: ") {
        data := line[6..];
      }
    }
    assert lines[..|lines|] == lines;
  }

  /** `JSON.parse`: `None` for text that is not JSON. */
  type Parser = string -> Option<Json>

  /** What one frame dispatches: nothing for a blank frame, for no data, or for data that does not parse. */
  function FrameEvents(frame: string, parse: Parser): (r: seq<Event>)
    ensures |r| <= 1
    ensures IsBlank(frame) ==> r == []
    ensures r != [] ==> r[0].kind == ReadLines(Split(frame, "\n")).kind
    ensures var data := ReadLines(Split(frame, "\n")).data;
      r != [] <==> Trim(frame) != "" && data != "" && parse(data).Some?
    ensures r != [] ==> r[0].data == parse(ReadLines(Split(frame, "\n")).data).value
  {
    if Trim(frame) == "" then []
    else
      var f := ReadLines(Split(frame, "\n"));
      if f.data == "" then []
      else
        match parse(f.data)
        case None => []
        case Some(j) => [Event(f.kind, j)]
  }

  /** The events of a run of frames, in order. */
  function EventsOf(frames: seq<string>, parse: Parser): seq<Event> {
    Flatten(frames, FrameEventsOf(parse))
  }

  /** `FrameEvents` with the parser fixed. */
  function FrameEventsOf(parse: Parser): string -> seq<Event> {
    frame => FrameEvents(frame, parse)
  }

  /** The events of each frame, one frame after another. */
  function Flatten(frames: seq<string>, events: string -> seq<Event>): seq<Event>
    decreases |frames|
  {
    if frames == [] then []
    else Flatten(frames[..|frames| - 1], events) + events(frames[|frames| - 1])
  }

  /** One more frame adds its own events at the end. */
  lemma {:induction false} EventsOfSnoc(frames: seq<string>, last: string, parse: Parser)
    ensures EventsOf(frames + [last], parse) == EventsOf(frames, parse) + FrameEvents(last, parse)
  {
    var s := frames + [last];
    assert s[..|s| - 1] == frames && s[|s| - 1] == last;
  }

  lemma {:induction false} FlattenAppend(a: seq<string>, b: seq<string>, events: string -> seq<Event>)
    ensures Flatten(a + b, events) == Flatten(a, events) + Flatten(b, events)
    decreases |b|
  {
    if b != [] {
      var b' := b[..|b| - 1];
      assert (a + b)[..|a + b| - 1] == a + b';
      FlattenAppend(a, b', events);
    } else {
      assert a + b == a;
    }
  }

  /** The events of consecutive runs of frames are concatenated in order. */
  lemma {:induction false} EventsOfAppend(a: seq<string>, b: seq<string>, parse: Parser)
    ensures EventsOf(a + b, parse) == EventsOf(a, parse) + EventsOf(b, parse)
  {
    FlattenAppend(a, b, FrameEventsOf(parse));
  }

  /** The concatenated chunks. */
  function Concat(chunks: seq<string>): string
    decreases |chunks|
  {
    if chunks == [] then "" else Concat(chunks[..|chunks| - 1]) + chunks[|chunks| - 1]
  }

  /** The complete frames in a text: every piece but the last. */
  function CompleteFrames(text: string): seq<string> {
    var p := Split(text, FRAME_END);
    p[..|p| - 1]
  }

  /** What is left after the complete frames. */
  function Remainder(text: string): string {
    var p := Split(text, FRAME_END);
    p[|p| - 1]
  }

  /** One read: the new complete frames are those of the old remainder followed by the chunk. */
  lemma {:induction false} StreamStep(text: string, chunk: string)
    ensures var q := Split(Remainder(text) + chunk, FRAME_END);
      && CompleteFrames(text + chunk) == CompleteFrames(text) + q[..|q| - 1]
      && Remainder(text + chunk) == q[|q| - 1]
  {
    SplitAppend(text, chunk, FRAME_END);
  }

  /** The body of the frame loop: skip a blank frame, parse its lines, dispatch parsed data. */
  method HandleFrame(frame: string, parse: Parser) returns (events: seq<Event>)
    ensures events == FrameEvents(frame, parse)
  {
    events := [];
    if Trim(frame) == "" {
      return;
    }
    var kind, data := ParseFrame(frame);
    if data != "" {
      var parsed := parse(data);
      if parsed.Some? {
        events := [Event(kind, parsed.value)];
      }
    }
  }

  /** `for (const chunk of lines)`: the complete frames of one read, in order. */
  method HandleFrames(frames: seq<string>, parse: Parser) returns (events: seq<Event>)
    ensures events == EventsOf(frames, parse)
  {
    events := [];
    for k := 0 to |frames|
      invariant events == EventsOf(frames[..k], parse)
    {
      assert frames[..k + 1][..k] == frames[..k];
      var handled := HandleFrame(frames[k], parse);
      events := events + handled;
    }
    assert frames[..|frames|] == frames;
  }

  /**
   * The read loop of `handleSearch`: for each decoded chunk, append it to
   * the buffer, split at `"\n\n"`, keep the last piece as the buffer and
   * handle the complete frames in order. However the stream is cut into
   * chunks, the events are those of the complete frames of the whole text.
   */
  method ReadStream(chunks: seq<string>, parse: Parser) returns (events: seq<Event>, buffer: string)
    ensures events == EventsOf(CompleteFrames(Concat(chunks)), parse)
    ensures buffer == Remainder(Concat(chunks))
  {
    buffer := "";
    events := [];
    for i := 0 to |chunks|
      invariant buffer == Remainder(Concat(chunks[..i]))
      invariant events == EventsOf(CompleteFrames(Concat(chunks[..i])), parse)
    {
      assert chunks[..i + 1][..i] == chunks[..i];
      ghost var text := Concat(chunks[..i]);
      assert Concat(chunks[..i + 1]) == text + chunks[i];
      var pieces := Split(buffer + chunks[i], FRAME_END);
      StreamStep(text, chunks[i]);
      var frames := pieces[..|pieces| - 1];
      buffer := pieces[|pieces| - 1];
      var handled := HandleFrames(frames, parse);
      EventsOfAppend(CompleteFrames(text), frames, parse);
      events := events + handled;
    }
    assert chunks[..|chunks|] == chunks;
  }

  /** A complete frame is never split again: the events of a text are a prefix of those of any extension. */
  lemma {:induction false} CompleteFramesStable(t: string, c: string, parse: Parser)
    ensures CompleteFrames(t) <= CompleteFrames(t + c)
    ensures EventsOf(CompleteFrames(t), parse) <= EventsOf(CompleteFrames(t + c), parse)
  {
    StreamStep(t, c);
    var q := Split(Remainder(t) + c, FRAME_END);
    var more := q[..|q| - 1];
    assert CompleteFrames(t + c) == CompleteFrames(t) + more;
    EventsOfAppend(CompleteFrames(t), more, parse);
  }

  /** A decimal digit. */
  function DigitChar(d: nat): char
    requires d < 10
  {
    "0123456789"[d]
  }

  /** `n.toString()` */
  function Show(n: nat): (r: string)
    ensures 1 <= |r|
    ensures n < 10 <==> |r| == 1
    ensures forall i :: 0 <= i < |r| ==> '0' <= r[i] <= '9'
  {
    if n < 10 then [DigitChar(n)] else Show(n / 10) + [DigitChar(n % 10)]
  }

  /** The value of a string of decimal digits. */
  function Value(s: string): nat
    decreases |s|
  {
    if s == [] then 0
    else
      var c := s[|s| - 1];
      Value(s[..|s| - 1]) * 10 + (if '0' <= c <= '9' then (c as int - '0' as int) else 0)
  }

  lemma {:induction false} DigitValue(d: nat)
    requires d < 10
    ensures DigitChar(d) as int - '0' as int == d
  {
  }

  /** Reading back a shown number gives the number. */
  lemma {:induction false} ValueShow(n: nat)
    ensures Value(Show(n)) == n
  {
    if n < 10 {
      DigitValue(n);
      assert Show(n)[..0] == [];
    } else {
      ValueShow(n / 10);
      DigitValue(n % 10);
      assert (Show(n / 10) + [DigitChar(n % 10)])[..|Show(n)| - 1] == Show(n / 10);
    }
  }

  /** `String(x).padStart(2, '0')` */
  function Pad2(s: string): (r: string)
    ensures |r| == if |s| < 2 then 2 else |s|
    ensures |s| >= 2 ==> r == s
  {
    if |s| < 2 then seq(2 - |s|, _ => '0') + s else s
  }

  /** Leading zeros do not change a value. */
  lemma {:induction false} ValueLeadingZero(s: string)
    ensures Value("0" + s) == Value(s)
    decreases |s|
  {
    if s != [] {
      assert ("0" + s)[..|"0" + s| - 1] == "0" + s[..|s| - 1];
      ValueLeadingZero(s[..|s| - 1]);
    }
  }

  lemma {:induction false} ValuePad2(s: string)
    ensures Value(Pad2(s)) == Value(s)
  {
    if |s| == 0 {
      assert Pad2(s) == "0" + "0";
      ValueLeadingZero("0");
      ValueLeadingZero("");
    } else if |s| == 1 {
      assert Pad2(s) == "0" + s;
      ValueLeadingZero(s);
    }
  }

  /** `formatTime(seconds)`: zero-padded whole minutes, a colon, zero-padded seconds. */
  function FormatTime(seconds: nat): (r: string)
    ensures |r| >= 5 && r[|r| - 3] == ':'
  {
    Pad2(Show(seconds / 60)) + ":" + Pad2(Show(seconds % 60))
  }

  /** `mm:ss` read back: the minutes before the colon, the two-digit seconds after it. */
  function ParseTime(t: string): nat
    requires |t| >= 3
  {
    Value(t[..|t| - 3]) * 60 + Value(t[|t| - 2..])
  }

  /** A number below 100 shows as at most two digits. */
  lemma {:induction false} ShowBelowHundred(n: nat)
    requires n < 100
    ensures |Show(n)| <= 2
  {
    if n >= 10 {
      assert Show(n) == Show(n / 10) + [DigitChar(n % 10)];
    }
  }

  /** The two fields of a `mm:ss` text, read back from its ends. */
  lemma {:induction false} TimeFields(m: string, s: string)
    requires |s| == 2
    ensures var t := m + ":" + s;
      |t| >= 3 && t[..|t| - 3] == m && t[|t| - 2..] == s
  {
  }

  /** The seconds field is two digits below 60, and reading the text back gives the elapsed seconds. */
  lemma {:induction false} FormatTimeRoundTrip(seconds: nat)
    ensures var t := FormatTime(seconds);
      && t[|t| - 2..] == Pad2(Show(seconds % 60))
      && |t[|t| - 2..]| == 2
      && ParseTime(t) == seconds
  {
    var m := Pad2(Show(seconds / 60));
    var s := Pad2(Show(seconds % 60));
    ShowBelowHundred(seconds % 60);
    TimeFields(m, s);
    ValuePad2(Show(seconds / 60));
    ValuePad2(Show(seconds % 60));
    ValueShow(seconds / 60);
    ValueShow(seconds % 60);
  }

  /** The colour band of a score. */
  datatype Band = Green | Yellow | Red

  function Rank(b: Band): nat {
    match b
    case Red => 0
    case Yellow => 1
    case Green => 2
  }

  /** Green from 80, yellow from 70, red below. */
  function ScoreBand(score: real): (b: Band)
    ensures b == Green <==> score >= 80.0
    ensures b == Yellow <==> 70.0 <= score < 80.0
    ensures b == Red <==> score < 70.0
  {
    if score >= 80.0 then Green else if score >= 70.0 then Yellow else Red
  }

  /** A higher score never gets a worse band. */
  lemma {:induction false} BandMonotone(a: real, b: real)
    requires a <= b
    ensures Rank(ScoreBand(a)) <= Rank(ScoreBand(b))
  {
  }

  /** `data.validation?.overall_score || 0`: a missing or zero score is shown as 0 and is red. */
  function ShownScore(score: Option<real>): (r: real)
    ensures score.Some? ==> r == score.value
    ensures score.None? ==> r == 0.0 && ScoreBand(r) == Red
  {
    if score.Some? then score.value else 0.0
  }

  /** `typeLabels[equivalenceType] || equivalenceType` with `equivalence_type || 'unknown'`. */
  function EquivalenceLabel(kind: Option<string>): (shown: string)
    ensures kind.None? || kind.value == "" ==> shown == "unknown"
    ensures kind == Some("exact") ==> shown == "Точный"
    ensures kind == Some("close") ==> shown == "Близкий"
    ensures kind == Some("approximate") ==> shown == "Приблизительный"
    ensures kind.Some? && kind.value !in {"", "exact", "close", "approximate"} ==> shown == kind.value
  {
    var k := if kind.Some? && kind.value != "" then kind.value else "unknown";
    if k == "exact" then "Точный"
    else if k == "close" then "Близкий"
    else if k == "approximate" then "Приблизительный"
    else k
  }

  /** The criteria with a fixed label. */
  const CRITERIA_LABELS: map<string, string> := map[
    "completeness" := "Полнота данных",
    "accuracy" := "Точность",
    "relevance" := "Релевантность",
    "consistency" := "Согласованность",
    "source_quality" := "Качество источников",
    "technical_details" := "Технические детали",
    "practical_usability" := "Применимость",
    "technical_accuracy" := "Техническая точность",
    "dimensional_compatibility" := "Размерная совместимость",
    "pressure_temperature_ratings" := "Давление/температура",
    "material_equivalence" := "Эквивалентность материалов",
    "regulatory_compliance" := "Соответствие регуляциям",
    "practical_applicability" := "Практическая применимость",
    "safety_considerations" := "Безопасность"]

  /** `key.replace(/_/g, ' ')` */
  function Underscores(key: string): (r: string)
    ensures |r| == |key|
    ensures forall i :: 0 <= i < |key| ==> r[i] == (if key[i] == '_' then ' ' else key[i])
  {
    if key == [] then [] else [if key[0] == '_' then ' ' else key[0]] + Underscores(key[1..])
  }

  /** `criteriaLabels[key] || key.replace(/_/g, ' ')` */
  function CriteriaLabel(key: string): (shown: string)
    ensures key in CRITERIA_LABELS ==> shown == CRITERIA_LABELS[key]
    ensures key !in CRITERIA_LABELS ==> shown == Underscores(key) && '_' !in shown
  {
    if key in CRITERIA_LABELS then CRITERIA_LABELS[key] else Underscores(key)
  }
}
