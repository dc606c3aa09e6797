/**
 * The frame parser of the streaming client (`MessageStream::recv` in
 * anthropoki/src/lib.rs): a byte buffer, fed by the transport in chunks of
 * any size, drained one newline-terminated line at a time; every frame is
 * three lines, `event: ...`, `data: <json>` and one more.
 *
 * `Recv` is proved against `NextFrame`, a reading of the concatenated bytes
 * alone, so where the chunk boundaries fall never changes the result.
 */
module Frames {
  import opened Wrappers
  import opened Client

  newtype byte = x: int | 0 <= x < 256

  const NL: byte := 10
  const CR: byte := 13

  /** One item of the transport's byte stream. */
  datatype Chunk = Bytes(bytes: seq<byte>) | Failure(error: TransportError)

  /** The number of chunks before the first transport failure. */
  function FirstFailure(chunks: seq<Chunk>): (k: nat)
    ensures k <= |chunks|
    ensures k < |chunks| ==> chunks[k].Failure?
  {
    if chunks == [] || chunks[0].Failure? then 0 else 1 + FirstFailure(chunks[1..])
  }

  /** Every chunk before `FirstFailure` delivered bytes, so the failure it names is the first. */
  lemma {:induction false} FirstFailureIsFirst(chunks: seq<Chunk>, i: nat)
    requires i < FirstFailure(chunks)
    ensures chunks[i].Bytes?
  {
    if i > 0 {
      FirstFailureIsFirst(chunks[1..], i - 1);
    }
  }

  /** All bytes the transport delivers before its first failure, in order. */
  function BytesBefore(chunks: seq<Chunk>): seq<byte>
  {
    if chunks == [] || chunks[0].Failure? then [] else chunks[0].bytes + BytesBefore(chunks[1..])
  }

  /** The first line of `s`, newline included, and what follows it. */
  function SplitLine(s: seq<byte>): (r: Option<(seq<byte>, seq<byte>)>)
    ensures r.None? <==> NL !in s
    ensures r.Some? ==> var (line, rest) := r.value;
      s == line + rest && |line| > 0 && line[|line| - 1] == NL && NL !in line[..|line| - 1]
  {
    if s == [] then None
    else if s[0] == NL then Some(([NL], s[1..]))
    else match SplitLine(s[1..])
      case None => None
      case Some((line, rest)) => Some(([s[0]] + line, rest))
  }

  /** A byte sequence has only one first line. */
  lemma {:induction false} FirstLineUnique(l1: seq<byte>, r1: seq<byte>, l2: seq<byte>, r2: seq<byte>)
    requires l1 + r1 == l2 + r2
    requires |l1| > 0 && l1[|l1| - 1] == NL && NL !in l1[..|l1| - 1]
    requires |l2| > 0 && l2[|l2| - 1] == NL && NL !in l2[..|l2| - 1]
    ensures l1 == l2 && r1 == r2
  {
    var s := l1 + r1;
    assert s[|l1| - 1] == NL && s[|l2| - 1] == NL;
    assert forall i :: 0 <= i < |l1| - 1 ==> l1[..|l1| - 1][i] == s[i];
    assert forall i :: 0 <= i < |l2| - 1 ==> l2[..|l2| - 1][i] == s[i];
    assert l1 == s[..|l1|] == l2;
  }

  /** Bytes appended after a complete line do not change where the line ends. */
  lemma {:induction false} SplitLineExtended(s: seq<byte>, t: seq<byte>)
    requires NL in s
    ensures SplitLine(s + t).Some?
    ensures SplitLine(s + t).value == (SplitLine(s).value.0, SplitLine(s).value.1 + t)
  {
    var (line, rest) := SplitLine(s).value;
    assert NL in s + t by { assert (s + t)[|line| - 1] == NL; }
    var (line', rest') := SplitLine(s + t).value;
    assert line + (rest + t) == s + t;
    FirstLineUnique(line, rest + t, line', rest');
  }

  /** `char::is_whitespace` on ASCII. */
  predicate IsSpace(b: byte) { b == 9 || b == 10 || b == 11 || b == 12 || b == 13 || b == 32 }

  function TrimStart(s: seq<byte>): seq<byte>
  {
    if s != [] && IsSpace(s[0]) then TrimStart(s[1..]) else s
  }

  function TrimEnd(s: seq<byte>): seq<byte>
  {
    if s != [] && IsSpace(s[|s| - 1]) then TrimEnd(s[..|s| - 1]) else s
  }

  /** `str::trim`. */
  function Trim(s: seq<byte>): seq<byte>
  {
    TrimEnd(TrimStart(s))
  }

  /** Trailing whitespace after a non-blank end is removed exactly. */
  lemma {:induction false} TrimEndOfPadded(x: seq<byte>, w: seq<byte>)
    requires x == [] || !IsSpace(x[|x| - 1])
    requires forall i :: 0 <= i < |w| ==> IsSpace(w[i])
    ensures TrimEnd(x + w) == x
  {
    if w != [] {
      assert (x + w)[..|x + w| - 1] == x + w[..|w| - 1];
      TrimEndOfPadded(x, w[..|w| - 1]);
    }
  }

  /** `"event: "` and `"data: "` as bytes. */
  const EventPrefix: seq<byte> := [101, 118, 101, 110, 116, 58, 32]
  const DataPrefix: seq<byte> := [100, 97, 116, 97, 58, 32]

  predicate HasPrefix(s: seq<byte>, p: seq<byte>) { |p| <= |s| && s[..|p|] == p }

  /** What one call of `recv` returns; a panic of the Rust code is an outcome here. */
  datatype StreamResult =
    | Next(event: ResponseEvent)
    | Finished
    | Failed(error: AnthropicError)
    | Panicked(reason: string)

  /**
   * JSON decoding of a `data:` payload, abstract. The payload is read as an
   * optional event: JSON `null` decodes to `None`.
   */
  type Decoder = seq<byte> -> Result<Option<ResponseEvent>, string>

  /** How far a frame got: its result once one is determined, and the bytes left over. */
  datatype Scan = Scan(outcome: Option<StreamResult>, rest: seq<byte>)

  const EventLinePanic: string := "assertion failed: line.strip_prefix(\"event: \").is_some()"
  const DataLinePanic: string := "called `Option::unwrap()` on a `None` value"

  /** After one line: the frame continues in a new phase, or its result is known. */
  datatype LineResult = Continue(phase: nat, data: Option<Option<ResponseEvent>>) | Stop(result: StreamResult)

  /** What line `phase` of a frame (0, 1 or 2) does; `data` is the payload decoded from line 1. */
  function LineStep(phase: nat, data: Option<Option<ResponseEvent>>, line: seq<byte>, decode: Decoder): (lr: LineResult)
    requires phase < 3 && (phase == 2 ==> data.Some?)
    ensures lr.Continue? ==> lr.phase == phase + 1 && lr.phase < 3 && (lr.phase == 2 ==> lr.data.Some?)
    ensures phase == 0 ==>
      lr == if HasPrefix(Trim(line), EventPrefix) then Continue(1, data) else Stop(Panicked(EventLinePanic))
    ensures phase == 1 && !HasPrefix(Trim(line), DataPrefix) ==> lr == Stop(Panicked(DataLinePanic))
    ensures phase == 1 && HasPrefix(Trim(line), DataPrefix) ==>
      var decoded := decode(Trim(line)[|DataPrefix|..]);
      lr == if decoded.Err? then Stop(Failed(Serde(decoded.error))) else Continue(2, Some(decoded.value))
    ensures phase == 2 ==> lr == Stop(if data.value.Some? then Next(data.value.value) else Finished)
  {
    var t := Trim(line);
    if phase == 0 then
      if HasPrefix(t, EventPrefix) then Continue(1, data) else Stop(Panicked(EventLinePanic))
    else if phase == 1 then
      if !HasPrefix(t, DataPrefix) then Stop(Panicked(DataLinePanic))
      else match decode(t[|DataPrefix|..])
        case Err(d) => Stop(Failed(Serde(d)))
        case Ok(event) => Continue(2, Some(event))
    else match data.value
      case Some(event) => Stop(Next(event))
      case None => Stop(Finished)
  }

  /**
   * Reads the frame lines of `s` from `phase` (0, 1 or 2 lines of the frame
   * already read; `data` is the decoded payload once line 1 is read).
   */
  function ScanFrame(phase: nat, data: Option<Option<ResponseEvent>>, s: seq<byte>, decode: Decoder): (sc: Scan)
    requires phase < 3 && (phase == 2 ==> data.Some?)
    ensures |sc.rest| <= |s|
    ensures sc.outcome.None? ==> NL !in sc.rest
    decreases |s|
  {
    match SplitLine(s)
    case None => Scan(None, s)
    case Some((line, rest)) =>
      match LineStep(phase, data, line, decode)
      case Stop(result) => Scan(Some(result), rest)
      case Continue(phase', data') => ScanFrame(phase', data', rest, decode)
  }

  /** A suffix of a suffix is a suffix. */
  lemma SuffixOfSuffix(s: seq<byte>, mid: seq<byte>, r: seq<byte>)
    requires |mid| <= |s| && mid == s[|s| - |mid|..]
    requires |r| <= |mid| && r == mid[|mid| - |r|..]
    ensures r == s[|s| - |r|..]
  {
  }

  /** Reading a frame only consumes bytes from the front: what is left is a suffix of the input. */
  lemma {:induction false} ScanFrameLeavesSuffix(phase: nat, data: Option<Option<ResponseEvent>>, s: seq<byte>, decode: Decoder)
    requires phase < 3 && (phase == 2 ==> data.Some?)
    ensures var sc := ScanFrame(phase, data, s, decode); sc.rest == s[|s| - |sc.rest|..]
    decreases |s|
  {
    if SplitLine(s).Some? {
      var (line, rest) := SplitLine(s).value;
      assert rest == s[|s| - |rest|..];
      var lr := LineStep(phase, data, line, decode);
      if lr.Continue? {
        assert ScanFrame(phase, data, s, decode) == ScanFrame(lr.phase, lr.data, rest, decode);
        ScanFrameLeavesSuffix(lr.phase, lr.data, rest, decode);
        SuffixOfSuffix(s, rest, ScanFrame(lr.phase, lr.data, rest, decode).rest);
      }
    }
  }

  /** The next frame of a byte sequence, read from its start. */
  function NextFrame(s: seq<byte>, decode: Decoder): Scan
  {
    ScanFrame(0, None, s, decode)
  }

  /** Once a frame's result is determined, later bytes only lengthen what is left over. */
  lemma {:induction false} FrameStableUnderExtension(phase: nat, data: Option<Option<ResponseEvent>>, s: seq<byte>, t: seq<byte>, decode: Decoder)
    requires phase < 3 && (phase == 2 ==> data.Some?)
    requires ScanFrame(phase, data, s, decode).outcome.Some?
    decreases |s|
    ensures ScanFrame(phase, data, s + t, decode)
         == Scan(ScanFrame(phase, data, s, decode).outcome, ScanFrame(phase, data, s, decode).rest + t)
  {
    SplitLineExtended(s, t);
    var (line, rest) := SplitLine(s).value;
    assert SplitLine(s + t) == Some((line, rest + t));
    var lr := LineStep(phase, data, line, decode);
    if lr.Continue? {
      assert ScanFrame(phase, data, s, decode) == ScanFrame(lr.phase, lr.data, rest, decode);
      FrameStableUnderExtension(lr.phase, lr.data, rest, t, decode);
      assert ScanFrame(phase, data, s + t, decode) == ScanFrame(lr.phase, lr.data, rest + t, decode);
    } else {
      assert ScanFrame(phase, data, s, decode) == Scan(Some(lr.result), rest);
      assert ScanFrame(phase, data, s + t, decode) == Scan(Some(lr.result), rest + t);
    }
  }

  /** A line `prefix + x` ended by `eol` (one newline, or carriage return and newline). */
  lemma {:induction false} TrimmedLine(prefix: seq<byte>, x: seq<byte>, eol: seq<byte>)
    requires eol == [NL] || eol == [CR, NL]
    requires |prefix| > 0 && !IsSpace(prefix[0])
    requires |x| > 0 && !IsSpace(x[|x| - 1])
    ensures Trim(prefix + x + eol) == prefix + x
  {
    assert TrimStart(prefix + x + eol) == prefix + x + eol;
    TrimEndOfPadded(prefix + x, eol);
  }

  lemma {:induction false} SplitAt(x: seq<byte>, eol: seq<byte>, t: seq<byte>)
    requires eol == [NL] || eol == [CR, NL]
    requires NL !in x
    ensures SplitLine(x + eol + t) == Some((x + eol, t))
  {
    var s := x + eol + t;
    assert (x + eol)[..|x + eol| - 1] == x + eol[..|eol| - 1];
    assert NL in s by { assert s[|x + eol| - 1] == NL; }
    var (line, rest) := SplitLine(s).value;
    FirstLineUnique(line, rest, x + eol, t);
  }

  /** An `event: ` line moves a frame from phase 0 to phase 1. */
  lemma {:induction false} EventLine(name: seq<byte>, eol: seq<byte>, t: seq<byte>, decode: Decoder)
    requires eol == [NL] || eol == [CR, NL]
    requires NL !in name && |name| > 0 && !IsSpace(name[|name| - 1])
    ensures ScanFrame(0, None, EventPrefix + name + eol + t, decode) == ScanFrame(1, None, t, decode)
  {
    assert NL !in EventPrefix + name;
    SplitAt(EventPrefix + name, eol, t);
    TrimmedLine(EventPrefix, name, eol);
    assert LineStep(0, None, EventPrefix + name + eol, decode) == Continue(1, None);
  }

  /** A `data: ` line whose payload decodes moves a frame to phase 2 with that event. */
  lemma {:induction false} DataLine(payload: seq<byte>, eol: seq<byte>, t: seq<byte>, decode: Decoder)
    requires eol == [NL] || eol == [CR, NL]
    requires NL !in payload && |payload| > 0 && !IsSpace(payload[|payload| - 1])
    requires decode(payload).Ok?
    ensures ScanFrame(1, None, DataPrefix + payload + eol + t, decode)
         == ScanFrame(2, Some(decode(payload).value), t, decode)
  {
    assert NL !in DataPrefix + payload;
    SplitAt(DataPrefix + payload, eol, t);
    TrimmedLine(DataPrefix, payload, eol);
    assert Trim(DataPrefix + payload + eol)[|DataPrefix|..] == payload;
    assert LineStep(1, None, DataPrefix + payload + eol, decode) == Continue(2, Some(decode(payload).value));
  }

  /** Any third line completes the frame with the decoded event. */
  lemma {:induction false} ThirdLine(third: seq<byte>, eol: seq<byte>, t: seq<byte>, payload: Option<ResponseEvent>, decode: Decoder)
    requires eol == [NL] || eol == [CR, NL]
    requires NL !in third
    ensures ScanFrame(2, Some(payload), third + eol + t, decode)
         == Scan(Some(if payload.Some? then Next(payload.value) else Finished), t)
  {
    SplitAt(third, eol, t);
  }

  /**
   * A well-formed frame: `event: <name>`, `data: <payload>` and a third line,
   * each ended by `eol`, decodes to the payload's event and leaves exactly the
   * bytes after it. Lines ended by `\r\n` read like lines ended by `\n`.
   */
  lemma {:induction false} WellFormedFrame(name: seq<byte>, payload: seq<byte>, third: seq<byte>, eol: seq<byte>,
                                           t: seq<byte>, decode: Decoder)
    requires eol == [NL] || eol == [CR, NL]
    requires NL !in name && NL !in payload && NL !in third
    requires |name| > 0 && !IsSpace(name[|name| - 1])
    requires |payload| > 0 && !IsSpace(payload[|payload| - 1])
    requires decode(payload).Ok?
    ensures NextFrame(EventPrefix + name + eol + DataPrefix + payload + eol + third + eol + t, decode)
         == Scan(Some(if decode(payload).value.Some? then Next(decode(payload).value.value) else Finished), t)
  {
    var s2 := third + eol + t;
    var s1 := DataPrefix + payload + eol + s2;
    assert EventPrefix + name + eol + DataPrefix + payload + eol + third + eol + t == EventPrefix + name + eol + s1;
    EventLine(name, eol, s1, decode);
    DataLine(payload, eol, s2, decode);
    ThirdLine(third, eol, t, decode(payload).value, decode);
  }

  /** A frame whose first line is not an `event: ` line ends in the `assert!` panic, consuming that line. */
  lemma MalformedEventLine(x: seq<byte>, eol: seq<byte>, t: seq<byte>, decode: Decoder)
    requires eol == [NL] || eol == [CR, NL]
    requires NL !in x && !HasPrefix(Trim(x + eol), EventPrefix)
    ensures NextFrame(x + eol + t, decode) == Scan(Some(Panicked(EventLinePanic)), t)
  {
    SplitAt(x, eol, t);
  }

  /** One line of a buffer, with more bytes after the buffer: the frame's next step. */
  lemma ScanStep(phase: nat, data: Option<Option<ResponseEvent>>, buf: seq<byte>, tail: seq<byte>, decode: Decoder)
    requires phase < 3 && (phase == 2 ==> data.Some?)
    requires NL in buf
    ensures var (line, rest) := SplitLine(buf).value;
      var lr := LineStep(phase, data, line, decode);
      ScanFrame(phase, data, buf + tail, decode)
        == if lr.Stop? then Scan(Some(lr.result), rest + tail) else ScanFrame(lr.phase, lr.data, rest + tail, decode)
  {
    SplitLineExtended(buf, tail);
  }

  /**
   * The result `recv` promises for a buffer and the transport's remaining
   * chunks: the next frame of all bytes before the first failure; failing
   * that, the failure; failing that, the end of the stream.
   */
  function RecvResult(buf: seq<byte>, chunks: seq<Chunk>, decode: Decoder): StreamResult
  {
    var sc := NextFrame(buf + BytesBefore(chunks), decode);
    var k := FirstFailure(chunks);
    if sc.outcome.Some? then sc.outcome.value
    else if k < |chunks| then Failed(Reqwest(chunks[k].error))
    else Finished
  }

  /** Splitting one chunk into two leaves the delivered bytes and the first failure as they were. */
  lemma {:induction false} SplitChunkDelivers(pre: seq<Chunk>, x: seq<byte>, y: seq<byte>, post: seq<Chunk>)
    ensures var c1, c2 := pre + [Bytes(x + y)] + post, pre + [Bytes(x), Bytes(y)] + post;
      && BytesBefore(c1) == BytesBefore(c2)
      && (FirstFailure(c1) < |c1| <==> FirstFailure(c2) < |c2|)
      && (FirstFailure(c1) < |c1| ==> c1[FirstFailure(c1)] == c2[FirstFailure(c2)])
  {
    var c1, c2 := pre + [Bytes(x + y)] + post, pre + [Bytes(x), Bytes(y)] + post;
    if pre == [] {
      assert c1[1..] == post;
      assert c2[1..][1..] == post;
      assert BytesBefore(c2) == x + (y + BytesBefore(post));
    } else if pre[0].Failure? {
    } else {
      assert c1[1..] == pre[1..] + [Bytes(x + y)] + post;
      assert c2[1..] == pre[1..] + [Bytes(x), Bytes(y)] + post;
      SplitChunkDelivers(pre[1..], x, y, post);
    }
  }

  /** Where the transport splits its chunks never changes what `recv` returns. */
  lemma ChunkBoundariesInvisible(buf: seq<byte>, pre: seq<Chunk>, x: seq<byte>, y: seq<byte>, post: seq<Chunk>,
                                 decode: Decoder)
    ensures RecvResult(buf, pre + [Bytes(x + y)] + post, decode) == RecvResult(buf, pre + [Bytes(x), Bytes(y)] + post, decode)
  {
    SplitChunkDelivers(pre, x, y, post);
  }

  /** `MessageStream`: the transport's remaining chunks and the unconsumed bytes. */
  class MessageStream {
    var buf: seq<byte>
    var chunks: seq<Chunk>
    const decode: Decoder

    constructor (chunks: seq<Chunk>, decode: Decoder)
      ensures buf == [] && this.chunks == chunks && this.decode == decode
    {
      this.buf := [];
      this.chunks := chunks;
      this.decode := decode;
    }

    /**
     * The inner loop of `MessageStream::recv`: drains complete lines from the
     * buffer while the frame has no result. It stops with the frame's result,
     * or with no newline left in the buffer and the phase the frame reached.
     */
    method DrainLines(phase: nat, data: Option<Option<ResponseEvent>>)
      returns (outcome: Option<StreamResult>, phase': nat, data': Option<Option<ResponseEvent>>)
      requires phase < 3 && (phase == 2 ==> data.Some?)
      modifies this
      ensures chunks == old(chunks)
      ensures phase' < 3 && (phase' == 2 ==> data'.Some?)
      ensures outcome.Some? ==>
        ScanFrame(phase, data, old(buf) + BytesBefore(chunks), decode) == Scan(outcome, buf + BytesBefore(chunks))
      ensures outcome.None? ==>
        && NL !in buf
        && ScanFrame(phase, data, old(buf) + BytesBefore(chunks), decode)
           == ScanFrame(phase', data', buf + BytesBefore(chunks), decode)
    {
      phase', data' := phase, data;
      while SplitLine(buf).Some?
        invariant chunks == old(chunks)
        invariant phase' < 3 && (phase' == 2 ==> data'.Some?)
        invariant ScanFrame(phase, data, old(buf) + BytesBefore(chunks), decode)
               == ScanFrame(phase', data', buf + BytesBefore(chunks), decode)
        decreases |buf|
      {
        ScanStep(phase', data', buf, BytesBefore(chunks), decode);
        var (line, rest) := SplitLine(buf).value;
        ghost var lr := LineStep(phase', data', line, decode);
        buf := rest;
        var t := Trim(line);
        if phase' == 0 {
          if !HasPrefix(t, EventPrefix) {
            assert lr == Stop(Panicked(EventLinePanic));
            return Some(Panicked(EventLinePanic)), phase', data';
          }
          assert lr == Continue(1, data');
        } else if phase' == 1 {
          if !HasPrefix(t, DataPrefix) {
            assert lr == Stop(Panicked(DataLinePanic));
            return Some(Panicked(DataLinePanic)), phase', data';
          }
          match decode(t[|DataPrefix|..]) {
            case Err(d) =>
              assert lr == Stop(Failed(Serde(d)));
              return Some(Failed(Serde(d))), phase', data';
            case Ok(payload) =>
              assert lr == Continue(2, Some(payload));
              data' := Some(payload);
          }
        } else {
          match data'.value {
            case Some(event) =>
              assert lr == Stop(Next(event));
              return Some(Next(event)), phase', data';
            case None =>
              assert lr == Stop(Finished);
              return Some(Finished), phase', data';
          }
        }
        // the source's `% 3` never wraps here: line 2 of a frame returns
        phase' := phase' + 1;
      }
      return None, phase', data';
    }

    /**
     * `MessageStream::recv`. Its result is the next frame of the bytes the
     * transport delivers before any failure; a failure or the end of the
     * transport is reported only when no frame result was reached first, and
     * the end is `Finished` even when a partial frame was buffered.
     */
    method Recv() returns (r: StreamResult)
      modifies this
      ensures r == RecvResult(old(buf), old(chunks), decode)
      ensures |chunks| <= |old(chunks)| && chunks == old(chunks)[|old(chunks)| - |chunks|..]
      ensures var sc := NextFrame(old(buf) + BytesBefore(old(chunks)), decode);
        var k := FirstFailure(old(chunks));
        && (sc.outcome.Some? ==>
              buf + BytesBefore(chunks) == sc.rest
              && |old(chunks)| - |chunks| <= k && FirstFailure(chunks) == k - (|old(chunks)| - |chunks|))
        && (sc.outcome.None? && k < |old(chunks)| ==> buf == sc.rest && chunks == old(chunks)[k + 1..])
        && (sc.outcome.None? && k == |old(chunks)| ==> buf == sc.rest && chunks == [])
    {
      var linesParsed: nat := 0;
      var data: Option<Option<ResponseEvent>> := None;
      ghost var goal := NextFrame(buf + BytesBefore(chunks), decode);
      ghost var k := FirstFailure(chunks);
      ghost var expected := RecvResult(buf, chunks, decode);
      ghost var taken: nat := 0;
      while true
        invariant linesParsed < 3 && (linesParsed == 2 ==> data.Some?)
        invariant taken <= |old(chunks)| && chunks == old(chunks)[taken..]
        invariant k == taken + FirstFailure(chunks)
        invariant ScanFrame(linesParsed, data, buf + BytesBefore(chunks), decode) == goal
        decreases |chunks|
      {
        var outcome;
        outcome, linesParsed, data := DrainLines(linesParsed, data);
        if outcome.Some? {
          assert expected == outcome.value;
          return outcome.value;
        }
        assert buf + [] == buf;
        if chunks == [] {
          assert goal == Scan(None, buf);
          assert taken == |old(chunks)| == k;
          assert expected == Finished;
          return Finished;
        }
        match chunks[0] {
          case Failure(e) =>
            assert BytesBefore(chunks) == [] && goal == Scan(None, buf);
            assert taken == k && old(chunks)[k] == chunks[0];
            assert chunks[1..] == old(chunks)[k + 1..];
            assert expected == Failed(Reqwest(e));
            chunks := chunks[1..];
            return Failed(Reqwest(e));
          case Bytes(b) =>
            assert buf + BytesBefore(chunks) == (buf + b) + BytesBefore(chunks[1..]);
            buf := buf + b;
            chunks := chunks[1..];
            taken := taken + 1;
        }
      }
    }
  }
}
