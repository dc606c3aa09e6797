/**
 * How one agent turn assembles the backend's streaming events into an
 * assistant message (the event loop of `Agent::run` in
 * kepoki/src/runtime/agent.rs), as pure functions: `Step` is one event,
 * `Feed` a whole sequence of them. The imperative loop in `AgentTask` is
 * proved against these.
 */
module Assembler {
  import opened Wrappers
  import opened Backend

  /** The turn's open message, once started, and its content blocks by index. */
  datatype Assembly = Assembly(message: Option<Message>, blocks: map<nat, ContentBlock>)

  const Start: Assembly := Assembly(None, map[])

  /** A `MessageDelta`: every field it carries overwrites the message's, the others stay. */
  function ApplyDelta(m: Message, d: Delta): (r: Message)
    ensures r.id == m.id && r.role == m.role && r.content == m.content
    ensures r.stopReason == (if d.stopReason.Some? then d.stopReason else m.stopReason)
    ensures r.stopSequence == (if d.stopSequence.Some? then d.stopSequence else m.stopSequence)
    ensures r.usage == (if d.usage.Some? then d.usage else m.usage)
  {
    m.(stopReason := if d.stopReason.Some? then d.stopReason else m.stopReason,
       stopSequence := if d.stopSequence.Some? then d.stopSequence else m.stopSequence,
       usage := if d.usage.Some? then d.usage else m.usage)
  }

  /** Two deltas in a row act as one carrying the later delta's fields where present. */
  function MergeDeltas(d1: Delta, d2: Delta): Delta
  {
    Delta(if d2.stopReason.Some? then d2.stopReason else d1.stopReason,
          if d2.stopSequence.Some? then d2.stopSequence else d1.stopSequence,
          if d2.usage.Some? then d2.usage else d1.usage)
  }

  lemma DeltasCompose(m: Message, d1: Delta, d2: Delta)
    ensures ApplyDelta(ApplyDelta(m, d1), d2) == ApplyDelta(m, MergeDeltas(d1, d2))
    ensures ApplyDelta(ApplyDelta(m, d1), d1) == ApplyDelta(m, d1)
    ensures ApplyDelta(m, Delta(None, None, None)) == m
  {
  }

  /** The block index a block event names. */
  function EventIndex(e: ResponseEvent): Option<nat>
  {
    match e
    case ContentBlockStart(i, _) => Some(i)
    case ContentBlockDelta(d) => Some(d.Index())
    case ContentBlockStop(i) => Some(i)
    case _ => None
  }

  /**
   * One event. `None` is the `UnexpectedEvent` failure: a second start, a
   * delta or stop without a message, a block started twice, or a delta for
   * a missing block or one of the wrong kind.
   */
  function Step(a: Assembly, e: ResponseEvent): (r: Option<Assembly>)
    ensures e.MessageStart? ==> (r.None? <==> a.message.Some?)
    ensures (e.MessageDelta? || e.MessageStop?) ==> (r.None? <==> a.message.None?)
    ensures e.ContentBlockStart? ==> (r.None? <==> e.index in a.blocks)
    ensures e.ContentBlockDelta? && e.blockDelta.TextDelta? ==>
      (r.None? <==> e.blockDelta.index !in a.blocks || !a.blocks[e.blockDelta.index].Text?)
    ensures e.ContentBlockDelta? && e.blockDelta.InputJsonDelta? ==>
      (r.None? <==> e.blockDelta.index !in a.blocks || !a.blocks[e.blockDelta.index].ToolUse?)
    ensures (e.Ping? || e.ContentBlockStop?) ==> r.Some?
    ensures r.Some? && EventIndex(e).Some? ==> r.value.message == a.message
    ensures r.Some? && EventIndex(e).None? ==> r.value.blocks == a.blocks
    ensures r.Some? && e.MessageStart? ==> r.value == a.(message := Some(e.message))
    ensures r.Some? && e.MessageDelta? ==> r.value.message == Some(ApplyDelta(a.message.value, e.delta))
    ensures r.Some? && (e.Ping? || e.MessageStop?) ==> r.value == a
    ensures r.Some? && e.ContentBlockStart? ==> r.value.blocks == a.blocks[e.index := e.block]
  {
    match e
    case Ping => Some(a)
    case MessageStart(m) => if a.message.Some? then None else Some(a.(message := Some(m)))
    case MessageDelta(d) => if a.message.None? then None else Some(a.(message := Some(ApplyDelta(a.message.value, d))))
    case MessageStop => if a.message.None? then None else Some(a)
    case ContentBlockStart(i, b) => if i in a.blocks then None else Some(a.(blocks := a.blocks[i := b]))
    case ContentBlockDelta(TextDelta(i, t)) =>
      if i in a.blocks && a.blocks[i].Text? then Some(a.(blocks := a.blocks[i := Text(a.blocks[i].text + t)])) else None
    case ContentBlockDelta(InputJsonDelta(i, p)) =>
      if i in a.blocks && a.blocks[i].ToolUse? then Some(a.(blocks := a.blocks[i := a.blocks[i].(input := a.blocks[i].input + p)]))
      else None
    case ContentBlockStop(i) => Some(a.(blocks := a.blocks - {i}))
  }

  /** A block event touches only the entry at its index. */
  lemma StepTouchesOneIndex(a: Assembly, e: ResponseEvent, j: nat)
    requires Step(a, e).Some?
    requires EventIndex(e) != Some(j)
    ensures j in Step(a, e).value.blocks <==> j in a.blocks
    ensures j in a.blocks ==> Step(a, e).value.blocks[j] == a.blocks[j]
  {
  }

  /** A stopped index can be started again. */
  lemma StopThenRestart(a: Assembly, i: nat, b: ContentBlock)
    ensures Step(a, ContentBlockStop(i)).Some?
    ensures Step(Step(a, ContentBlockStop(i)).value, ContentBlockStart(i, b)).Some?
    ensures i !in Step(a, ContentBlockStop(i)).value.blocks
  {
  }

  /** A sequence of events: the final assembly, or the position of the first rejected event. */
  datatype Outcome = Accepted(assembly: Assembly) | Rejected(at: nat)

  function Feed(events: seq<ResponseEvent>): (o: Outcome)
    ensures o.Rejected? ==> o.at < |events|
  {
    if events == [] then Accepted(Start)
    else match Feed(events[..|events| - 1])
      case Rejected(k) => Rejected(k)
      case Accepted(a) =>
        match Step(a, events[|events| - 1])
        case None => Rejected(|events| - 1)
        case Some(b) => Accepted(b)
  }

  /** A rejection is at the first event that `Step` refuses, after a prefix that was accepted. */
  lemma {:induction false} FeedRejectsAtFirstViolation(events: seq<ResponseEvent>)
    requires Feed(events).Rejected?
    ensures var k := Feed(events).at;
      Feed(events[..k]).Accepted? && Step(Feed(events[..k]).assembly, events[k]).None?
  {
    var n := |events| - 1;
    var init := events[..n];
    if Feed(init).Rejected? {
      FeedRejectsAtFirstViolation(init);
      var k := Feed(init).at;
      assert init[..k] == events[..k];
    } else {
      assert events[..n] == init;
    }
  }

  /** Every prefix of an accepted sequence is accepted. */
  lemma {:induction false} AcceptedPrefix(events: seq<ResponseEvent>, n: nat)
    requires n <= |events|
    requires Feed(events).Accepted?
    ensures Feed(events[..n]).Accepted?
    decreases |events|
  {
    if n < |events| {
      var init := events[..|events| - 1];
      assert init[..n] == events[..n];
      AcceptedPrefix(init, n);
    } else {
      assert events[..n] == events;
    }
  }

  /** How many `MessageStart` events a sequence holds. */
  function CountStarts(events: seq<ResponseEvent>): nat
  {
    if events == [] then 0
    else CountStarts(events[..|events| - 1]) + (if events[|events| - 1].MessageStart? then 1 else 0)
  }

  /** An accepted turn started its message at most once, and has a message exactly when it did. */
  lemma {:induction false} AtMostOneStart(events: seq<ResponseEvent>)
    requires Feed(events).Accepted?
    ensures CountStarts(events) <= 1
    ensures Feed(events).assembly.message.Some? <==> CountStarts(events) == 1
  {
    if events != [] {
      AtMostOneStart(events[..|events| - 1]);
    }
  }

  /**
   * A reference for one index alone: the block the events leave at index
   * `k`, read without looking at any other index.
   */
  function Live(events: seq<ResponseEvent>, k: nat): Option<ContentBlock>
  {
    if events == [] then None
    else
      var before := Live(events[..|events| - 1], k);
      match events[|events| - 1]
      case ContentBlockStart(i, b) => if i == k then Some(b) else before
      case ContentBlockStop(i) => if i == k then None else before
      case ContentBlockDelta(TextDelta(i, t)) =>
        if i == k && before.Some? && before.value.Text? then Some(Text(before.value.text + t)) else before
      case ContentBlockDelta(InputJsonDelta(i, p)) =>
        if i == k && before.Some? && before.value.ToolUse? then Some(before.value.(input := before.value.input + p)) else before
      case _ => before
  }

  /** The assembled map holds, at every index, exactly what the per-index reference gives. */
  lemma {:induction false} BlocksMatchLive(events: seq<ResponseEvent>, k: nat)
    requires Feed(events).Accepted?
    ensures k in Feed(events).assembly.blocks <==> Live(events, k).Some?
    ensures k in Feed(events).assembly.blocks ==> Feed(events).assembly.blocks[k] == Live(events, k).value
  {
    if events != [] {
      BlocksMatchLive(events[..|events| - 1], k);
    }
  }

  /** The `MessageDelta` payloads of a sequence of events, in order. */
  function DeltasOf(events: seq<ResponseEvent>): seq<Delta>
  {
    if events == [] then []
    else DeltasOf(events[..|events| - 1]) + (if events[|events| - 1].MessageDelta? then [events[|events| - 1].delta] else [])
  }

  /** A message with a sequence of deltas applied, first to last. */
  function ApplyAll(m: Message, ds: seq<Delta>): Message
  {
    if ds == [] then m else ApplyDelta(ApplyAll(m, ds[..|ds| - 1]), ds[|ds| - 1])
  }

  /**
   * The message of an accepted turn is the one its `MessageStart` carried,
   * with every later `MessageDelta` applied in order.
   */
  lemma {:induction false} MessageIsStartWithDeltas(events: seq<ResponseEvent>, k: nat)
    requires Feed(events).Accepted?
    requires k < |events| && events[k].MessageStart?
    ensures Feed(events).assembly.message == Some(ApplyAll(events[k].message, DeltasOf(events[k + 1..])))
    decreases |events|
  {
    var n := |events| - 1;
    var init := events[..n];
    AcceptedPrefix(events, n);
    assert Feed(events) == Accepted(Step(Feed(init).assembly, events[n]).value);
    if k == n {
      assert events[k + 1..] == [];
    } else {
      assert init[k] == events[k];
      MessageIsStartWithDeltas(init, k);
      var tail := events[k + 1..];
      assert tail[..|tail| - 1] == init[k + 1..];
      assert tail[|tail| - 1] == events[n];
      var before := DeltasOf(init[k + 1..]);
      assert DeltasOf(tail) == before + (if events[n].MessageDelta? then [events[n].delta] else []);
      if events[n].MessageDelta? {
        assert (before + [events[n].delta])[..|before|] == before;
      } else {
        assert Feed(init).assembly.message.Some?;
        assert !events[n].MessageStart?;
        assert Feed(events).assembly.message == Feed(init).assembly.message;
        assert DeltasOf(tail) == before;
      }
    }
  }

  /** The multiset of a map's values. */
  ghost function Bag(m: map<nat, ContentBlock>): multiset<ContentBlock>
    decreases |m|
  {
    if m == map[] then multiset{}
    else
      var k :| k in m;
      multiset{m[k]} + Bag(m - {k})
  }

  /** Removing a present index shrinks a map by one. */
  lemma RemoveShrinks(m: map<nat, ContentBlock>, k: nat)
    requires k in m
    ensures |m - {k}| == |m| - 1
  {
    assert (m - {k}).Keys == m.Keys - {k};
    assert |m.Keys - {k}| == |m.Keys| - 1;
  }

  /** Taking out any one entry takes its value out of the bag. */
  lemma {:induction false} BagRemove(m: map<nat, ContentBlock>, k: nat)
    requires k in m
    ensures Bag(m) == multiset{m[k]} + Bag(m - {k})
    decreases |m|
  {
    var j: nat :| j in m && Bag(m) == multiset{m[j]} + Bag(m - {j});
    if j != k {
      RemoveShrinks(m, j);
      RemoveShrinks(m, k);
      var mjk := m - {j} - {k};
      assert mjk == m - {k} - {j};
      assert (m - {j})[k] == m[k] && (m - {k})[j] == m[j];
      BagRemove(m - {j}, k);
      BagRemove(m - {k}, j);
    }
  }

  /** The bag has one value per index. */
  lemma {:induction false} BagSize(m: map<nat, ContentBlock>)
    ensures |Bag(m)| == |m|
    decreases |m|
  {
    if m != map[] {
      var k :| k in m;
      BagRemove(m, k);
      BagSize(m - {k});
    }
  }

  /** Every value in the bag is the value of some present index. */
  lemma {:induction false} BagMembers(m: map<nat, ContentBlock>, b: ContentBlock)
    ensures b in Bag(m) <==> exists k :: k in m && m[k] == b
    decreases |m|
  {
    if m != map[] {
      var k :| k in m;
      BagRemove(m, k);
      BagMembers(m - {k}, b);
      if b in Bag(m - {k}) {
        var j :| j in m - {k} && (m - {k})[j] == b;
        assert j in m && m[j] == b;
      }
      if exists j :: j in m && m[j] == b {
        var j :| j in m && m[j] == b;
        if j != k {
          assert j in m - {k} && (m - {k})[j] == b;
        }
      }
    }
  }

  /** Feeding one more event. */
  lemma FeedSnoc(events: seq<ResponseEvent>, e: ResponseEvent)
    ensures Feed(events + [e]) == match Feed(events)
      case Rejected(k) => Rejected(k)
      case Accepted(a) => if Step(a, e).Some? then Accepted(Step(a, e).value) else Rejected(|events|)
  {
    assert (events + [e])[..|events|] == events;
  }

  /** The first half of a text turn: a message, one text block and a delta for it. */
  lemma TextBlockGrows(m0: Message)
    ensures Feed([MessageStart(m0), ContentBlockStart(0, Text("")), ContentBlockDelta(TextDelta(0, "Hi!"))])
         == Accepted(Assembly(Some(m0), map[0 := Text("Hi!")]))
  {
    var e0, e1, e2 := MessageStart(m0), ContentBlockStart(0, Text("")), ContentBlockDelta(TextDelta(0, "Hi!"));
    var a2 := Assembly(Some(m0), map[0 := Text("")]);
    FeedSnoc([], e0);
    assert Feed([e0]) == Accepted(Assembly(Some(m0), map[]));
    FeedSnoc([e0], e1);
    assert Feed([e0, e1]) == Accepted(a2) by {
      assert [e0] + [e1] == [e0, e1];
    }
    FeedSnoc([e0, e1], e2);
    assert [e0, e1] + [e2] == [e0, e1, e2];
    assert a2.blocks[0].text + "Hi!" == "Hi!";
    assert a2.blocks[0 := Text("Hi!")] == map[0 := Text("Hi!")];
  }

  /**
   * A block that is started, grown and stopped within a turn is gone from
   * the turn's content: `ContentBlockStop` removes the entry.
   */
  lemma StoppedBlockLeavesNoContent(m0: Message)
    ensures var events := [MessageStart(m0), ContentBlockStart(0, Text("")), ContentBlockDelta(TextDelta(0, "Hi!")),
                           ContentBlockStop(0), MessageDelta(Delta(Some(EndTurn), None, None)), MessageStop];
      && Feed(events).Accepted?
      && Feed(events).assembly.blocks == map[]
      && Feed(events).assembly.message == Some(m0.(stopReason := Some(EndTurn)))
  {
    var s3 := [MessageStart(m0), ContentBlockStart(0, Text("")), ContentBlockDelta(TextDelta(0, "Hi!"))];
    var e3, e4, e5 := ContentBlockStop(0), MessageDelta(Delta(Some(EndTurn), None, None)), MessageStop;
    var a1 := Assembly(Some(m0), map[]);
    TextBlockGrows(m0);
    FeedSnoc(s3, e3);
    assert Feed(s3 + [e3]) == Accepted(a1) by {
      assert map[0 := Text("Hi!")] - {0} == map[];
    }
    var a5 := Assembly(Some(m0.(stopReason := Some(EndTurn))), map[]);
    FeedSnoc(s3 + [e3], e4);
    assert Feed(s3 + [e3] + [e4]) == Accepted(a5);
    FeedSnoc(s3 + [e3] + [e4], e5);
    assert Feed(s3 + [e3] + [e4] + [e5]) == Accepted(a5);
    assert s3 + [e3] + [e4] + [e5] == [s3[0], s3[1], s3[2], e3, e4, e5];
  }
}
