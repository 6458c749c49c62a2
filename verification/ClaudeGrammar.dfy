/** A reader for Anthropic event streams, written without reference to any mapper.
    It accepts exactly the streams a client can follow: one message_start first, blocks
    opened at 0, 1, 2, ..., deltas of the right kind on open blocks only, every block
    stopped once, then one message_delta and a final message_stop. */
module ClaudeGrammar {
  import opened Wire

  datatype Kind = TextKind | ThinkingKind | ToolKind | OtherKind

  datatype Phase =
    | Idle
    | Body(next: int, open: map<int, Kind>)
    | Closing
    | Finished
    | Broken

  function KindOf(b: Block): Kind {
    match b
    case TextBlock => TextKind
    case ThinkingBlock => ThinkingKind
    case ToolUse(_, _) => ToolKind
    case _ => OtherKind
  }

  predicate Fits(k: Kind, d: DeltaBody) {
    match d
    case TextDelta(_) => k == TextKind
    case ThinkingDelta(_) => k == ThinkingKind
    case InputJson(p) => k == ToolKind && p.Some?
    case OtherDelta => false
  }

  function Advance(p: Phase, e: ClaudeEvent): Phase {
    match (p, e)
    case (Idle, MessageStart(m)) => if m.Some? then Body(0, map[]) else Broken
    case (Body(n, open), BlockStart(i, b)) =>
      if b.Some? && i == n then Body(n + 1, open[i := KindOf(b.value)]) else Broken
    case (Body(n, open), BlockDelta(i, d)) =>
      if d.Some? && i in open && Fits(open[i], d.value) then p else Broken
    case (Body(n, open), BlockStop(i)) =>
      if i in open then Body(n, open - {i}) else Broken
    case (Body(n, open), MessageDelta(r, _)) =>
      if open == map[] && r != "" then Closing else Broken
    case (Closing, MessageStop) => Finished
    case _ => Broken
  }

  function Read(p: Phase, es: seq<ClaudeEvent>): Phase
    decreases es
  {
    if es == [] then p else Read(Advance(p, es[0]), es[1..])
  }

  /** A whole stream is well formed when the reader finishes, or nothing was sent at all. */
  predicate WellFormed(es: seq<ClaudeEvent>) {
    es == [] || Read(Idle, es) == Finished
  }

  lemma {:induction false} ReadConcat(p: Phase, a: seq<ClaudeEvent>, b: seq<ClaudeEvent>)
    ensures Read(p, a + b) == Read(Read(p, a), b)
    decreases a
  {
    if a == [] {
      assert a + b == b;
    } else {
      assert (a + b)[1..] == a[1..] + b;
      ReadConcat(Advance(p, a[0]), a[1..], b);
    }
  }

  lemma {:induction false} BrokenStays(es: seq<ClaudeEvent>)
    ensures Read(Broken, es) == Broken
  {
    if es != [] {
      BrokenStays(es[1..]);
    }
  }

  /** The spine of a stream: what is left when all block events are taken out. */
  function Spine(es: seq<ClaudeEvent>): seq<ClaudeEvent> {
    if es == [] then []
    else if es[0].BlockStart? || es[0].BlockDelta? || es[0].BlockStop? then Spine(es[1..])
    else [es[0]] + Spine(es[1..])
  }

  lemma {:induction false} SpineConcat(a: seq<ClaudeEvent>, b: seq<ClaudeEvent>)
    ensures Spine(a + b) == Spine(a) + Spine(b)
  {
    if a == [] {
      assert a + b == b;
    } else {
      assert (a + b)[1..] == a[1..] + b;
      SpineConcat(a[1..], b);
    }
  }
}
