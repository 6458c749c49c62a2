/** The Responses events the gateway sends, and a reader for them written without reference to
    any mapper: response.created first, output items added at 0, 1, 2, ..., deltas on open items
    only, every item done once with exactly the content its deltas spelled out, and one
    response.completed at the end. */
module ResponsesGrammar {
  import opened Wire
  import Responses

  datatype NewItem = NewMessage(id: string) | NewCall(id: string, callId: string, name: string)

  datatype DoneItem =
    | DoneMessage(id: string, text: string)
    | DoneCall(id: string, callId: string, name: string, args: string)

  datatype Sent =
    | Created(id: string, model: string)
    | ItemAdded(index: int, added: NewItem)
    | PartAdded(itemId: string, index: int)
    | TextDelta(itemId: string, index: int, text: string)
    | ArgsDelta(itemId: string, index: int, args: string)
    | TextDone(itemId: string, index: int, text: string)
    | ArgsDone(itemId: string, index: int)
    | ItemDone(index: int, done: DoneItem)
    | Completed(id: string, model: string, usage: Option<Responses.Usage>)

  /** An output item as a reader has it. */
  datatype Item =
    | Prose(id: string, text: string, open: bool)
    | Call(id: string, callId: string, name: string, args: string, open: bool)

  datatype Phase =
    | Fresh
    | Streaming(id: string, items: seq<Item>)
    | Complete(id: string, items: seq<Item>, usage: Option<Responses.Usage>)
    | Broken

  predicate OpenMessage(items: seq<Item>, i: int, id: string) {
    0 <= i < |items| && items[i].Prose? && items[i].open && items[i].id == id
  }

  predicate OpenCall(items: seq<Item>, i: int, id: string) {
    0 <= i < |items| && items[i].Call? && items[i].open && items[i].id == id
  }

  predicate AllDone(items: seq<Item>) {
    forall i :: 0 <= i < |items| ==> !items[i].open
  }

  function Advance(p: Phase, e: Sent): Phase {
    match (p, e)
    case (Fresh, Created(id, _)) => Streaming(id, [])
    case (Streaming(id, items), ItemAdded(i, NewMessage(m))) =>
      if i == |items| then Streaming(id, items + [Prose(m, "", true)]) else Broken
    case (Streaming(id, items), ItemAdded(i, NewCall(m, c, n))) =>
      if i == |items| then Streaming(id, items + [Call(m, c, n, "", true)]) else Broken
    case (Streaming(_, items), PartAdded(m, i)) =>
      if OpenMessage(items, i, m) && items[i].text == "" then p else Broken
    case (Streaming(id, items), TextDelta(m, i, t)) =>
      if OpenMessage(items, i, m) then Streaming(id, items[i := items[i].(text := items[i].text + t)]) else Broken
    case (Streaming(id, items), ArgsDelta(m, i, a)) =>
      if OpenCall(items, i, m) then Streaming(id, items[i := items[i].(args := items[i].args + a)]) else Broken
    case (Streaming(_, items), TextDone(m, i, t)) =>
      if OpenMessage(items, i, m) && items[i].text == t then p else Broken
    case (Streaming(_, items), ArgsDone(m, i)) =>
      if OpenCall(items, i, m) then p else Broken
    case (Streaming(id, items), ItemDone(i, DoneMessage(m, t))) =>
      if OpenMessage(items, i, m) && items[i].text == t then Streaming(id, items[i := Prose(m, t, false)]) else Broken
    case (Streaming(id, items), ItemDone(i, DoneCall(m, c, n, a))) =>
      if OpenCall(items, i, m) && items[i] == Call(m, c, n, a, true)
      then Streaming(id, items[i := Call(m, c, n, a, false)]) else Broken
    case (Streaming(id, items), Completed(rid, _, usage)) =>
      if rid == id && AllDone(items) then Complete(id, items, usage) else Broken
    case _ => Broken
  }

  function Read(p: Phase, es: seq<Sent>): Phase
    decreases es
  {
    if es == [] then p else Read(Advance(p, es[0]), es[1..])
  }

  lemma {:induction false} ReadConcat(p: Phase, a: seq<Sent>, b: seq<Sent>)
    ensures Read(p, a + b) == Read(Read(p, a), b)
    decreases a
  {
    hide Advance;
    if a == [] {
      assert a + b == b;
    } else {
      assert (a + b)[1..] == a[1..] + b;
      ReadConcat(Advance(p, a[0]), a[1..], b);
    }
  }

  lemma ReadNone(p: Phase)
    ensures Read(p, []) == p
  {
  }

  lemma ReadOne(p: Phase, e: Sent)
    ensures Read(p, [e]) == Advance(p, e)
  {
    hide Advance;
    assert [e][1..] == [];
    ReadNone(Advance(p, e));
  }

  lemma ReadTwo(p: Phase, e: Sent, f: Sent)
    ensures Read(p, [e, f]) == Advance(Advance(p, e), f)
  {
    hide Advance;
    assert [e, f][1..] == [f];
    ReadOne(Advance(p, e), f);
  }
}
