/** OpenAI Responses stream events as decoded records, and what such a stream says.
    A field that may be missing in the JSON is an Option or the empty string. */
module Responses {
  import opened Wire

  datatype ItemInfo = ItemInfo(kind: string, id: string, callId: string, name: string)

  datatype Usage = Usage(input: int, output: int, total: int,
                         details: Option<PromptDetails>,
                         outputReasoning: Option<int>, completionReasoning: Option<int>)

  datatype Body = Body(status: string, incompleteReason: Option<string>, usage: Option<Usage>)

  datatype Event =
    | Created(id: string, model: string)
    | ReasoningDelta(text: string)
    | ReasoningDone
    | ItemAdded(outputIndex: Option<int>, itemId: string, item: ItemInfo)
    | TextDelta(text: string)
    | ArgsDelta(custom: bool, outputIndex: Option<int>, itemId: string, args: string)
    | Ended(completed: bool, body: Option<Body>)   // response.completed, else response.incomplete or response.done
    | Failed
    | Other

  // ---- text helpers of the host language ----

  /** The space characters of Unicode, as the host's string library knows them. */
  predicate IsSpace(c: char) {
    c in "\t\n\U{0B}\U{0C}\r \U{85}\U{A0}\U{1680}\U{2028}\U{2029}\U{202F}\U{205F}\U{3000}"
    || '\U{2000}' <= c <= '\U{200A}'
  }

  function TrimLeft(s: string): (r: string)
    ensures r == "" || !IsSpace(r[0])
  {
    if s != "" && IsSpace(s[0]) then TrimLeft(s[1..]) else s
  }

  function TrimRight(s: string): (r: string)
    ensures r == "" || !IsSpace(r[|r| - 1])
    ensures r <= s
  {
    if s != "" && IsSpace(s[|s| - 1]) then TrimRight(s[..|s| - 1]) else s
  }

  function Trim(s: string): (r: string)
    ensures r == "" || (!IsSpace(r[0]) && !IsSpace(r[|r| - 1]))
  {
    TrimRight(TrimLeft(s))
  }

  /** A number in decimal notation. */
  function Decimal(n: int): (r: string)
    ensures r != ""
    decreases n < 0, if n < 0 then -n else n
  {
    if n < 0 then "-" + Decimal(-n)
    else if n < 10 then ["0123456789"[n]]
    else Decimal(n / 10) + ["0123456789"[n % 10]]
  }

  /** Length of a character in UTF-8. */
  function CharBytes(c: char): nat {
    if c < '\U{80}' then 1 else if c < '\U{800}' then 2 else if c < '\U{10000}' then 3 else 4
  }

  /** Length of a string in UTF-8. */
  function Bytes(s: string): nat {
    if s == "" then 0 else CharBytes(s[0]) + Bytes(s[1..])
  }

  // ---- what a stream of events says, told from its history ----

  predicate IsToolKind(kind: string) {
    kind == "function_call" || kind == "custom_tool_call"
  }

  /** An item that opens a tool call: of a tool kind, and with a name. */
  predicate Announces(e: Event) {
    e.ItemAdded? && IsToolKind(e.item.kind) && Trim(e.item.name) != ""
  }

  predicate AddsArgs(e: Event) {
    e.ArgsDelta? && e.args != ""
  }

  datatype Announcement = Announcement(index: int, id: string, name: string)

  /** The id a call goes by: its call id, else its item id, else one made from its index. */
  function CallId(e: Event, fallback: int): (id: string)
    requires e.ItemAdded?
    ensures id != ""
  {
    if Trim(e.item.callId) != "" then Trim(e.item.callId)
    else if Trim(e.item.id) != "" then Trim(e.item.id)
    else "generated_tool_call_" + Decimal(if e.outputIndex.Some? then e.outputIndex.value else fallback)
  }

  /** The calls announced so far, in order. */
  function Announcements(h: seq<Event>): seq<Announcement> {
    if h == [] then []
    else
      var p, e := h[..|h| - 1], h[|h| - 1];
      if Announces(e) && e.outputIndex.Some?
      then Announcements(p) + [Announcement(e.outputIndex.value, CallId(e, 0), Trim(e.item.name))]
      else Announcements(p)
  }

  /** All argument text sent for an output index, before or after its announcement. */
  function ArgsFor(h: seq<Event>, index: int): string {
    if h == [] then ""
    else
      var p, e := h[..|h| - 1], h[|h| - 1];
      ArgsFor(p, index) + (if e.ArgsDelta? && e.outputIndex == Some(index) then e.args else "")
  }

  function TextOf(h: seq<Event>): string {
    if h == [] then ""
    else
      var p, e := h[..|h| - 1], h[|h| - 1];
      TextOf(p) + (if e.TextDelta? then e.text else "")
  }

  /** The shortest run of newlines that makes a part start with a blank line. */
  function Separator(t: string): (n: string)
    ensures "\n\n" <= n + t
    ensures forall m: nat | m < |n| :: !("\n\n" <= n[..m] + t)
  {
    if "\n\n" <= t then ""
    else if "\n" <= t then
      assert "\n" + t == "\n\n" + t[1..];
      "\n"
    else
      var n := "\n\n";
      assert n[..0] + t == t && n[..1] + t == "\n" + t;
      assert "\n\n" <= "\n" + t ==> ("\n" + t)[1] == t[0];
      n
  }

  /** The reasoning text: parts closed by a `done` event are set apart by a blank line. */
  function ReasoningOf(h: seq<Event>): string {
    if h == [] then ""
    else
      var p, e := h[..|h| - 1], h[|h| - 1];
      if e.ReasoningDelta? && e.text != ""
      then ReasoningOf(p) + (if PartEnded(p) then Separator(e.text) + e.text else e.text)
      else ReasoningOf(p)
  }

  /** A reasoning part has been closed and the next one has not begun. */
  predicate PartEnded(h: seq<Event>) {
    if h == [] then false
    else
      var p, e := h[..|h| - 1], h[|h| - 1];
      if e.ReasoningDone? then ReasoningOf(p) != "" || PartEnded(p)
      else !(e.ReasoningDelta? && e.text != "") && PartEnded(p)
  }

  /** How a terminal event ends the Chat stream, given whether any tool was called. */
  function EndReason(body: Option<Body>, tools: bool): string {
    if body.Some? && Trim(body.value.status) == "incomplete" then
      if body.value.incompleteReason.Some? && Trim(body.value.incompleteReason.value) == "content_filter"
      then "content_filter" else "length"
    else if tools then "tool_calls" else "stop"
  }

  function ChatUsage(u: Usage): Wire.Usage {
    var reasoning := if u.outputReasoning.Some? then u.outputReasoning else u.completionReasoning;
    Wire.Usage(u.input, u.output, if u.total == 0 then u.input + u.output else u.total,
               u.details,
               if reasoning.Some? && reasoning.value != 0 then reasoning else None)
  }

  /** Reads the last event off a longer history. */
  lemma Snoc(h: seq<Event>, e: Event)
    ensures (h + [e])[..|h + [e]| - 1] == h && (h + [e])[|h + [e]| - 1] == e
  {
  }

  // ---- what the text helpers and the ids made from them amount to ----

  predicate Blank(s: string) {
    forall i :: 0 <= i < |s| ==> IsSpace(s[i])
  }

  lemma {:induction false} LeftTold(s: string) returns (a: string)
    ensures s == a + TrimLeft(s) && Blank(a)
  {
    hide IsSpace;
    if s != "" && IsSpace(s[0]) {
      var b := LeftTold(s[1..]);
      a := [s[0]] + b;
    } else {
      a := "";
    }
  }

  lemma {:induction false} RightTold(s: string) returns (b: string)
    ensures s == TrimRight(s) + b && Blank(b)
  {
    hide IsSpace;
    if s != "" && IsSpace(s[|s| - 1]) {
      var a := RightTold(s[..|s| - 1]);
      b := a + [s[|s| - 1]];
    } else {
      b := "";
    }
  }

  /** Trimming takes spaces from both ends, and leaves no space there. */
  lemma TrimTold(s: string)
    ensures exists a, b :: s == a + Trim(s) + b && Blank(a) && Blank(b)
    ensures Trim(s) == "" <==> Blank(s)
  {
    hide IsSpace;
    var a := LeftTold(s);
    var b := RightTold(TrimLeft(s));
    assert s == a + Trim(s) + b;
    if Trim(s) != "" {
      assert s[|a|] == Trim(s)[0];
    }
  }

  /** Which events announce a call. */
  lemma AnnouncesTold(e: Event)
    ensures Announces(e) <==> e.ItemAdded? && e.item.kind in {"function_call", "custom_tool_call"} && !Blank(e.item.name)
  {
    hide Trim, Blank;
    if e.ItemAdded? { TrimTold(e.item.name); }
  }

  /** The id of a call is its call id or, if that is blank, its item id. */
  lemma CallIdTold(e: Event, n: int)
    requires e.ItemAdded?
    ensures !Blank(e.item.callId) ==> CallId(e, n) == Trim(e.item.callId)
    ensures Blank(e.item.callId) && !Blank(e.item.id) ==> CallId(e, n) == Trim(e.item.id)
  {
    hide Trim, Blank;
    TrimTold(e.item.callId);
    TrimTold(e.item.id);
  }

  /** Payload bits of a UTF-8 sequence of `n` bytes, as a bound on the code point. */
  function Capacity(n: nat): nat {
    if n == 0 then 0 else if n == 1 then 0x80 else if n == 2 then 32 * 64 else if n == 3 then 16 * 64 * 64 else 8 * 64 * 64 * 64
  }

  /** A character takes the shortest sequence that has room for it. */
  lemma ShortestForm(c: char)
    ensures Capacity(CharBytes(c) - 1) <= c as int < Capacity(CharBytes(c))
  {
  }
}
