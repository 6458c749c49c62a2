/** What a Chat conversation says, told from its messages alone: which call each call is, which call each
    result is for, and the texts, calls and results in order. */
module Conversation {
  import opened Collections
  import Wire
  import opened ChatRequest

  datatype Part =
    | TextPart(role: string, text: string)
    | CallPart(callId: string, name: string, args: string)
    | ResultPart(callId: string, output: string)

  // ---- the ids of calls ----

  function Unnamed(tcs: seq<ToolCall>): nat {
    if tcs == [] then 0 else Unnamed(tcs[..|tcs| - 1]) + (if tcs[|tcs| - 1].id == "" then 1 else 0)
  }

  /** Calls without an id so far; each gets one from its number. */
  function Generated(ms: seq<Message>): nat {
    if ms == [] then 0
    else Generated(ms[..|ms| - 1]) + (if ms[|ms| - 1].role == "assistant" then Unnamed(ms[|ms| - 1].calls) else 0)
  }

  /** Legacy calls so far. */
  function Legacies(ms: seq<Message>): nat {
    if ms == [] then 0
    else Legacies(ms[..|ms| - 1]) + (if ms[|ms| - 1].role == "assistant" && ms[|ms| - 1].legacy.Some? then 1 else 0)
  }

  function NewIds(n: nat, tcs: seq<ToolCall>): seq<string>
    decreases tcs
  {
    if tcs == [] then []
    else if tcs[0].id == "" then [GeneratedId(n + 1)] + NewIds(n + 1, tcs[1..])
    else [tcs[0].id] + NewIds(n, tcs[1..])
  }

  /** The ids of all calls made by `tool_calls`, in order. */
  function CallIds(ms: seq<Message>): seq<string> {
    if ms == [] then []
    else
      var p := ms[..|ms| - 1];
      CallIds(p) + (if ms[|ms| - 1].role == "assistant" then NewIds(Generated(p), ms[|ms| - 1].calls) else [])
  }

  /** The ids of all legacy calls. */
  function LegacyIds(ms: seq<Message>): seq<string> {
    if ms == [] then []
    else
      var p, m := ms[..|ms| - 1], ms[|ms| - 1];
      LegacyIds(p) + (if m.role == "assistant" && m.legacy.Some? then [LegacyId(Legacies(p) + 1)] else [])
  }

  /** The ids of all calls, in order. */
  function MadeIds(ms: seq<Message>): seq<string> {
    if ms == [] then []
    else
      var p, m := ms[..|ms| - 1], ms[|ms| - 1];
      MadeIds(p) + (if m.role == "assistant" then NewIds(Generated(p), m.calls) else [])
      + (if m.role == "assistant" && m.legacy.Some? then [LegacyId(Legacies(p) + 1)] else [])
  }

  // ---- the calls that results are for ----

  /** A queue of calls: a result that names one takes it out, a result that names none takes the first. */
  function Waiting(ms: seq<Message>): seq<string> {
    if ms == [] then []
    else
      var p, m := ms[..|ms| - 1], ms[|ms| - 1];
      var q := Waiting(p);
      if m.role == "assistant" then q + NewIds(Generated(p), m.calls)
      else if m.role == "tool" then if m.callId != "" then RemoveFirst(q, m.callId) else if q != [] then q[1..] else q
      else q
  }

  /** The legacy calls of a function that have no result yet; a result takes them all out. */
  function OpenLegacy(ms: seq<Message>, name: string): seq<string> {
    if ms == [] then []
    else
      var p, m := ms[..|ms| - 1], ms[|ms| - 1];
      var q := OpenLegacy(p, name);
      if m.role == "assistant" && m.legacy.Some? && m.legacy.value.name == name then q + [LegacyId(Legacies(p) + 1)]
      else if m.role == "function" && m.name == name then []
      else q
  }

  /** The call that `m` answers after `ms`, or "". */
  function Target(ms: seq<Message>, m: Message): string {
    if m.role == "tool" then if m.callId != "" then m.callId else if Waiting(ms) != [] then Waiting(ms)[0] else ""
    else if m.role == "function" && OpenLegacy(ms, m.name) != [] then OpenLegacy(ms, m.name)[0]
    else ""
  }

  /** The calls answered, in the order of their results. */
  function Targets(ms: seq<Message>): seq<string> {
    if ms == [] then []
    else
      var p := ms[..|ms| - 1];
      var id := Target(p, ms[|ms| - 1]);
      Targets(p) + (if id != "" then [id] else [])
  }

  /** Every legacy result has a name and exactly one call it can be for. */
  predicate LegacyOk(ms: seq<Message>) {
    forall n :: 0 <= n < |ms| && ms[n].role == "function" ==> LegacyMatched(ms[..n], ms[n].name)
  }

  predicate LegacyMatched(ms: seq<Message>, name: string) {
    name != "" && |OpenLegacy(ms, name)| == 1
  }

  // ---- what is said ----

  function CallParts(isObject: string -> bool, n: nat, tcs: seq<ToolCall>): seq<Part>
    decreases |tcs|
  {
    if tcs == [] then []
    else
      var p, last := tcs[..|tcs| - 1], tcs[|tcs| - 1];
      CallParts(isObject, n, p)
      + [CallPart(if last.id == "" then GeneratedId(n + Unnamed(p) + 1) else last.id, last.name, NormalArgs(isObject, last.args))]
  }

  function TextOnly(role: string, text: string): seq<Part> {
    if text == "" then [] else [TextPart(role, text)]
  }

  function LegacyPart(isObject: string -> bool, n: nat, fc: Wire.Option<ToolCall>): seq<Part> {
    if fc.None? then [] else [CallPart(LegacyId(n + 1), fc.value.name, NormalArgs(isObject, fc.value.args))]
  }

  /** The texts and calls of one message after `ms`. A result for no call is a text of the user's. */
  function MessageSays(isObject: string -> bool, ms: seq<Message>, m: Message): seq<Part> {
    if m.role in {"system", "developer", "function"} then []
    else if m.role == "assistant" then
      TextOnly("assistant", m.content) + CallParts(isObject, Generated(ms), m.calls) + LegacyPart(isObject, Legacies(ms), m.legacy)
    else if m.role == "tool" then if Target(ms, m) == "" then [TextPart("user", MISSING_ID + m.content)] else []
    else [TextPart(m.role, m.content)]
  }

  /** All texts and calls but the system's, in order. */
  function Says(isObject: string -> bool, ms: seq<Message>): seq<Part> {
    if ms == [] then []
    else Says(isObject, ms[..|ms| - 1]) + MessageSays(isObject, ms[..|ms| - 1], ms[|ms| - 1])
  }

  /** All results, each with the call it is for, in order. */
  function Answers(ms: seq<Message>): seq<Part> {
    if ms == [] then []
    else
      var p, m := ms[..|ms| - 1], ms[|ms| - 1];
      Answers(p) + (if Target(p, m) != "" then [ResultPart(Target(p, m), m.content)] else [])
  }

  function Systems(ms: seq<Message>): seq<string> {
    if ms == [] then []
    else
      var m := ms[|ms| - 1];
      Systems(ms[..|ms| - 1]) + (if m.role in {"system", "developer"} then [m.content] else [])
  }

  predicate RolesOk(ms: seq<Message>) {
    forall i :: 0 <= i < |ms| ==> ms[i].role in {"system", "developer", "assistant", "tool", "function", "user"}
  }

  /** Distinct calls are distinct among the plain and among the legacy ones, and between them. */
  lemma {:induction false} MadeParts(ms: seq<Message>)
    ensures forall x :: x in MadeIds(ms) <==> x in CallIds(ms) || x in LegacyIds(ms)
    ensures Distinct(MadeIds(ms)) ==> Distinct(CallIds(ms)) && Distinct(LegacyIds(ms)) && forall x :: x in CallIds(ms) ==> x !in LegacyIds(ms)
  {
    hide NewIds, LegacyId, Distinct;
    if ms == [] {
      NoneDistinct<string>();
    } else {
      var p, m := ms[..|ms| - 1], ms[|ms| - 1];
      MadeParts(p);
      var a := if m.role == "assistant" then NewIds(Generated(p), m.calls) else [];
      var b := if m.role == "assistant" && m.legacy.Some? then [LegacyId(Legacies(p) + 1)] else [];
      DistinctParts(MadeIds(p) + a, b);
      DistinctParts(MadeIds(p), a);
      DistinctParts(CallIds(p), a);
      DistinctParts(LegacyIds(p), b);
      assert MadeIds(ms) == MadeIds(p) + a + b && CallIds(ms) == CallIds(p) + a && LegacyIds(ms) == LegacyIds(p) + b;
    }
  }

}
