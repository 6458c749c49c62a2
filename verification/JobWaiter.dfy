/** A cascade job: the spoke turns what its handler writes into result frames, the hub puts the
    frames of a job together again and hands them to whoever waits for it. */
module JobWaiter {
  import opened Wire

  datatype Frame = Frame(chunk: string, final: bool, status: int)

  // ---- the hub's side: one waiter, section by locked section ----

  /** `piped` is what went into the pipe of a streaming job; the pipe is closed once `done`. */
  datatype Waiter = Waiter(stream: bool, buf: string, piped: string, err: Option<string>, status: int, first: bool, done: bool)

  function Fresh(stream: bool): Waiter {
    Waiter(stream, "", "", None, 0, false, false)
  }

  function FinishLocked(w: Waiter, err: Option<string>): Waiter {
    if w.done then w else w.(err := if w.err.None? then err else w.err, done := true)
  }

  function Fail(w: Waiter, e: string): Waiter {
    FinishLocked(w, Some(e))
  }

  /** The body of an upstream error of a streaming job is kept for the answer, not piped. */
  predicate ErrorBody(w: Waiter, f: Frame) {
    w.stream && f.final && f.status >= 400
  }

  predicate ToPipe(w: Waiter, f: Frame) {
    f.chunk != "" && w.stream && !ErrorBody(w, f)
  }

  /** First section of appendChunk; a failed waiter takes nothing more. */
  function Take(w: Waiter, f: Frame): Waiter {
    if w.err.Some? then w
    else
      w.(buf := if f.chunk != "" && !ToPipe(w, f) then w.buf + f.chunk else w.buf,
         status := if f.final && f.status > 0 then f.status else w.status)
  }

  function Signal(w: Waiter): Waiter {
    w.(first := true)
  }

  /** Writing to a closed pipe has no effect. */
  function Pipe(w: Waiter, text: string): Waiter {
    if w.done then w else w.(piped := w.piped + text)
  }

  function Conclude(w: Waiter): Waiter {
    if w.err.None? then FinishLocked(w, None) else w
  }

  /** appendChunk without interruption. */
  function Append(w: Waiter, f: Frame): Waiter {
    if w.err.Some? then w
    else
      var a := Signal(Take(w, f));
      var b := if ToPipe(w, f) then Pipe(a, f.chunk) else a;
      if f.final then Conclude(b) else b
  }

  /** What the waiting side gets once the waiter is done. */
  datatype Outcome = Failed(err: string) | Body(text: string)

  function Waited(w: Waiter): Outcome {
    if w.err.Some? then Failed(w.err.value) else Body(w.buf)
  }

  class Job {
    const stream: bool
    var buf: string
    var piped: string
    var err: Option<string>
    var statusCode: int
    var firstReady: bool
    var done: bool

    ghost function View(): Waiter
      reads this
    {
      Waiter(stream, buf, piped, err, statusCode, firstReady, done)
    }

    constructor (streaming: bool)
      ensures View() == Fresh(streaming)
    {
      stream := streaming;
      buf, piped, err, statusCode, firstReady, done := "", "", None, 0, false, false;
    }

    method FinishWith(e: Option<string>)
      modifies this`err, this`done
      ensures View() == FinishLocked(old(View()), e)
    {
      if done {
        return;
      }
      if err.None? && e.Some? {
        err := e;
      }
      done := true;
    }

    method FailWith(e: string)
      modifies this`err, this`done
      ensures View() == Fail(old(View()), e)
    {
      FinishWith(Some(e));
    }

    method AppendChunk(f: Frame)
      modifies this
      ensures View() == Append(old(View()), f)
    {
      var toWrite := "";
      if err.Some? {
        return;
      }
      var streamUpstreamError := stream && f.final && f.status >= 400;
      if f.chunk != "" {
        if streamUpstreamError || !stream {
          buf := buf + f.chunk;
        } else {
          toWrite := f.chunk;
        }
      }
      if f.final && f.status > 0 {
        statusCode := f.status;
      }
      firstReady := true;
      if toWrite != "" && !done {
        piped := piped + toWrite;
      }
      if f.final && err.None? {
        FinishWith(None);
      }
    }

    method Wait() returns (r: Outcome)
      requires done
      ensures r == Waited(View())
    {
      if err.Some? {
        return Failed(err.value);
      }
      r := Body(buf);
    }
  }

  // ---- whatever happens to a waiter, its outcome is decided once ----

  /** The locked sections that can hit a waiter, in any order and from any thread. */
  datatype Op = TakeOp(f: Frame) | SignalOp | PipeOp(text: string) | FinishOp | FailOp(e: string)

  function Apply(w: Waiter, op: Op): Waiter {
    match op
    case TakeOp(f) => Take(w, f)
    case SignalOp => Signal(w)
    case PipeOp(t) => Pipe(w, t)
    case FinishOp => Conclude(w)
    case FailOp(e) => Fail(w, e)
  }

  function ApplyAll(w: Waiter, ops: seq<Op>): Waiter
    decreases ops
  {
    if ops == [] then w else ApplyAll(Apply(w, ops[0]), ops[1..])
  }

  /** An error only ever comes with being done. */
  predicate Sane(w: Waiter) {
    w.err.Some? ==> w.done
  }

  lemma {:induction false} StaysSane(w: Waiter, ops: seq<Op>)
    requires Sane(w)
    ensures Sane(ApplyAll(w, ops))
    decreases ops
  {
    if ops != [] {
      StaysSane(Apply(w, ops[0]), ops[1..]);
    }
  }

  /** Once done, a waiter stays done with the same error and the same piped text; one that failed
      keeps everything. */
  lemma {:induction false} OutcomeStays(w: Waiter, ops: seq<Op>)
    requires Sane(w) && w.done
    ensures var v := ApplyAll(w, ops);
            v.done && v.err == w.err && v.piped == w.piped && (w.err.Some? ==> Waited(v) == Waited(w) && v.status == w.status)
    decreases ops
  {
    if ops != [] {
      OutcomeStays(Apply(w, ops[0]), ops[1..]);
    }
  }

  /** The text that frames still add to the buffer, and the status the last of them sets. */
  function AddedText(stream: bool, ops: seq<Op>): string
    decreases ops
  {
    if ops == [] then ""
    else
      (if ops[0].TakeOp? && (!stream || (ops[0].f.final && ops[0].f.status >= 400)) then ops[0].f.chunk else "")
      + AddedText(stream, ops[1..])
  }

  function AddedStatus(ops: seq<Op>, before: int): int
    decreases ops
  {
    if ops == [] then before
    else AddedStatus(ops[1..], if ops[0].TakeOp? && ops[0].f.final && ops[0].f.status > 0 then ops[0].f.status else before)
  }

  /** Done without an error, a waiter still takes in frames. */
  lemma {:induction false} DoneStillTakes(w: Waiter, ops: seq<Op>)
    requires w.done && w.err.None?
    ensures ApplyAll(w, ops).buf == w.buf + AddedText(w.stream, ops)
    ensures ApplyAll(w, ops).status == AddedStatus(ops, w.status)
    decreases ops
  {
    hide Apply;
    if ops == [] {
      assert w.buf + "" == w.buf;
    } else {
      var more := if ops[0].TakeOp? && (!w.stream || (ops[0].f.final && ops[0].f.status >= 400)) then ops[0].f.chunk else "";
      DoneTakes(w, ops[0]);
      DoneStillTakes(Apply(w, ops[0]), ops[1..]);
      assert w.buf + more + AddedText(w.stream, ops[1..]) == w.buf + (more + AddedText(w.stream, ops[1..]));
    }
  }

  lemma DoneTakes(w: Waiter, op: Op)
    requires w.done && w.err.None?
    ensures var v := Apply(w, op);
            && v.done && v.err.None? && v.stream == w.stream
            && v.buf == w.buf + (if op.TakeOp? && (!w.stream || (op.f.final && op.f.status >= 400)) then op.f.chunk else "")
            && v.status == if op.TakeOp? && op.f.final && op.f.status > 0 then op.f.status else w.status
  {
    assert w.buf + "" == w.buf;
  }

  /** So what the waiting side gets stays the same if and only if there was an error, or no frame comes that
      adds text; and so does the status, or no frame comes that sets another. */
  lemma OutcomeKeptIff(w: Waiter, ops: seq<Op>)
    requires Sane(w) && w.done
    ensures Waited(ApplyAll(w, ops)) == Waited(w) <==> w.err.Some? || AddedText(w.stream, ops) == ""
    ensures ApplyAll(w, ops).status == w.status <==> w.err.Some? || AddedStatus(ops, w.status) == w.status
  {
    OutcomeStays(w, ops);
    if w.err.None? {
      DoneStillTakes(w, ops);
      assert |w.buf + AddedText(w.stream, ops)| == |w.buf| + |AddedText(w.stream, ops)|;
      assert w.buf + "" == w.buf;
    }
  }

  /** No text is added exactly if no such frame has any. */
  lemma {:induction false} AddsNoTextIff(stream: bool, ops: seq<Op>)
    ensures AddedText(stream, ops) == "" <==>
            forall i :: 0 <= i < |ops| && ops[i].TakeOp? && ops[i].f.chunk != "" ==> stream && !(ops[i].f.final && ops[i].f.status >= 400)
    decreases ops
  {
    if ops != [] {
      AddsNoTextIff(stream, ops[1..]);
      assert forall i :: 0 <= i < |ops| - 1 ==> ops[i + 1] == ops[1..][i];
      assert forall i :: 1 <= i < |ops| ==> ops[i] == ops[1..][i - 1];
    }
  }

  /** The first finish or failure decides: after a failure nothing changes any more, after a finish there is
      no error any more, and nothing changes but for frames that still come. */
  lemma FirstDecides(ops: seq<Op>, rest: seq<Op>, stream: bool)
    requires !ApplyAll(Fresh(stream), ops).done
    ensures var w := ApplyAll(Fresh(stream), ops);
            && Waited(ApplyAll(Conclude(w), rest)) == Body(w.buf + AddedText(stream, rest))
            && ApplyAll(Conclude(w), rest).piped == w.piped
            && ApplyAll(Conclude(w), rest).status == AddedStatus(rest, w.status)
            && forall e :: Waited(ApplyAll(Fail(w, e), rest)) == Failed(e) && ApplyAll(Fail(w, e), rest).status == w.status
  {
    var w := ApplyAll(Fresh(stream), ops);
    StaysSane(Fresh(stream), ops);
    KeepsStream(Fresh(stream), ops);
    OutcomeStays(Conclude(w), rest);
    DoneStillTakes(Conclude(w), rest);
    forall e ensures Waited(ApplyAll(Fail(w, e), rest)) == Failed(e) && ApplyAll(Fail(w, e), rest).status == w.status {
      OutcomeStays(Fail(w, e), rest);
    }
  }

  lemma {:induction false} KeepsStream(w: Waiter, ops: seq<Op>)
    ensures ApplyAll(w, ops).stream == w.stream
    decreases ops
  {
    if ops != [] {
      KeepsStream(Apply(w, ops[0]), ops[1..]);
    }
  }

  // ---- frames put together again ----

  function AppendAll(w: Waiter, fs: seq<Frame>): Waiter
    decreases fs
  {
    if fs == [] then w else AppendAll(Append(w, fs[0]), fs[1..])
  }

  function Chunks(fs: seq<Frame>): string {
    if fs == [] then "" else fs[0].chunk + Chunks(fs[1..])
  }

  /** Exactly one final frame, and it comes last. */
  predicate Closed(fs: seq<Frame>) {
    fs != [] && fs[|fs| - 1].final && forall i :: 0 <= i < |fs| - 1 ==> !fs[i].final
  }

  lemma {:induction false} OpenFrames(w: Waiter, fs: seq<Frame>)
    requires w.err.None? && !w.done && forall i :: 0 <= i < |fs| ==> !fs[i].final
    ensures AppendAll(w, fs) ==
            if w.stream then w.(piped := w.piped + Chunks(fs), first := w.first || fs != [])
            else w.(buf := w.buf + Chunks(fs), first := w.first || fs != [])
    decreases fs
  {
    hide Append;
    if fs == [] {
      assert w.piped + "" == w.piped && w.buf + "" == w.buf;
    } else {
      var c, rest := fs[0].chunk, Chunks(fs[1..]);
      OpenFrame(w, fs[0]);
      OpenFrames(Append(w, fs[0]), fs[1..]);
      assert w.piped + c + rest == w.piped + (c + rest) && w.buf + c + rest == w.buf + (c + rest);
    }
  }

  lemma OpenFrame(w: Waiter, f: Frame)
    requires w.err.None? && !w.done && !f.final
    ensures Append(w, f) == if w.stream then w.(piped := w.piped + f.chunk, first := true) else w.(buf := w.buf + f.chunk, first := true)
  {
    assert f.chunk == "" ==> w.piped + f.chunk == w.piped && w.buf + f.chunk == w.buf;
  }

  lemma {:induction false} AppendConcat(w: Waiter, a: seq<Frame>, b: seq<Frame>)
    ensures AppendAll(w, a + b) == AppendAll(AppendAll(w, a), b)
    decreases a
  {
    hide Append;
    if a == [] {
      assert a + b == b;
    } else {
      assert (a + b)[1..] == a[1..] + b;
      AppendConcat(Append(w, a[0]), a[1..], b);
    }
  }

  lemma {:induction false} ChunksConcat(a: seq<Frame>, b: seq<Frame>)
    ensures Chunks(a + b) == Chunks(a) + Chunks(b)
  {
    if a == [] {
      assert a + b == b;
    } else {
      assert (a + b)[1..] == a[1..] + b;
      ChunksConcat(a[1..], b);
    }
  }

  // ---- what the hub answers ----

  /** A caller that looks when `k` frames have been taken. A streaming one looks as soon as it gets to it after
      the first; until then the pipe holds back every frame after one with text. Others wait for the last. */
  predicate MayLook(stream: bool, fs: seq<Frame>, k: nat) {
    if stream then 1 <= k <= |fs| && Chunks(fs[..k - 1]) == "" else k == |fs|
  }

  /** The answer's status, from the status seen. */
  function AnswerStatus(stream: bool, seen: int): int {
    if stream && seen < 400 then 200 else if seen > 0 then seen else 200
  }

  /** The answer's body: an error's is in the buffer, and that of a stream comes through the pipe. */
  function AnswerBody(w: Waiter, seen: int): string {
    if w.stream && seen < 400 then w.piped else w.buf
  }

  function StatusAfter(stream: bool, fs: seq<Frame>): int {
    AppendAll(Fresh(stream), fs).status
  }

  function HubStatus(stream: bool, fs: seq<Frame>, k: nat): int
    requires k <= |fs|
  {
    AnswerStatus(stream, StatusAfter(stream, fs[..k]))
  }

  function HubBody(stream: bool, fs: seq<Frame>, k: nat): string
    requires k <= |fs|
  {
    AnswerBody(AppendAll(Fresh(stream), fs), StatusAfter(stream, fs[..k]))
  }

  lemma LastFrame(w: Waiter, last: Frame)
    requires w.err.None? && !w.done && last.final
    ensures var v := Append(w, last);
            var late := w.stream && last.status >= 400;
            && v.done && v.err.None? && v.first && v.stream == w.stream
            && v.piped == (if !w.stream || late then w.piped else w.piped + last.chunk)
            && v.buf == (if !w.stream || late then w.buf + last.chunk else w.buf)
            && v.status == if last.status > 0 then last.status else w.status
  {
    assert last.chunk == "" ==> w.piped + last.chunk == w.piped && w.buf + last.chunk == w.buf;
  }

  /** Frames before the last, and the last one. */
  lemma ClosedFrames(stream: bool, fs: seq<Frame>)
    requires Closed(fs)
    ensures var w := AppendAll(Fresh(stream), fs);
            var before, last := Chunks(fs[..|fs| - 1]), fs[|fs| - 1];
            var late := stream && last.status >= 400;
            && Chunks(fs) == before + last.chunk
            && w.done && w.err.None? && w.first && w.stream == stream
            && w.piped == (if !stream then "" else if late then before else before + last.chunk)
            && w.buf == (if !stream then before + last.chunk else if late then last.chunk else "")
            && w.status == if last.status > 0 then last.status else 0
  {
    ClosedSplit(fs);
    hide *;
    ClosedParts(stream, fs[..|fs| - 1], fs[|fs| - 1]);
  }

  lemma ClosedSplit(fs: seq<Frame>)
    requires Closed(fs)
    ensures fs != [] && fs == fs[..|fs| - 1] + [fs[|fs| - 1]] && fs[|fs| - 1].final
    ensures var a := fs[..|fs| - 1]; forall i :: 0 <= i < |a| ==> !a[i].final
  {
  }

  lemma ClosedParts(stream: bool, a: seq<Frame>, last: Frame)
    requires last.final && forall i :: 0 <= i < |a| ==> !a[i].final
    ensures Chunks(a + [last]) == Chunks(a) + last.chunk
    ensures var w := AppendAll(Fresh(stream), a + [last]);
            var late := stream && last.status >= 400;
            && w.done && w.err.None? && w.first && w.stream == stream
            && w.piped == (if !stream then "" else if late then Chunks(a) else Chunks(a) + last.chunk)
            && w.buf == (if !stream then Chunks(a) + last.chunk else if late then last.chunk else "")
            && w.status == if last.status > 0 then last.status else 0
  {
    hide Append, AppendAll, Chunks;
    var v := AppendAll(Fresh(stream), a);
    var before := Chunks(a);
    OpenFrames(Fresh(stream), a);
    AppendConcat(Fresh(stream), a, [last]);
    ChunksConcat(a, [last]);
    OneFrame(v, last);
    LastFrame(v, last);
    var none := "";
    assert none + before == before && none + last.chunk == last.chunk;
  }

  lemma OneFrame(w: Waiter, f: Frame)
    ensures AppendAll(w, [f]) == Append(w, f) && Chunks([f]) == f.chunk
  {
    hide Append;
    assert [f][1..] == [] && f.chunk + "" == f.chunk;
    assert AppendAll(Append(w, f), []) == Append(w, f);
  }

  /** Before the last frame no status is set. */
  lemma NoStatusYet(stream: bool, fs: seq<Frame>, k: nat)
    requires Closed(fs) && k < |fs|
    ensures StatusAfter(stream, fs[..k]) == 0
  {
    OpenFrames(Fresh(stream), fs[..k]);
  }

  lemma {:induction false} ChunksPrefix(fs: seq<Frame>, k: nat)
    requires k <= |fs| && Chunks(fs) == ""
    ensures Chunks(fs[..k]) == ""
  {
    assert fs == fs[..k] + fs[k..];
    ChunksConcat(fs[..k], fs[k..]);
    assert |Chunks(fs)| == |Chunks(fs[..k])| + |Chunks(fs[k..])|;
  }

  /** A job that does not stream is answered with the status of its last frame, or with 200 if that has none. */
  lemma StatusOfPlain(fs: seq<Frame>)
    requires Closed(fs)
    ensures HubStatus(false, fs, |fs|) == if fs[|fs| - 1].status > 0 then fs[|fs| - 1].status else 200
  {
    assert fs[..|fs|] == fs;
    ClosedFrames(false, fs);
  }

  /** The answer is an error exactly if the caller looks when the last frame has been taken, and that one
      says so. */
  lemma ErrorIff(fs: seq<Frame>, k: nat)
    requires Closed(fs) && MayLook(true, fs, k)
    ensures HubStatus(true, fs, k) >= 400 <==> k == |fs| && fs[|fs| - 1].status >= 400
    ensures HubStatus(true, fs, k) == 200 || HubStatus(true, fs, k) == fs[|fs| - 1].status >= 400
  {
    if k < |fs| {
      NoStatusYet(true, fs, k);
    } else {
      assert fs[..k] == fs;
      ClosedFrames(true, fs);
    }
  }

  /** A streaming job is answered with 200 whenever its caller looks, if and only if the last frame does not
      say otherwise or some frame before it has text. */
  lemma StatusOfStream(fs: seq<Frame>)
    requires Closed(fs)
    ensures (forall k :: MayLook(true, fs, k) ==> HubStatus(true, fs, k) == 200)
            <==> fs[|fs| - 1].status < 400 || Chunks(fs[..|fs| - 1]) != ""
  {
    hide HubStatus, Chunks;
    forall k: nat | MayLook(true, fs, k) ensures HubStatus(true, fs, k) == 200 <==> k < |fs| || fs[|fs| - 1].status < 400 {
      ErrorIff(fs, k);
    }
    if Chunks(fs[..|fs| - 1]) == "" {
      assert MayLook(true, fs, |fs|);
    }
  }

  /** Some frame before the last, and a last one that carries both an error status and text. */
  predicate LateErrorText(fs: seq<Frame>) {
    |fs| > 1 && fs[|fs| - 1].status >= 400 && fs[|fs| - 1].chunk != ""
  }

  /** The hub's body is the frames' text, in order, unless a streaming caller looks before a last frame
      with an error status and text: that text is then in the buffer, and the caller reads the pipe. */
  lemma BodyIsChunks(stream: bool, fs: seq<Frame>, k: nat)
    requires Closed(fs) && MayLook(stream, fs, k)
    ensures HubBody(stream, fs, k) == Chunks(fs) <==> !(stream && k < |fs| && LateErrorText(fs))
  {
    ClosedFrames(stream, fs);
    var before, last := Chunks(fs[..|fs| - 1]), fs[|fs| - 1];
    assert |before + last.chunk| == |before| + |last.chunk|;
    assert last.chunk == "" ==> before + last.chunk == before;
    if k < |fs| {
      NoStatusYet(stream, fs, k);
    } else {
      assert fs[..k] == fs;
      assert before == "" ==> before + last.chunk == last.chunk;
    }
  }

  /** So it is whenever a caller may look, if and only if there is no such last frame. */
  lemma AlwaysChunksIff(stream: bool, fs: seq<Frame>)
    requires Closed(fs)
    ensures (forall k :: MayLook(stream, fs, k) ==> HubBody(stream, fs, k) == Chunks(fs)) <==> !(stream && LateErrorText(fs))
  {
    hide HubBody, Closed;
    forall k: nat | MayLook(stream, fs, k) ensures HubBody(stream, fs, k) == Chunks(fs) <==> !(stream && k < |fs| && LateErrorText(fs)) {
      BodyIsChunks(stream, fs, k);
    }
    if stream && LateErrorText(fs) {
      assert fs[..0] == [];
      assert MayLook(true, fs, 1);
    }
  }

  /** One and the same frames, two answers: 200 without the text, or the error with it. */
  lemma LateErrorRaces()
    ensures var fs := [Frame("", false, 0), Frame("boom", true, 500)];
            && Closed(fs)
            && MayLook(true, fs, 1) && HubStatus(true, fs, 1) == 200 && HubBody(true, fs, 1) == ""
            && MayLook(true, fs, 2) && HubStatus(true, fs, 2) == 500 && HubBody(true, fs, 2) == "boom"
  {
    var fs := [Frame("", false, 0), Frame("boom", true, 500)];
    assert Closed(fs);
    assert fs[..1] == [fs[0]] && fs[..0] == [] && fs[..2] == fs && [fs[0]][1..] == [];
    ClosedFrames(true, fs);
    NoStatusYet(true, fs, 1);
  }
}
