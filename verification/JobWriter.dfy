/** The spoke's response writer: bytes in, result frames out. */
module JobWriter {
  import opened JobWaiter

  datatype State = State(stream: bool, buf: string, rec: string, status: int, failed: bool, frames: seq<Frame>)

  function Initial(stream: bool): State {
    State(stream, "", "", 200, false, [])
  }

  /** What a handler does with a writer before it finishes it; `up` says whether the connection takes the frame. */
  datatype Op = Write(text: string) | WriteHeader(status: int) | Flush(up: bool)

  function WriteStep(s: State, text: string): State {
    if s.failed then s
    else if s.stream then s.(buf := s.buf + text)
    else s.(rec := s.rec + text)
  }

  /** The buffer is emptied before the frame is sent. */
  function FlushStep(s: State, up: bool): State {
    if !s.stream || s.buf == "" || s.failed then s
    else if up then s.(buf := "", frames := s.frames + [Frame(s.buf, false, 0)])
    else s.(buf := "", failed := true)
  }

  function Did(s: State, op: Op): State {
    match op
    case Write(t) => WriteStep(s, t)
    case WriteHeader(status) => s.(status := status)
    case Flush(up) => FlushStep(s, up)
  }

  function Done(s: State, ops: seq<Op>): State {
    if ops == [] then s else Did(Done(s, ops[..|ops| - 1]), ops[|ops| - 1])
  }

  /** The closing frames; the result says whether all went out. `up1`, `up2`: does the connection
      take the first and the second frame. */
  function FinishStep(s: State, up1: bool, up2: bool): (State, bool) {
    if s.failed then (s, false)
    else if s.stream then
      if s.buf == "" then
        if up1 then (s.(frames := s.frames + [Frame("", true, s.status)]), true) else (s, false)
      else if !up1 then (s, false)
      else
        var t := s.(buf := "", frames := s.frames + [Frame(s.buf, false, 0)]);
        if up2 then (t.(frames := t.frames + [Frame("", true, s.status)]), true) else (t, false)
    else if up1 then (s.(frames := s.frames + [Frame(s.rec, true, s.status)]), true)
    else (s, false)
  }

  class Writer {
    const stream: bool
    var buf: string
    var rec: string
    var statusCode: int
    var err: bool
    var frames: seq<Frame>   // what the sink has taken

    ghost function View(): State
      reads this
    {
      State(stream, buf, rec, statusCode, err, frames)
    }

    constructor (streaming: bool)
      ensures View() == Initial(streaming)
    {
      stream := streaming;
      buf, rec, statusCode, err, frames := "", "", 200, false, [];
    }

    method SendResult(chunk: string, final: bool, status: int, up: bool) returns (ok: bool)
      modifies this`frames
      ensures ok == up && frames == if up then old(frames) + [Frame(chunk, final, status)] else old(frames)
    {
      ok := up;
      if up {
        frames := frames + [Frame(chunk, final, status)];
      }
    }

    method WriteText(b: string) returns (ok: bool)
      modifies this`buf, this`rec
      ensures View() == Did(old(View()), Write(b)) && ok == !err
    {
      if err {
        return false;
      }
      if stream {
        buf := buf + b;
      } else {
        rec := rec + b;
      }
      ok := true;
    }

    method SetStatus(status: int)
      modifies this`statusCode
      ensures View() == Did(old(View()), WriteHeader(status))
    {
      statusCode := status;
    }

    method FlushBuffer(up: bool)
      modifies this`buf, this`err, this`frames
      ensures View() == Did(old(View()), Flush(up))
    {
      if !stream || buf == "" || err {
        return;
      }
      var chunk := buf;
      buf := "";
      var ok := SendResult(chunk, false, 0, up);
      if !ok {
        err := true;
      }
    }

    method FinishWriting(up1: bool, up2: bool) returns (ok: bool)
      modifies this`buf, this`frames
      ensures (View(), ok) == FinishStep(old(View()), up1, up2)
    {
      if err {
        return false;
      }
      if stream {
        var up := up1;
        if buf != "" {
          ok := SendResult(buf, false, 0, up1);
          if !ok {
            return;
          }
          buf := "";
          up := up2;
        }
        ok := SendResult("", true, statusCode, up);
        return;
      }
      ok := SendResult(rec, true, statusCode, up1);
    }
  }

  // ---- conservation ----

  /** The bytes the writer accepted, in order. */
  function Accepted(s: State, ops: seq<Op>): string {
    if ops == [] then ""
    else
      var last := ops[|ops| - 1];
      Accepted(s, ops[..|ops| - 1])
      + (if last.Write? && !Done(s, ops[..|ops| - 1]).failed then last.text else "")
  }

  predicate NoneFinal(fs: seq<Frame>) {
    forall i :: 0 <= i < |fs| ==> !fs[i].final
  }

  /** Frames sent and bytes still held are the bytes accepted; a lost frame leaves a prefix of them. */
  lemma {:induction false} HeldOrSent(stream: bool, ops: seq<Op>)
    ensures var s := Done(Initial(stream), ops);
            && NoneFinal(s.frames) && s.stream == stream
            && (!s.failed ==> (if stream then Chunks(s.frames) + s.buf else s.rec) == Accepted(Initial(stream), ops))
            && (s.failed ==> stream && Chunks(s.frames) <= Accepted(Initial(stream), ops))
            && (stream ==> s.rec == "") && (!stream ==> s.frames == [] && s.buf == "")
  {
    var s0 := Initial(stream);
    if ops == [] {
      assert Chunks([]) + "" == "";
    } else {
      var p, last := ops[..|ops| - 1], ops[|ops| - 1];
      var s := Done(s0, p);
      var so := Accepted(s0, p);
      HeldOrSent(stream, p);
      assert so + "" == so;
      match last
      case Write(t) =>
        assert Chunks(s.frames) + (s.buf + t) == Chunks(s.frames) + s.buf + t;
      case WriteHeader(_) =>
      case Flush(up) =>
        ChunksConcat(s.frames, [Frame(s.buf, false, 0)]);
        OneChunk(Frame(s.buf, false, 0));
        assert Chunks(s.frames) + s.buf + "" == Chunks(s.frames) + s.buf;
        assert Chunks(s.frames) <= Chunks(s.frames) + s.buf;
    }
  }

  lemma OneChunk(f: Frame)
    ensures Chunks([f]) == f.chunk
  {
    assert [f][1..] == [] && f.chunk + "" == f.chunk;
  }

  /** Whatever is written and flushed, and whatever the connection does: if finishing succeeds, the
      frames hold the accepted bytes in order and exactly one of them, the last, is final; if not, none is
      final and they hold a prefix. */
  lemma FramesConserve(stream: bool, ops: seq<Op>, up1: bool, up2: bool)
    ensures var s := Done(Initial(stream), ops);
            var (t, ok) := FinishStep(s, up1, up2);
            var all := Accepted(Initial(stream), ops);
            if ok then Closed(t.frames) && Chunks(t.frames) == all && t.frames[|t.frames| - 1].status == s.status
            else NoneFinal(t.frames) && Chunks(t.frames) <= all
  {
    hide Chunks, NoneFinal, Closed, Accepted, Done;
    var s := Done(Initial(stream), ops);
    HeldOrSent(stream, ops);
    var body, last := Frame(s.buf, false, 0), Frame("", true, s.status);
    OneMore(s.frames, body);
    OneMore(s.frames, last);
    OneMore(s.frames + [body], last);
    OneMore(s.frames, Frame(s.rec, true, s.status));
    NothingSent();
    assert Chunks(s.frames) + s.buf + "" == Chunks(s.frames) + s.buf && Chunks(s.frames) + "" == Chunks(s.frames);
    assert "" + s.rec == s.rec;
  }

  lemma NothingSent()
    ensures Chunks([]) == ""
  {
  }

  lemma OneMore(fs: seq<Frame>, f: Frame)
    ensures Chunks(fs + [f]) == Chunks(fs) + f.chunk
    ensures NoneFinal(fs) ==> if f.final then Closed(fs + [f]) else NoneFinal(fs + [f])
  {
    hide Chunks;
    ChunksConcat(fs, [f]);
    OneChunk(f);
  }

  /** From the handler on the spoke to the caller on the hub: the body is what was written, whenever the caller
      looks. The writer streams only for a job that does. */
  lemma BodyArrives(jobStreams: bool, stream: bool, ops: seq<Op>, up1: bool, up2: bool)
    requires stream ==> jobStreams
    ensures var s := Done(Initial(stream), ops);
            var (t, ok) := FinishStep(s, up1, up2);
            ok ==> forall k :: MayLook(jobStreams, t.frames, k) ==> HubBody(jobStreams, t.frames, k) == Accepted(Initial(stream), ops)
  {
    hide HubBody, Closed, MayLook;
    FramesConserve(stream, ops, up1, up2);
    HeldOrSent(stream, ops);
    var s := Done(Initial(stream), ops);
    var (t, ok) := FinishStep(s, up1, up2);
    if ok {
      assert !LateErrorText(t.frames);
      AlwaysChunksIff(jobStreams, t.frames);
    }
  }

  // ---- the status ----

  /** The status the handler set last. */
  function StatusSet(ops: seq<Op>): int {
    if ops == [] then 200 else if ops[|ops| - 1].WriteHeader? then ops[|ops| - 1].status else StatusSet(ops[..|ops| - 1])
  }

  lemma {:induction false} HoldsStatus(stream: bool, ops: seq<Op>)
    ensures Done(Initial(stream), ops).status == StatusSet(ops)
  {
    if ops != [] {
      HoldsStatus(stream, ops[..|ops| - 1]);
    }
  }

  /** No empty frame is sent before the last. */
  predicate AllFull(fs: seq<Frame>) {
    forall i :: 0 <= i < |fs| ==> fs[i].chunk != ""
  }

  lemma {:induction false} SendsFull(stream: bool, ops: seq<Op>)
    ensures AllFull(Done(Initial(stream), ops).frames)
  {
    if ops != [] {
      SendsFull(stream, ops[..|ops| - 1]);
    }
  }

  lemma FullSays(fs: seq<Frame>)
    requires AllFull(fs) && fs != []
    ensures Chunks(fs) != ""
  {
    assert |Chunks(fs)| == |fs[0].chunk| + |Chunks(fs[1..])|;
  }

  /** What finishing sends: text first if there is any, then the last frame. */
  lemma Finishes(stream: bool, ops: seq<Op>, up1: bool, up2: bool)
    requires FinishStep(Done(Initial(stream), ops), up1, up2).1
    ensures var fs := FinishStep(Done(Initial(stream), ops), up1, up2).0.frames;
            var before := fs[..|fs| - 1];
            && Closed(fs) && fs[|fs| - 1].status == StatusSet(ops)
            && (stream && Accepted(Initial(stream), ops) != "" ==> Chunks(before) != "")
            && (stream && Accepted(Initial(stream), ops) == "" ==> before == [])
            && (!stream ==> before == [])
  {
    hide Closed, Chunks, Accepted, Done, AllFull;
    var s := Done(Initial(stream), ops);
    var fs := FinishStep(s, up1, up2).0.frames;
    FramesConserve(stream, ops, up1, up2);
    HoldsStatus(stream, ops);
    HeldOrSent(stream, ops);
    var before, last := fs[..|fs| - 1], fs[|fs| - 1];
    assert fs == before + [last];
    if stream {
      assert last.chunk == "";
      OneMore(before, last);
      assert Chunks(before) + "" == Chunks(before);
      if s.buf != "" {
        assert before == s.frames + [Frame(s.buf, false, 0)];
        OneMore(s.frames, Frame(s.buf, false, 0));
        assert |Chunks(before)| == |Chunks(s.frames)| + |s.buf|;
      } else {
        assert before == s.frames;
        SendsFull(stream, ops);
        if before != [] { FullSays(before); }
      }
    }
  }

  /** What status the caller on the hub gets for the one that was set: an answer that streams has its status
      sent after its text, and then it comes too late. */
  function StatusGot(jobStreams: bool, stream: bool, text: string, status: int): int {
    if jobStreams && (status < 400 || (stream && text != "")) then 200 else if status > 0 then status else 200
  }

  /** From the handler on the spoke to the caller on the hub, whenever the caller looks. */
  lemma StatusArrives(jobStreams: bool, stream: bool, ops: seq<Op>, up1: bool, up2: bool)
    requires stream ==> jobStreams
    requires FinishStep(Done(Initial(stream), ops), up1, up2).1
    ensures var fs := FinishStep(Done(Initial(stream), ops), up1, up2).0.frames;
            forall k :: MayLook(jobStreams, fs, k) ==>
              HubStatus(jobStreams, fs, k) == StatusGot(jobStreams, stream, Accepted(Initial(stream), ops), StatusSet(ops))
  {
    hide HubStatus, Closed, Chunks, FinishStep, Done, Accepted, StatusSet;
    var fs := FinishStep(Done(Initial(stream), ops), up1, up2).0.frames;
    Finishes(stream, ops, up1, up2);
    NothingSent();
    StatusOfPlain(fs);
    forall k: nat | MayLook(jobStreams, fs, k)
      ensures HubStatus(jobStreams, fs, k) == StatusGot(jobStreams, stream, Accepted(Initial(stream), ops), StatusSet(ops)) {
      if jobStreams {
        ErrorIff(fs, k);
      }
    }
  }

  // ---- when finishing succeeds ----

  /** Text that waits for the next flush. */
  function Waiting(ops: seq<Op>): string {
    if ops == [] then ""
    else
      match ops[|ops| - 1]
      case Write(t) => Waiting(ops[..|ops| - 1]) + t
      case WriteHeader(_) => Waiting(ops[..|ops| - 1])
      case Flush(_) => ""
  }

  /** The connection refused a flush that had text. */
  predicate FlushLost(ops: seq<Op>) {
    exists i :: 0 <= i < |ops| && ops[i] == Flush(false) && Waiting(ops[..i]) != ""
  }

  lemma LostSnoc(p: seq<Op>, op: Op)
    ensures FlushLost(p + [op]) <==> FlushLost(p) || (op == Flush(false) && Waiting(p) != "")
  {
    hide Waiting;
    var all := p + [op];
    assert forall i :: 0 <= i < |p| ==> all[i] == p[i] && all[..i] == p[..i];
    assert all[|p|] == op && all[..|p|] == p;
  }

  lemma {:induction false} HoldsWaiting(ops: seq<Op>)
    ensures var s := Done(Initial(true), ops);
            s.stream && (s.failed <==> FlushLost(ops)) && (!s.failed ==> s.buf == Waiting(ops))
  {
    hide FlushLost;
    if ops == [] {
      NothingLost();
    } else {
      var p, last := ops[..|ops| - 1], ops[|ops| - 1];
      HoldsWaiting(p);
      assert ops == p + [last];
      LostSnoc(p, last);
    }
  }

  lemma NothingLost()
    ensures !FlushLost([])
  {
  }

  lemma {:induction false} PlainNeverFails(ops: seq<Op>)
    ensures var s := Done(Initial(false), ops); !s.stream && !s.failed
  {
    if ops != [] {
      PlainNeverFails(ops[..|ops| - 1]);
    }
  }

  /** Finishing succeeds exactly if every frame it needed went out: each flush with text, the text that is left, and the
      last frame. A writer that does not stream needs only the last. */
  lemma FinishedIff(stream: bool, ops: seq<Op>, up1: bool, up2: bool)
    ensures FinishStep(Done(Initial(stream), ops), up1, up2).1
            <==> if stream then !FlushLost(ops) && up1 && (Waiting(ops) != "" ==> up2) else up1
  {
    hide Done, FlushLost, Waiting;
    if stream { HoldsWaiting(ops); } else { PlainNeverFails(ops); }
  }
}
