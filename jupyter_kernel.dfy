/** `JupyterKernelManager`: the `kernel_id`/`ws_url` pair that
    `create_kernel` sets and `shutdown_kernel` clears, the bounded
    readiness poll, and the fold of the kernel's websocket frames into an
    `{output, error, exit_code}` record. HTTP and the websocket are
    abstracted: the gateway's answers are parameters. */
module JupyterKernel {
  import opened Wrappers
  import opened Text
  import opened Protocol

  const MaxWait: nat := 30
  const NoKernelMessage: string := "No active kernel. Call create_kernel() first."
  const TimeoutMessage: string := "Kernel did not become ready within timeout"

  /** One decoded websocket message, by its `header.msg_type`. */
  datatype Frame =
    | Stream(text: string)                    // "stream": content.text
    | ErrorFrame(ename: string, evalue: string) // "error": content.ename, content.evalue
    | ExecuteReply                            // "execute_reply"
    | OtherFrame(msgType: string)             // any other type

  /** What the websocket delivers: the connection fails, or these frames
      arrive and, once they are used up, `recv` raises `afterwards`. */
  datatype Connection =
    | Refused(raised: Exception)
    | Frames(frames: seq<Frame>, afterwards: Exception)

  /** The dictionary `execute_code` returns; `error` is `None` when no error
      frame arrived. */
  datatype KernelResult = KernelResult(output: string, error: Option<string>, exitCode: int)

  /** One answer of the status endpoint: its `execution_state` (`'unknown'`
      when absent), or the exception the request raised. */
  datatype Poll = Status(executionState: string) | PollFailed(raised: Exception)

  predicate IsIdle(p: Poll) {
    p == Status("idle")
  }

  /** The text collected for the stream frames, in arrival order. */
  function StreamTexts(frames: seq<Frame>): (texts: seq<string>)
    ensures |texts| <= |frames|
  {
    if frames == [] then []
    else
      var init := StreamTexts(frames[..|frames| - 1]);
      match frames[|frames| - 1]
      case Stream(text) => init + [text]
      case _ => init
  }

  /** The error recorded by the error frames: the last one wins. */
  function LastError(frames: seq<Frame>): (e: Option<string>)
  {
    if frames == [] then None
    else
      match frames[|frames| - 1]
      case ErrorFrame(ename, evalue) => Some(ename + ": " + evalue)
      case _ => LastError(frames[..|frames| - 1])
  }

  /** Where the first `execute_reply` frame is, if any. */
  function ReplyAt(frames: seq<Frame>, i: nat): (r: Option<nat>)
    requires i <= |frames|
    ensures r.Some? ==> i <= r.value < |frames| && frames[r.value] == ExecuteReply
    ensures r.Some? ==> forall k :: i <= k < r.value ==> frames[k] != ExecuteReply
    ensures r.None? ==> forall k :: i <= k < |frames| ==> frames[k] != ExecuteReply
    decreases |frames| - i
  {
    if i == |frames| then None
    else if frames[i] == ExecuteReply then Some(i)
    else ReplyAt(frames, i + 1)
  }

  /** The record built from the frames read before the reply. */
  function Record(read: seq<Frame>): KernelResult {
    var texts := StreamTexts(read);
    var error := LastError(read);
    KernelResult(if texts == [] then "" else Join(texts, "\n"), error, if error.Some? then 1 else 0)
  }

  /** What `execute_code` returns or raises for a kernel whose `ws_url` is
      `wsUrl`. */
  function Execution(wsUrl: Option<string>, conn: Connection): Result<KernelResult, Exception> {
    if wsUrl.None? || wsUrl.value == "" then Failure(RuntimeError(NoKernelMessage))
    else match conn
      case Refused(e) => Failure(e)
      case Frames(frames, afterwards) =>
        match ReplyAt(frames, 0)
        case Some(n) => Success(Record(frames[..n]))
        case None => Failure(afterwards)
  }

  /** The websocket URL `create_kernel` derives from the gateway host and
      the kernel id. */
  function ChannelsUrl(host: string, id: string): string {
    "ws://" + host + "/api/kernels/" + id + "/channels"
  }

  /** The readiness poll: how many polls were counted from `k` on before an
      `'idle'` status or the bound. */
  function PollsFrom(poll: nat -> Poll, k: nat): (n: nat)
    requires k <= MaxWait
    ensures k <= n <= MaxWait
    decreases MaxWait - k
  {
    if k == MaxWait || IsIdle(poll(k)) then k else PollsFrom(poll, k + 1)
  }

  class KernelManager {
    const host: string
    var kernelId: Option<string>
    var wsUrl: Option<string>

    /** `__init__`: no kernel yet. */
    constructor(host: string)
      ensures this.host == host && kernelId == None && wsUrl == None
    {
      this.host := host;
      kernelId := None;
      wsUrl := None;
    }

    /** `if not self.ws_url`. */
    predicate Active()
      reads this
    {
      wsUrl.Some? && wsUrl.value != ""
    }

    /** `execute_code`: refuse without a kernel, otherwise read frames until
      the first `execute_reply`, collecting stream texts and the last error.
      The code itself only travels to the kernel, whose answer is `conn`. */
    method ExecuteCode(code: string, conn: Connection) returns (r: Result<KernelResult, Exception>)
      ensures r == Execution(wsUrl, conn)
      ensures !Active() ==> r == Failure(RuntimeError(NoKernelMessage))
      ensures r.Success? ==> (r.value.exitCode == 1 <==> r.value.error.Some?)
      ensures r.Success? ==> r.value.exitCode == 0 || r.value.exitCode == 1
    {
      if !Active() {
        return Failure(RuntimeError(NoKernelMessage));
      }
      match conn
      case Refused(e) =>
        return Failure(e);
      case Frames(frames, afterwards) =>
        var output: seq<string> := [];
        var error: Option<string> := None;
        var i := 0;
        while true
          invariant 0 <= i <= |frames|
          invariant ReplyAt(frames, 0) == ReplyAt(frames, i)
          invariant output == StreamTexts(frames[..i])
          invariant error == LastError(frames[..i])
          decreases |frames| - i
        {
          if i == |frames| {
            return Failure(afterwards);
          }
          var msg := frames[i];
          assert frames[..i + 1][..i] == frames[..i];
          match msg {
            case Stream(text) =>
              output := output + [text];
            case ErrorFrame(ename, evalue) =>
              error := Some(ename + ": " + evalue);
            case ExecuteReply =>
              break;
            case OtherFrame(_) =>
          }
          i := i + 1;
        }
        var out := if output == [] then "" else Join(output, "\n");
        return Success(KernelResult(out, error, if error.Some? then 1 else 0));
    }

    /** The `while wait_time < max_wait` loop: every poll that is not
      `'idle'` counts, including a `'dead'` kernel, whose exception the
      loop itself catches. */
    static method WaitUntilIdle(poll: nat -> Poll) returns (waitTime: nat)
      ensures waitTime == PollsFrom(poll, 0)
      ensures waitTime < MaxWait <==> exists k :: 0 <= k < MaxWait && IsIdle(poll(k))
      ensures waitTime < MaxWait ==> IsIdle(poll(waitTime))
      ensures forall k :: 0 <= k < waitTime ==> !IsIdle(poll(k))
    {
      waitTime := 0;
      while waitTime < MaxWait
        invariant waitTime <= MaxWait
        invariant PollsFrom(poll, waitTime) == PollsFrom(poll, 0)
        invariant forall k :: 0 <= k < waitTime ==> !IsIdle(poll(k))
      {
        match poll(waitTime)
        case Status(state) =>
          if state == "idle" {
            break;
          }
          // 'dead' raises inside the try and is caught below it
          waitTime := waitTime + 1;
        case PollFailed(_) =>
          waitTime := waitTime + 1;
      }
    }

    /** `create_kernel`: `post` is the outcome of creating the kernel (its
      id, or what the request, `raise_for_status` or the JSON lookup
      raised); `poll` answers the status requests in order. The id and the
      URL are stored before the poll, so they stay set when it times out. */
    method CreateKernel(post: Result<string, Exception>, poll: nat -> Poll) returns (r: Result<string, Exception>)
      modifies this
      ensures post.Failure? ==> r == Failure(post.error) && kernelId == old(kernelId) && wsUrl == old(wsUrl)
      ensures post.Success? ==> kernelId == Some(post.value) && wsUrl == Some(ChannelsUrl(host, post.value))
      ensures post.Success? ==>
        r == if PollsFrom(poll, 0) < MaxWait then Success(post.value) else Failure(Error(TimeoutMessage))
    {
      if post.Failure? {
        return Failure(post.error);
      }
      var id := post.value;
      kernelId := Some(id);
      wsUrl := Some(ChannelsUrl(host, id));
      var waitTime := WaitUntilIdle(poll);
      if waitTime >= MaxWait {
        return Failure(Error(TimeoutMessage));
      }
      return Success(id);
    }

    /** `shutdown_kernel`: nothing without a kernel id; otherwise the DELETE
      request (`delete` is what it raised, if anything) and then both fields
      cleared. */
    method ShutdownKernel(delete: Option<Exception>) returns (r: Result<(), Exception>)
      modifies this
      ensures old(kernelId).None? || old(kernelId).value == "" ==>
        r == Success(()) && kernelId == old(kernelId) && wsUrl == old(wsUrl)
      ensures old(kernelId).Some? && old(kernelId).value != "" && delete.Some? ==>
        r == Failure(delete.value) && kernelId == old(kernelId) && wsUrl == old(wsUrl)
      ensures old(kernelId).Some? && old(kernelId).value != "" && delete.None? ==>
        r == Success(()) && kernelId == None && wsUrl == None
    {
      if kernelId.None? || kernelId.value == "" {
        return Success(());
      }
      if delete.Some? {
        return Failure(delete.value);
      }
      kernelId := None;
      wsUrl := None;
      return Success(());
    }
  }

  // ---------------------------------------------------------------------
  // Lemmas

  /** The exit code is 1 exactly when an error frame was read. */
  lemma ExitCodeIsErrorFlag(read: seq<Frame>)
    ensures Record(read).exitCode == 1 <==> exists k :: 0 <= k < |read| && read[k].ErrorFrame?
    ensures Record(read).exitCode == 0 <==> forall k :: 0 <= k < |read| ==> !read[k].ErrorFrame?
  {
    LastErrorIsSomeErrorFrame(read);
  }

  lemma {:induction false} LastErrorIsSomeErrorFrame(read: seq<Frame>)
    ensures LastError(read).Some? <==> exists k :: 0 <= k < |read| && read[k].ErrorFrame?
    decreases |read|
  {
    if read != [] {
      var init := read[..|read| - 1];
      LastErrorIsSomeErrorFrame(init);
      if !read[|read| - 1].ErrorFrame? {
        assert forall k :: 0 <= k < |init| ==> init[k] == read[k];
      }
    }
  }

  /** The error recorded is that of the last error frame read. */
  lemma {:induction false} LastErrorWins(read: seq<Frame>, k: nat)
    requires k < |read| && read[k].ErrorFrame?
    requires forall m :: k < m < |read| ==> !read[m].ErrorFrame?
    ensures LastError(read) == Some(read[k].ename + ": " + read[k].evalue)
    decreases |read|
  {
    if k < |read| - 1 {
      var init := read[..|read| - 1];
      assert init[k] == read[k];
      LastErrorWins(init, k);
    }
  }

  /** Stream texts are collected in arrival order: reading more frames
      extends what was collected. */
  lemma {:induction false} StreamTextsAppend(a: seq<Frame>, b: seq<Frame>)
    ensures StreamTexts(a + b) == StreamTexts(a) + StreamTexts(b)
    decreases |b|
  {
    if b == [] {
      assert a + b == a;
    } else {
      var b0 := b[..|b| - 1];
      assert (a + b)[..|a + b| - 1] == a + b0;
      StreamTextsAppend(a, b0);
    }
  }

  /** Frames other than stream frames contribute no text. */
  lemma {:induction false} OnlyStreamsAddText(read: seq<Frame>)
    requires forall k :: 0 <= k < |read| ==> !read[k].Stream?
    ensures StreamTexts(read) == []
    decreases |read|
  {
    if read != [] {
      OnlyStreamsAddText(read[..|read| - 1]);
    }
  }

  /** Frames after the first `execute_reply` are never read. */
  lemma AfterReplyIgnored(before: seq<Frame>, after: seq<Frame>, afterwards: Exception, wsUrl: Option<string>)
    requires forall k :: 0 <= k < |before| ==> before[k] != ExecuteReply
    requires wsUrl.Some? && wsUrl.value != ""
    ensures Execution(wsUrl, Frames(before + [ExecuteReply] + after, afterwards)) == Success(Record(before))
  {
    var frames := before + [ExecuteReply] + after;
    assert frames[|before|] == ExecuteReply;
    assert ReplyAt(frames, 0) == Some(|before|) by {
      var r := ReplyAt(frames, 0);
      assert forall k :: 0 <= k < |before| ==> frames[k] == before[k];
    }
    assert frames[..|before|] == before;
  }

  /** A lone stream frame followed by the reply yields its text and no error. */
  lemma SingleStream(text: string, afterwards: Exception, wsUrl: Option<string>)
    requires wsUrl.Some? && wsUrl.value != ""
    ensures Execution(wsUrl, Frames([Stream(text), ExecuteReply], afterwards)) == Success(KernelResult(text, None, 0))
  {
    AfterReplyIgnored([Stream(text)], [], afterwards, wsUrl);
    assert [Stream(text)] + [ExecuteReply] + [] == [Stream(text), ExecuteReply];
    assert [Stream(text)][..0] == [];
    assert StreamTexts([Stream(text)]) == [text];
    assert LastError([Stream(text)]) == None;
  }

  /** Two error frames: the second overwrites the first. */
  lemma SecondErrorOverwrites(e1: string, v1: string, e2: string, v2: string)
    ensures Record([ErrorFrame(e1, v1), ErrorFrame(e2, v2)]) == KernelResult("", Some(e2 + ": " + v2), 1)
  {
    var read := [ErrorFrame(e1, v1), ErrorFrame(e2, v2)];
    LastErrorWins(read, 1);
    OnlyStreamsAddText(read);
  }

  /** The poll stops at the first `'idle'` status within the bound. */
  lemma {:induction false} PollStopsAtFirstIdle(poll: nat -> Poll, k: nat, m: nat)
    requires k <= m < MaxWait && IsIdle(poll(m))
    requires forall j :: k <= j < m ==> !IsIdle(poll(j))
    ensures PollsFrom(poll, k) == m
    decreases m - k
  {
    if k < m {
      PollStopsAtFirstIdle(poll, k + 1, m);
    }
  }

  /** A `'dead'` kernel does not stop the poll: a gateway that answers
      anything but `'idle'` thirty times makes `create_kernel` time out. */
  lemma {:induction false} NeverIdleTimesOut(poll: nat -> Poll, k: nat)
    requires k <= MaxWait
    requires forall j :: k <= j < MaxWait ==> !IsIdle(poll(j))
    ensures PollsFrom(poll, k) == MaxWait
    decreases MaxWait - k
  {
    if k < MaxWait {
      NeverIdleTimesOut(poll, k + 1);
    }
  }
}
