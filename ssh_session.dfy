/**
 * One SSH connection and its interactive shell: the connection state, the
 * client handle, the PTY task with its reader and writer, the outbound queue
 * (the stream continuation) and the terminal geometry
 * (ShinobiTerm/ShinobiTerm/Services/SSHSession.swift).
 *
 * The transport is an outcome handed to `Connect`; the PTY task is a task id,
 * and what its reader and writer do happens through the events `ReceiveChunk`,
 * `WriterStep` and `StreamEnded`. `Snap()` is the whole observable state
 * as a value; every method is specified by a function from the old snapshot
 * to the new one, and the properties are lemmas about those functions.
 */
module SshSession {
  import opened Wrappers
  import opened SwiftText

  datatype SessionState = Disconnected | Connecting | Connected | Error(message: string)

  type Chunk = seq<Byte>
  type ClientId = nat
  type TaskId = nat

  const UInt32Limit: int := 0x1_0000_0000

  /** How the user authenticates: a password, or a private key that may have failed to load. */
  datatype Credential = Password(password: string) | PrivateKey(key: Option<seq<Byte>>)

  /** The arguments of one connection attempt. */
  datatype Endpoint = Endpoint(host: string, port: int, username: string, credential: Credential)

  /** What the transport gives back: a client, or an error with its description. */
  datatype TransportOutcome = Opened(client: ClientId) | Failed(description: string)

  /** The PTY request the session task sends once connected. */
  datatype PtyRequest = PtyRequest(
    wantReply: bool, term: string, columns: int, rows: int,
    pixelWidth: int, pixelHeight: int, echo: int)

  datatype Snapshot = Snapshot(
    state: SessionState,
    client: Option<ClientId>,
    task: Option<TaskId>,      // the current session task
    stdin: bool,               // an outbound continuation exists
    queue: seq<Chunk>,         // yielded to the continuation, not yet written
    columns: int,
    rows: int,
    hasCallback: bool,         // onDataReceived is set
    delivered: seq<Chunk>,     // inbound chunks handed to onDataReceived
    written: seq<Chunk>,       // chunks written to the channel, in order
    ptys: seq<PtyRequest>,     // every PTY request made
    attempts: seq<Endpoint>,   // every transport connect made
    tasks: nat,                // session tasks started so far; ids are 0 .. tasks-1
    cancelled: set<TaskId>,
    ended: set<TaskId>)

  /** A new session: disconnected, no client, 80 columns by 24 rows. */
  function Initial(): (s: Snapshot)
    ensures s.state == Disconnected && s.client.None? && s.task.None? && !s.stdin
    ensures s.columns == 80 && s.rows == 24
  {
    Snapshot(Disconnected, None, None, false, [], 80, 24, false, [], [], [], [], 0, {}, {})
  }

  predicate Inv(s: Snapshot) {
    && (s.task.Some? ==> s.task.value < s.tasks && s.task.value !in s.cancelled)
    && (forall t | t in s.cancelled :: t < s.tasks)
    && (forall t | t in s.ended :: t < s.tasks)
    && (!s.stdin ==> s.queue == [])
    && (s.state == Connected ==> s.client.Some? && s.task.Some? && s.stdin)
    && 0 <= s.columns < UInt32Limit && 0 <= s.rows < UInt32Limit
  }

  /** The reader and writer of the current task are still running. */
  predicate Live(s: Snapshot) {
    s.task.Some? && s.task.value !in s.ended
  }

  /** `connect` first publishes `.connecting` and hands the endpoint to the transport. */
  function AfterBeginConnect(s: Snapshot, e: Endpoint): Snapshot {
    s.(state := Connecting, attempts := s.attempts + [e])
  }

  /** `startPTYSession`: a fresh empty outbound stream and a new session task that opens a PTY. */
  function StartPty(s: Snapshot): Snapshot {
    if s.client.None? then s
    else
      s.(stdin := true, queue := [], task := Some(s.tasks), tasks := s.tasks + 1,
         ptys := s.ptys + [PtyRequest(true, "xterm-256color", s.columns, s.rows, 0, 0, 1)])
  }

  /** The rest of `connect`, once the transport has answered. */
  function AfterTransport(s: Snapshot, o: TransportOutcome): Snapshot {
    match o
    case Failed(d) => s.(state := Error(d))
    case Opened(c) => StartPty(s.(client := Some(c), state := Connected))
  }

  function AfterConnect(s: Snapshot, e: Endpoint, o: TransportOutcome): Snapshot {
    AfterTransport(AfterBeginConnect(s, e), o)
  }

  /** `disconnect`: cancel the task, finish the continuation, drop the client. */
  function AfterDisconnect(s: Snapshot): Snapshot {
    s.(task := None,
       cancelled := if s.task.Some? then s.cancelled + {s.task.value} else s.cancelled,
       stdin := false, queue := [], client := None, state := Disconnected)
  }

  /** `send(_ data:)`: yield to the continuation if there is one. */
  function AfterSend(s: Snapshot, data: Chunk): Snapshot {
    if s.stdin then s.(queue := s.queue + [data]) else s
  }

  /** `resize`: only the stored geometry changes. */
  function AfterResize(s: Snapshot, columns: int, rows: int): Snapshot {
    s.(columns := columns, rows := rows)
  }

  function AfterSetCallback(s: Snapshot, present: bool): Snapshot {
    s.(hasCallback := present)
  }

  /** The reader got a chunk: it goes to `onDataReceived` when set, and is dropped otherwise. */
  function AfterInbound(s: Snapshot, chunk: Chunk): Snapshot {
    if Live(s) && s.hasCallback then s.(delivered := s.delivered + [chunk]) else s
  }

  /** The writer takes the oldest queued chunk and writes it to the channel. */
  function AfterWriterStep(s: Snapshot): Snapshot {
    if Live(s) && s.queue != [] then s.(written := s.written + [s.queue[0]], queue := s.queue[1..])
    else s
  }

  /**
   * Task `t` finishes, with or without an error. Unless it was cancelled it
   * publishes `.disconnected` last, so a reported error never lasts.
   */
  function AfterStreamEnd(s: Snapshot, t: TaskId): Snapshot {
    var e := s.(ended := s.ended + {t});
    if t in s.cancelled then e else e.(state := Disconnected)
  }

  /** The states `StreamEnded` publishes, in order. */
  function EndPublishes(s: Snapshot, t: TaskId, failure: Option<string>): seq<SessionState> {
    if t in s.cancelled then []
    else if failure.Some? then [Error(failure.value), Disconnected]
    else [Disconnected]
  }

  // ------------------------------------------------------------ the object

  class Session {
    var state: SessionState
    var client: Option<ClientId>
    var task: Option<TaskId>
    var stdin: bool
    var queue: seq<Chunk>
    var columns: int
    var rows: int
    var hasCallback: bool
    var delivered: seq<Chunk>
    var written: seq<Chunk>
    var ptys: seq<PtyRequest>
    var attempts: seq<Endpoint>
    var tasks: nat
    var cancelled: set<TaskId>
    var ended: set<TaskId>
    /** Every value assigned to the published `state`, in order. */
    var published: seq<SessionState>

    function Snap(): Snapshot
      reads this
    {
      Snapshot(state, client, task, stdin, queue, columns, rows, hasCallback,
               delivered, written, ptys, attempts, tasks, cancelled, ended)
    }

    predicate Valid()
      reads this
    {
      Inv(Snap())
    }

    /** Whether a client is stored (read by the tmux and usage services). */
    function HasClient(): bool
      reads this
    {
      client.Some?
    }

    constructor ()
      ensures Snap() == Initial() && published == []
      ensures Valid()
    {
      state, client, task, stdin, queue := Disconnected, None, None, false, [];
      columns, rows, hasCallback := 80, 24, false;
      delivered, written, ptys, attempts := [], [], [], [];
      tasks, cancelled, ended := 0, {}, {};
      published := [];
    }

    method SetState(st: SessionState)
      modifies this
      ensures Snap() == old(Snap()).(state := st)
      ensures published == old(published) + [st]
    {
      state := st;
      published := published + [st];
    }

    method StartPtySession()
      modifies this
      ensures Snap() == StartPty(old(Snap())) && published == old(published)
    {
      if client.None? {
        return;
      }
      stdin, queue := true, [];
      ptys := ptys + [PtyRequest(true, "xterm-256color", columns, rows, 0, 0, 1)];
      task := Some(tasks);
      tasks := tasks + 1;
    }

    /** `connect`: `.connecting`, then the transport's answer. */
    method Connect(e: Endpoint, outcome: TransportOutcome)
      requires Valid()
      modifies this
      ensures Valid()
      ensures Snap() == AfterConnect(old(Snap()), e, outcome)
      ensures published == old(published) + [Connecting, Snap().state]
    {
      SetState(Connecting);
      attempts := attempts + [e];
      match outcome {
        case Failed(d) =>
          SetState(Error(d));
        case Opened(c) =>
          client := Some(c);
          SetState(Connected);
          StartPtySession();
      }
      ConnectPreservesInv(old(Snap()), e, outcome);
    }

    method Disconnect()
      requires Valid()
      modifies this
      ensures Valid()
      ensures Snap() == AfterDisconnect(old(Snap()))
      ensures published == old(published) + [Disconnected]
    {
      if task.Some? {
        cancelled := cancelled + {task.value};
      }
      task := None;
      stdin, queue := false, [];
      client := None;
      SetState(Disconnected);
    }

    /** `send(_ data:)`. */
    method Send(data: Chunk)
      requires Valid()
      modifies this
      ensures Valid()
      ensures Snap() == AfterSend(old(Snap()), data) && published == old(published)
    {
      if stdin {
        queue := queue + [data];
      }
    }

    /** `send(_ string:)`: the UTF-8 bytes of the text. */
    method SendText(text: string)
      requires Valid()
      modifies this
      ensures Valid()
      ensures Snap() == AfterSend(old(Snap()), Utf8(text)) && published == old(published)
    {
      Send(Utf8(text));
    }

    /** `resize`; the `UInt32` conversions trap outside 0 .. 2^32-1. */
    method Resize(newColumns: int, newRows: int)
      requires Valid()
      requires 0 <= newColumns < UInt32Limit && 0 <= newRows < UInt32Limit
      modifies this
      ensures Valid()
      ensures Snap() == AfterResize(old(Snap()), newColumns, newRows) && published == old(published)
    {
      columns, rows := newColumns, newRows;
    }

    method SetDataCallback(present: bool)
      requires Valid()
      modifies this
      ensures Valid()
      ensures Snap() == AfterSetCallback(old(Snap()), present) && published == old(published)
    {
      hasCallback := present;
    }

    /** One iteration of the reader loop. */
    method ReceiveChunk(chunk: Chunk)
      requires Valid()
      modifies this
      ensures Valid()
      ensures Snap() == AfterInbound(old(Snap()), chunk) && published == old(published)
    {
      if task.Some? && task.value !in ended && hasCallback {
        delivered := delivered + [chunk];
      }
    }

    /** The reader loop over a run of inbound chunks. */
    method ReceiveAll(chunks: seq<Chunk>)
      requires Valid()
      modifies this
      ensures Valid()
      ensures Snap() == old(Snap()).(delivered :=
        old(delivered) + if Live(old(Snap())) && old(hasCallback) then chunks else [])
      ensures published == old(published)
    {
      var i := 0;
      while i < |chunks|
        invariant 0 <= i <= |chunks|
        invariant Valid()
        invariant Snap() == old(Snap()).(delivered :=
          old(delivered) + if Live(old(Snap())) && old(hasCallback) then chunks[..i] else [])
        invariant published == old(published)
      {
        assert chunks[..i + 1] == chunks[..i] + [chunks[i]];
        ReceiveChunk(chunks[i]);
        i := i + 1;
      }
      assert chunks[..i] == chunks;
    }

    /** One iteration of the writer loop. */
    method WriterStep()
      requires Valid()
      modifies this
      ensures Valid()
      ensures Snap() == AfterWriterStep(old(Snap())) && published == old(published)
    {
      if task.Some? && task.value !in ended && queue != [] {
        written := written + [queue[0]];
        queue := queue[1..];
      }
    }

    /** The writer loop until the queue is empty: everything queued is written, in order. */
    method DrainWriter()
      requires Valid()
      modifies this
      ensures Valid()
      ensures Live(old(Snap())) ==>
        Snap() == old(Snap()).(written := old(written) + old(queue), queue := [])
      ensures !Live(old(Snap())) ==> Snap() == old(Snap())
      ensures published == old(published)
    {
      if !(task.Some? && task.value !in ended) {
        return;
      }
      while queue != []
        invariant Valid() && Live(Snap())
        invariant written + queue == old(written) + old(queue)
        invariant Snap() == old(Snap()).(written := written, queue := queue)
        invariant published == old(published)
        decreases |queue|
      {
        ghost var q, w := queue, written;
        WriterStep();
        assert q == [q[0]] + queue && written == w + [q[0]];
        assert written + queue == w + q;
      }
    }

    /**
     * Task `t` finished, with `failure` when the PTY session threw. A
     * cancelled task publishes nothing; any other publishes the error, if
     * there was one, and then `.disconnected`.
     */
    method StreamEnded(t: TaskId, failure: Option<string>)
      requires Valid()
      requires t < tasks && t !in ended
      modifies this
      ensures Valid()
      ensures Snap() == AfterStreamEnd(old(Snap()), t)
      ensures published == old(published) + EndPublishes(old(Snap()), t, failure)
    {
      ghost var s0 := Snap();
      ended := ended + {t};
      if t !in cancelled {
        if failure.Some? {
          SetState(Error(failure.value));
        }
        SetState(Disconnected);
      }
      assert Snap() == AfterStreamEnd(s0, t);
      StreamEndPreservesInv(s0, t);
    }
  }

  // ------------------------------------------------------------ properties

  /** `connect` publishes `.connecting` and records the attempt before the transport answers. */
  lemma BeginConnectSpec(s: Snapshot, e: Endpoint)
    ensures var r := AfterBeginConnect(s, e);
      r.state == Connecting && r.attempts == s.attempts + [e] && r.client == s.client
  {
  }

  /** A failed transport ends in `.error(description)` and stores no new client or task. */
  lemma ConnectFailure(s: Snapshot, e: Endpoint, d: string)
    ensures var r := AfterConnect(s, e, Failed(d));
      && r.state == Error(d) && r.client == s.client && r.task == s.task
      && r.stdin == s.stdin && r.ptys == s.ptys && r.attempts == s.attempts + [e]
  {
  }

  /** After `disconnect`, a failed `connect` leaves no client at all. */
  lemma ConnectFailureAfterDisconnect(s: Snapshot, e: Endpoint, d: string)
    ensures AfterConnect(AfterDisconnect(s), e, Failed(d)).client.None?
  {
  }

  /**
   * A successful transport stores the client, publishes `.connected`, opens a
   * fresh empty queue and starts a new task whose PTY uses the stored geometry.
   */
  lemma ConnectSuccess(s: Snapshot, e: Endpoint, c: ClientId)
    requires Inv(s)
    ensures var r := AfterConnect(s, e, Opened(c));
      && r.state == Connected && r.client == Some(c)
      && r.stdin && r.queue == []
      && r.task == Some(s.tasks) && r.tasks == s.tasks + 1
      && r.ptys == s.ptys + [PtyRequest(true, "xterm-256color", s.columns, s.rows, 0, 0, 1)]
      && Live(r)
  {
  }

  lemma ConnectPreservesInv(s: Snapshot, e: Endpoint, o: TransportOutcome)
    requires Inv(s)
    ensures Inv(AfterConnect(s, e, o))
  {
  }

  /** `disconnect` from any state: `.disconnected`, no task, no queue, no client. */
  lemma DisconnectSpec(s: Snapshot)
    requires Inv(s)
    ensures var r := AfterDisconnect(s);
      && r.state == Disconnected && r.task.None? && !r.stdin && r.queue == [] && r.client.None?
      && !Live(r) && Inv(r)
      && (s.task.Some? ==> s.task.value in r.cancelled)
  {
  }

  /** Disconnecting twice is disconnecting once. */
  lemma DisconnectIdempotent(s: Snapshot)
    ensures AfterDisconnect(AfterDisconnect(s)) == AfterDisconnect(s)
  {
  }

  /** `send` appends at the tail of the queue if there is one, and changes nothing otherwise. */
  lemma SendSpec(s: Snapshot, data: Chunk)
    ensures s.stdin ==> AfterSend(s, data) == s.(queue := s.queue + [data])
    ensures !s.stdin ==> AfterSend(s, data) == s
  {
  }

  /** Sending two texts one after the other queues the bytes of their concatenation. */
  lemma {:induction false} SendTextConcat(a: string, b: string)
    ensures Utf8(a + b) == Utf8(a) + Utf8(b)
  {
    Utf8Concat(a, b);
  }

  /** A writer step keeps the stream order: written-then-queued is unchanged. */
  lemma WriterStepKeepsOrder(s: Snapshot)
    ensures var r := AfterWriterStep(s);
      r.written + r.queue == s.written + s.queue
      && |r.queue| <= |s.queue|
      && (Live(s) && s.queue != [] ==> |r.queue| == |s.queue| - 1)
  {
    var r := AfterWriterStep(s);
    if Live(s) && s.queue != [] {
      assert s.queue == [s.queue[0]] + s.queue[1..];
    }
  }

  /** `n` writer steps. */
  function WriterSteps(s: Snapshot, n: nat): Snapshot
    decreases n
  {
    if n == 0 then s else WriterSteps(AfterWriterStep(s), n - 1)
  }

  /**
   * On a live task, the writer writes every queued chunk exactly once, in
   * enqueue order: after as many steps as chunks, they all follow what was written.
   */
  lemma {:induction false} WriterFifo(s: Snapshot)
    requires Live(s)
    ensures WriterSteps(s, |s.queue|) == s.(written := s.written + s.queue, queue := [])
    decreases |s.queue|
  {
    if s.queue != [] {
      var r := AfterWriterStep(s);
      WriterFifo(r);
      assert s.queue == [s.queue[0]] + s.queue[1..];
      assert r.written + r.queue == s.written + s.queue;
    }
  }

  /** `resize` changes the geometry and nothing else; the connection is untouched. */
  lemma ResizeSpec(s: Snapshot, c: int, r: int)
    requires Inv(s) && 0 <= c < UInt32Limit && 0 <= r < UInt32Limit
    ensures var t := AfterResize(s, c, r);
      && Inv(t) && t.state == s.state && t.ptys == s.ptys && t.task == s.task
      && t.columns == c && t.rows == r
  {
  }

  /** The next PTY opens with the geometry of the last `resize`, 0 by 0 pixels, `xterm-256color`. */
  lemma ResizeThenConnect(s: Snapshot, c: int, r: int, e: Endpoint, id: ClientId)
    ensures var t := AfterConnect(AfterResize(s, c, r), e, Opened(id));
      t.ptys[|t.ptys| - 1] == PtyRequest(true, "xterm-256color", c, r, 0, 0, 1)
  {
  }

  /** A fresh session's first PTY is 80 by 24. */
  lemma FirstPtyIsDefault(e: Endpoint, id: ClientId)
    ensures AfterConnect(Initial(), e, Opened(id)).ptys == [PtyRequest(true, "xterm-256color", 80, 24, 0, 0, 1)]
  {
  }

  /** An inbound chunk is delivered if a callback is set, and dropped otherwise: never buffered. */
  lemma InboundSpec(s: Snapshot, chunk: Chunk)
    ensures Live(s) && s.hasCallback ==> AfterInbound(s, chunk).delivered == s.delivered + [chunk]
    ensures !(Live(s) && s.hasCallback) ==> AfterInbound(s, chunk) == s
    ensures AfterInbound(s, chunk).(delivered := s.delivered) == s
  {
  }

  /** Setting the callback later does not bring back chunks dropped before. */
  lemma DroppedStaysDropped(s: Snapshot, chunk: Chunk)
    requires !s.hasCallback
    ensures AfterSetCallback(AfterInbound(s, chunk), true).delivered == s.delivered
  {
  }

  /** A stream end that was not cancelled always leaves `.disconnected`; the error, if any, is published first. */
  lemma StreamEndUncancelled(s: Snapshot, t: TaskId, failure: Option<string>)
    requires t !in s.cancelled
    ensures AfterStreamEnd(s, t).state == Disconnected
    ensures EndPublishes(s, t, failure)[|EndPublishes(s, t, failure)| - 1] == Disconnected
    ensures failure.Some? ==> EndPublishes(s, t, failure) == [Error(failure.value), Disconnected]
  {
  }

  /** A cancelled stream end changes no state. */
  lemma StreamEndCancelled(s: Snapshot, t: TaskId, failure: Option<string>)
    requires t in s.cancelled
    ensures AfterStreamEnd(s, t).state == s.state && EndPublishes(s, t, failure) == []
  {
  }

  lemma StreamEndPreservesInv(s: Snapshot, t: TaskId)
    requires Inv(s) && t < s.tasks
    ensures Inv(AfterStreamEnd(s, t))
  {
  }

  /** After its stream has ended, the current task neither reads nor writes. */
  lemma EndedTaskIsSilent(s: Snapshot, chunk: Chunk)
    requires s.task.Some?
    ensures var r := AfterStreamEnd(s, s.task.value);
      AfterInbound(r, chunk) == r && AfterWriterStep(r) == r
  {
  }
}
