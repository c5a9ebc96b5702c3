/** The browser-side controller of one terminal (`AgentTerminal` in the page script of
    server.py): connecting, counting reconnection attempts, the rolling output buffer,
    the "already in use" conflict path that rotates the session id, and disposal.

    Timers and socket callbacks are events. `Step` is the reference behaviour of one
    event; the class `AgentTerminal` performs each event on its fields and is proved to
    agree with `Step`. */
module ClientTerminal {
  import opened Common
  import opened ConflictDetector

  datatype SocketState = Connecting | Open | Closing | Closed

  /** The socket in the `ws` field: its ready state, and whether its `onclose` handler is
      still attached. */
  datatype Socket = Socket(state: SocketState, closeHandler: bool)

  /** `ws.close()`: a connecting or open socket starts closing; otherwise nothing. */
  function CloseSocket(ws: Option<Socket>): (r: Option<Socket>)
    ensures r.Some? <==> ws.Some?
    ensures r.Some? ==> r.value.closeHandler == ws.value.closeHandler
                        && r.value.state != Connecting && r.value.state != Open
  {
    match ws
    case None => None
    case Some(s) => Some(if s.state == Connecting || s.state == Open then s.(state := Closing) else s)
  }

  /** A timer whose handle lives in a field: how many such timers are pending, and
      whether the field still holds one of them (the one `clearTimeout(field)` cancels). */
  datatype TimerSlot = TimerSlot(pending: nat, held: bool) {
    predicate Valid() { held ==> pending >= 1 }

    /** `field = setTimeout(...)`: one more pending, and the field now holds it. */
    function Schedule(): TimerSlot { TimerSlot(pending + 1, true) }

    /** `clearTimeout(field)`. */
    function Clear(): TimerSlot
      requires Valid()
    {
      if held then TimerSlot(pending - 1, false) else this
    }

    /** A pending timer can fire: the held one (`which`), or another one. */
    predicate CanFire(which: bool) {
      if which then held else pending > (if held then 1 else 0)
    }

    function Fire(which: bool): TimerSlot
      requires Valid() && CanFire(which)
    {
      TimerSlot(pending - 1, if which then false else held)
    }
  }

  const MaxRetries: nat := 3

  datatype Terminal = Terminal(
    /** The project folder `connect` reads (`""` when there is none). */
    workDir: string,
    sessionId: string,
    ws: Option<Socket>,
    disposed: bool,
    outputBuffer: string,
    /** `messageQueue`: chunks waiting for the next animation frame. */
    queue: seq<string>,
    attempts: nat,
    handlingConflict: bool,
    /** `stableConnectionTimer` (5 s) and `reconnectTimeout` (3 s). */
    stable: TimerSlot,
    retry: TimerSlot,
    /** Pending 1.5 s conflict timers; no field holds them. */
    conflictTimers: nat,
    /** The session id of every socket opened so far, in order. */
    dialed: seq<string>,
    /** How many retry timers have been set so far. */
    retriesScheduled: nat)
  {
    /** The bounds every reachable state keeps. */
    predicate Valid() {
      stable.Valid() && retry.Valid() && |outputBuffer| <= BufferLimit
    }
  }

  /** A new `AgentTerminal` (its session id is the stored one or a generated one). */
  function Initial(workDir: string, sessionId: string): (r: Terminal)
    ensures r.Valid() && r.attempts == 0 && r.ws.None? && r.dialed == []
  {
    Terminal(workDir, sessionId, None, false, "", [], 0, false,
      TimerSlot(0, false), TimerSlot(0, false), 0, [], 0)
  }

  /** The events that drive a terminal. `Connect` and `ManualRestart` come from the page
      (start-up, the health check, the restart button), which only reaches terminals
      still listed in a project, that is, not disposed. `Frame` is the animation frame
      that writes the queued chunks. */
  datatype Event =
    | Connect
    | SocketOpened
    | Chunk(data: string, freshId: string)
    | SocketClosed
    | StableTimerFired(which: bool)
    | RetryTimerFired(which: bool)
    | ConflictTimerFired
    | ManualRestart
    | Frame
    | Dispose

  /** `connect()`: ignored while the socket is connecting or open; otherwise the old one
      is closed and, when a folder is known, a new socket is opened with the current
      session id. */
  function ConnectStep(t: Terminal): (r: Terminal)
    requires t.Valid()
    ensures r.Valid()
  {
    if t.ws.Some? && (t.ws.value.state == Connecting || t.ws.value.state == Open) then t
    else if t.workDir == "" then t
    else t.(ws := Some(Socket(Connecting, true)), dialed := t.dialed + [t.sessionId])
  }

  /** `onclose`: the queue is dropped and the stability timer cleared; unless a conflict
      is being handled or the terminal is disposed, the attempt counter goes up and a
      retry is set while it is at most 3. (The folder the handler tests is the one
      `connect` checked to be non-empty.) */
  function OnClose(t: Terminal): (r: Terminal)
    requires t.Valid()
    ensures r.Valid()
  {
    var t1 := t.(ws := Some(Socket(Closed, true)), queue := [], stable := t.stable.Clear());
    if t.handlingConflict || t.disposed then t1
    else if t.attempts + 1 <= MaxRetries then
      t1.(attempts := t.attempts + 1, retry := t.retry.Schedule(), retriesScheduled := t.retriesScheduled + 1)
    else t1.(attempts := t.attempts + 1)
  }

  /** A `terminal_output` message (only an open socket delivers one). */
  function OnChunk(t: Terminal, data: string, freshId: string): (r: Terminal)
    requires t.Valid()
    ensures r.Valid()
  {
    if t.disposed then t
    else
      var buffer := Roll(t.outputBuffer, data);
      RollBounded(t.outputBuffer, data);
      if ConflictDetected(data, buffer) then
        t.(handlingConflict := true,
           ws := CloseSocket(if t.ws.Some? then Some(t.ws.value.(closeHandler := false)) else None),
           sessionId := freshId, outputBuffer := "", conflictTimers := t.conflictTimers + 1)
      else t.(outputBuffer := buffer, queue := t.queue + [data])
  }

  /** The 1.5 s conflict timer: flags and counter reset, then `connect()`, when the
      terminal has not been disposed. */
  function OnConflictTimer(t: Terminal): (r: Terminal)
    requires t.Valid() && t.conflictTimers > 0
    ensures r.Valid()
  {
    var t1 := t.(conflictTimers := t.conflictTimers - 1, handlingConflict := false, attempts := 0);
    if t.disposed then t1 else ConnectStep(t1)
  }

  /** The conflict timer as the page script has it: no disposal check before
      `connect()`. */
  function OnConflictTimerAsWritten(t: Terminal): (r: Terminal)
    requires t.Valid() && t.conflictTimers > 0
    ensures r.Valid()
  {
    ConnectStep(t.(conflictTimers := t.conflictTimers - 1, handlingConflict := false, attempts := 0))
  }

  /** One event. An event that cannot occur in the state (a timer with nothing pending,
      a message on a socket that is not open) leaves the state as it is. */
  function Step(t: Terminal, e: Event): (r: Terminal)
    requires t.Valid()
    ensures r.Valid()
  {
    match e
    case Connect => if t.disposed then t else ConnectStep(t)
    case SocketOpened =>
      if t.ws == Some(Socket(Connecting, true)) || t.ws == Some(Socket(Connecting, false)) then
        t.(ws := Some(t.ws.value.(state := Open)), stable := t.stable.Schedule())
      else t
    case Chunk(data, freshId) =>
      if t.ws.Some? && t.ws.value.state == Open then OnChunk(t, data, freshId) else t
    case SocketClosed =>
      if t.ws.None? || t.ws.value.state == Closed then t
      else if t.ws.value.closeHandler then OnClose(t)
      else t.(ws := Some(Socket(Closed, false)))
    case StableTimerFired(which) =>
      if !t.stable.CanFire(which) then t
      else t.(stable := t.stable.Fire(which),
              attempts := if t.ws.Some? && t.ws.value.state == Open then 0 else t.attempts)
    case RetryTimerFired(which) =>
      if !t.retry.CanFire(which) then t
      else
        var t1 := t.(retry := t.retry.Fire(which));
        if t.disposed then t1 else ConnectStep(t1)
    case ConflictTimerFired =>
      if t.conflictTimers == 0 then t else OnConflictTimer(t)
    case ManualRestart => if t.disposed then t else ConnectStep(t.(attempts := 0))
    case Frame => t.(queue := [])
    case Dispose =>
      t.(disposed := true, retry := t.retry.Clear(), stable := t.stable.Clear(), queue := [],
         ws := CloseSocket(t.ws))
  }

  /** `connect()` is ignored while the socket is connecting or open, and when no folder
      is known; otherwise it opens a connecting socket, with its close handler, under the
      current session id, and records it. Nothing else changes. */
  lemma ConnectStepGuard(t: Terminal)
    requires t.Valid()
    ensures t.ws.Some? && (t.ws.value.state == Connecting || t.ws.value.state == Open) ==> ConnectStep(t) == t
    ensures t.workDir == "" ==> ConnectStep(t) == t
    ensures (t.ws.None? || t.ws.value.state == Closing || t.ws.value.state == Closed) && t.workDir != "" ==>
      ConnectStep(t) == t.(ws := Some(Socket(Connecting, true)), dialed := t.dialed + [t.sessionId])
  {
  }

  /** `onclose` closes the socket, drops the queue and clears the stability timer. Outside
      a conflict and before disposal the counter goes up by one, and a retry is set
      exactly when the new count is at most 3; otherwise neither counter nor retry
      changes. */
  lemma OnCloseCounts(t: Terminal)
    requires t.Valid()
    ensures var r := OnClose(t);
      && r.ws == Some(Socket(Closed, true)) && r.queue == [] && !r.stable.held
      && r.dialed == t.dialed && r.sessionId == t.sessionId
    ensures !t.handlingConflict && !t.disposed ==>
      var r := OnClose(t);
      && r.attempts == t.attempts + 1
      && (r.retriesScheduled == t.retriesScheduled + 1 <==> t.attempts + 1 <= MaxRetries)
      && (t.attempts + 1 <= MaxRetries ==> r.retry.held && r.retry.pending == t.retry.pending + 1)
      && (t.attempts + 1 > MaxRetries ==> r.retry == t.retry && r.retriesScheduled == t.retriesScheduled)
    ensures t.handlingConflict || t.disposed ==>
      var r := OnClose(t);
      r.attempts == t.attempts && r.retry == t.retry && r.retriesScheduled == t.retriesScheduled
  {
  }

  /** No event forgets a socket it opened: the record only grows. */
  lemma StepOnlyAddsDials(t: Terminal, e: Event)
    requires t.Valid()
    ensures t.dialed <= Step(t, e).dialed
  {
  }

  /** `Step` with the conflict timer as written. */
  function StepAsWritten(t: Terminal, e: Event): (r: Terminal)
    requires t.Valid()
    ensures r.Valid()
  {
    if e.ConflictTimerFired? && t.conflictTimers > 0 then OnConflictTimerAsWritten(t) else Step(t, e)
  }

  /** The events in order. The record of opened sockets only grows. */
  function Run(t: Terminal, events: seq<Event>): (r: Terminal)
    requires t.Valid()
    ensures t.dialed <= r.dialed
    decreases |events|
  {
    if events == [] then t
    else
      StepOnlyAddsDials(t, events[0]);
      Run(Step(t, events[0]), events[1..])
  }

  // ---------------------------------------------------------------------------
  // Properties of runs

  /** Whatever happens, the output buffer stays within 2000 characters and the timer
      bookkeeping stays consistent. */
  lemma {:induction false} RunKeepsValid(t: Terminal, events: seq<Event>)
    requires t.Valid()
    ensures Run(t, events).Valid()
    ensures |Run(t, events).outputBuffer| <= 2000
    decreases |events|
  {
    if events != [] {
      RunKeepsValid(Step(t, events[0]), events[1..]);
    }
  }

  /** The events that may bring the attempt counter back to 0. */
  predicate Resets(e: Event) {
    e.StableTimerFired? || e.ConflictTimerFired? || e.ManualRestart?
  }

  function Capped(n: nat): nat { if n < MaxRetries then n else MaxRetries }

  /** The counter only goes down through the stability timer (while the socket is open),
      the conflict timer or a manual restart, and then to 0. */
  lemma AttemptsResetOnlyBy(t: Terminal, e: Event)
    requires t.Valid()
    ensures Step(t, e).attempts < t.attempts ==> Resets(e) && Step(t, e).attempts == 0
    ensures e == ManualRestart && !t.disposed ==> Step(t, e).attempts == 0
    ensures e.ConflictTimerFired? && t.conflictTimers > 0 ==> Step(t, e).attempts == 0
  {
  }

  /** Without a reset, each event raises the counter by at most one, and a retry is set
      only when the raised counter is still within the limit. */
  lemma StepWithoutReset(t: Terminal, e: Event)
    requires t.Valid() && !Resets(e)
    ensures Step(t, e).attempts >= t.attempts
    ensures Step(t, e).retriesScheduled >= t.retriesScheduled
    ensures Step(t, e).retriesScheduled - t.retriesScheduled <= Capped(Step(t, e).attempts) - Capped(t.attempts)
  {
  }

  /** Between two resets at most three retries are set, fewer when attempts have already
      been counted: `reconnectAttempts <= maxRetries` bounds automatic reconnection. */
  lemma {:induction false} RetriesBounded(t: Terminal, events: seq<Event>)
    requires t.Valid()
    requires forall i :: 0 <= i < |events| ==> !Resets(events[i])
    ensures Run(t, events).attempts >= t.attempts
    ensures Run(t, events).retriesScheduled >= t.retriesScheduled
    ensures Run(t, events).retriesScheduled - t.retriesScheduled
            <= Capped(Run(t, events).attempts) - Capped(t.attempts)
    ensures Run(t, events).retriesScheduled <= t.retriesScheduled + MaxRetries - Capped(t.attempts)
    decreases |events|
  {
    if events != [] {
      StepWithoutReset(t, events[0]);
      RetriesBounded(Step(t, events[0]), events[1..]);
    }
  }

  /** A chunk of 4096 characters or more is queued without any check, whatever it
      says. */
  lemma LargeChunkQueued(t: Terminal, data: string, freshId: string)
    requires t.Valid() && t.ws.Some? && t.ws.value.state == Open && !t.disposed
    requires |data| >= LargeChunk
    ensures var r := Step(t, Chunk(data, freshId));
      r.queue == t.queue + [data] && r.sessionId == t.sessionId && !r.handlingConflict == !t.handlingConflict
      && r.outputBuffer == Roll(t.outputBuffer, data)
  {
  }

  /** The conflict path: the flag is set, the socket is closed with its `onclose`
      detached, the session id is replaced, the buffer emptied, the chunk not queued, and
      a conflict timer set. */
  lemma ConflictPath(t: Terminal, data: string, freshId: string)
    requires t.Valid() && t.ws.Some? && t.ws.value.state == Open && !t.disposed
    requires ConflictDetected(data, Roll(t.outputBuffer, data))
    ensures var r := Step(t, Chunk(data, freshId));
      && r.handlingConflict && r.ws == Some(Socket(Closing, false)) && r.sessionId == freshId
      && r.outputBuffer == "" && r.queue == t.queue && r.conflictTimers == t.conflictTimers + 1
      && r.attempts == t.attempts && r.dialed == t.dialed
  {
  }

  /** While a conflict is handled, a close event neither counts an attempt nor sets a
      retry nor opens a socket. */
  lemma CloseDuringConflictIgnored(t: Terminal)
    requires t.Valid() && t.handlingConflict
    ensures var r := Step(t, SocketClosed);
      r.attempts == t.attempts && r.retry == t.retry && r.retriesScheduled == t.retriesScheduled
      && r.dialed == t.dialed
  {
  }

  /** `connect()` does nothing while the socket is connecting or open, whoever calls
      it: the page, the restart button or a timer. */
  lemma ConnectIgnoredWhileLive(t: Terminal, which: bool)
    requires t.Valid() && t.ws.Some? && (t.ws.value.state == Connecting || t.ws.value.state == Open)
    ensures Step(t, Connect) == t
    ensures Step(t, ManualRestart).dialed == t.dialed && Step(t, ManualRestart).ws == t.ws
    ensures Step(t, RetryTimerFired(which)).dialed == t.dialed
  {
  }

  /** The 5 s stability timer zeroes the counter when it finds the socket open, and
      leaves it alone otherwise. */
  lemma StableTimerZeroes(t: Terminal, which: bool)
    requires t.Valid() && t.stable.CanFire(which)
    ensures t.ws.Some? && t.ws.value.state == Open ==> Step(t, StableTimerFired(which)).attempts == 0
    ensures !(t.ws.Some? && t.ws.value.state == Open) ==> Step(t, StableTimerFired(which)).attempts == t.attempts
    ensures Step(t, StableTimerFired(which)).dialed == t.dialed
  {
  }

  /** A close seen by the handler of a live terminal outside a conflict counts an
      attempt, and sets a retry exactly while the counter is still at most 3. */
  lemma CloseCountsAttempt(t: Terminal)
    requires t.Valid() && t.ws.Some? && t.ws.value.state != Closed && t.ws.value.closeHandler
    requires !t.handlingConflict && !t.disposed
    ensures var r := Step(t, SocketClosed);
      && r.attempts == t.attempts + 1 && r.ws == Some(Socket(Closed, true)) && r.dialed == t.dialed
      && (r.retriesScheduled == t.retriesScheduled + 1 <==> t.attempts < MaxRetries)
      && (t.attempts < MaxRetries ==> r.retry.held)
  {
  }

  /** The retry the handler holds, when it fires on a live terminal with a folder and a
      closed socket, opens a new socket with the current session id. */
  lemma RetryReconnects(t: Terminal)
    requires t.Valid() && t.retry.held && !t.disposed && t.workDir != ""
    requires t.ws.None? || t.ws.value.state == Closing || t.ws.value.state == Closed
    ensures var r := Step(t, RetryTimerFired(true));
      r.dialed == t.dialed + [t.sessionId] && r.ws == Some(Socket(Connecting, true))
      && !r.retry.held && r.attempts == t.attempts
  {
  }

  /** An open socket that drops while the counter is below 3 is dialed again, with the
      same session id, once the retry fires. */
  lemma DroppedSocketRedialed(t: Terminal)
    requires t.Valid() && t.ws == Some(Socket(Open, true)) && !t.handlingConflict && !t.disposed
    requires t.workDir != "" && t.attempts < MaxRetries
    ensures var r := Run(t, [SocketClosed, RetryTimerFired(true)]);
      r.dialed == t.dialed + [t.sessionId] && r.attempts == t.attempts + 1
      && r.ws == Some(Socket(Connecting, true))
  {
    CloseCountsAttempt(t);
    RetryReconnects(Step(t, SocketClosed));
    RunPair(t, SocketClosed, RetryTimerFired(true));
  }

  /** After a conflict, the conflict timer reconnects with the new session id and a zero
      counter. */
  lemma ConflictReconnectsWithFreshId(t: Terminal, data: string, freshId: string)
    requires t.Valid() && t.ws.Some? && t.ws.value.state == Open && !t.disposed && t.workDir != ""
    requires ConflictDetected(data, Roll(t.outputBuffer, data))
    ensures var r := Run(t, [Chunk(data, freshId), ConflictTimerFired]);
      r.dialed == t.dialed + [freshId] && r.attempts == 0 && !r.handlingConflict
      && r.ws == Some(Socket(Connecting, true))
  {
    ConflictPath(t, data, freshId);
    var t1 := Step(t, Chunk(data, freshId));
    var t2 := Step(t1, ConflictTimerFired);
    assert t2 == ConnectStep(t1.(conflictTimers := t1.conflictTimers - 1, handlingConflict := false, attempts := 0));
    RunPair(t, Chunk(data, freshId), ConflictTimerFired);
  }

  lemma RunPair(t: Terminal, e1: Event, e2: Event)
    requires t.Valid()
    ensures Run(t, [e1, e2]) == Step(Step(t, e1), e2)
  {
    var t1 := Step(t, e1);
    assert [e1, e2][1..] == [e2];
    assert Run(t, [e1, e2]) == Run(t1, [e2]);
    assert [e2][1..] == [];
    assert Run(t1, [e2]) == Run(Step(t1, e2), []);
  }

  /** The restart button zeroes the counter and, when the socket is not connecting or
      open, reconnects with the current session id. */
  lemma ManualRestartReconnects(t: Terminal)
    requires t.Valid() && !t.disposed && t.workDir != ""
    requires t.ws.None? || t.ws.value.state == Closing || t.ws.value.state == Closed
    ensures var r := Step(t, ManualRestart);
      r.attempts == 0 && r.ws == Some(Socket(Connecting, true)) && r.dialed == t.dialed + [t.sessionId]
  {
  }

  /** A chunk that does not trigger the check is appended to the buffer and queued. */
  lemma QuietChunkQueued(t: Terminal, data: string, freshId: string)
    requires t.Valid() && t.ws.Some? && t.ws.value.state == Open && !t.disposed
    requires !ConflictDetected(data, Roll(t.outputBuffer, data))
    ensures var r := Step(t, Chunk(data, freshId));
      r.queue == t.queue + [data] && r.sessionId == t.sessionId && r.handlingConflict == t.handlingConflict
      && r.outputBuffer == Roll(t.outputBuffer, data) && r.ws == t.ws
  {
  }

  /** A phrase split over two chunks is caught on the second one, through the buffer,
      as long as the buffer has not been cut in between: the first chunk, quiet on its
      own, is queued, and the second takes the conflict path. */
  lemma SplitPhraseDetected(t: Terminal, first: string, second: string, id1: string, id2: string)
    requires t.Valid() && t.ws.Some? && t.ws.value.state == Open && !t.disposed
    requires !ConflictDetected(first, Roll(t.outputBuffer, first))
    requires |t.outputBuffer + first + second| <= BufferLimit && |second| < LargeChunk
    requires HasConflictPhrase(first + second)
    ensures var t1 := Step(t, Chunk(first, id1));
      && t1.queue == t.queue + [first] && t1.sessionId == t.sessionId
      && t1.outputBuffer == t.outputBuffer + first
      && var t2 := Step(t1, Chunk(second, id2));
         t2.handlingConflict && t2.sessionId == id2 && t2.outputBuffer == "" && t2.queue == t1.queue
  {
    SplitHalves(t.outputBuffer, first, second);
    QuietChunkQueued(t, first, id1);
    var t1 := Step(t, Chunk(first, id1));
    ConflictPath(t1, second, id2);
  }

  /** Buffer arithmetic for a split phrase: the first chunk is added whole, and the
      second finds the phrase in the buffer. */
  lemma SplitHalves(buffer: string, first: string, second: string)
    requires |buffer + first + second| <= BufferLimit && |second| < LargeChunk
    requires HasConflictPhrase(first + second)
    ensures Roll(buffer, first) == buffer + first
    ensures Roll(buffer + first, second) == buffer + first + second
    ensures ConflictDetected(second, buffer + first + second)
  {
    assert |buffer + first| <= BufferLimit by {
      assert |buffer + first + second| == |buffer + first| + |second|;
    }
    assert buffer + first + second == buffer + (first + second) + "";
    PhraseInContext(buffer, first + second, "");
  }

  /** The cut at 2000 characters can lose a split phrase: "already " and then "in use"
      followed by 1994 more characters hold the phrase together, yet the second chunk
      overflows the buffer, the kept 1000 characters hold none of it, and the chunk is
      queued with the session id kept. */
  lemma CutDropsSplitPhrase(t: Terminal, first: string, second: string, id1: string, id2: string)
    requires t.Valid() && t.ws.Some? && t.ws.value.state == Open && !t.disposed
    requires t.outputBuffer == ""
    requires first == "already " && second == "in use" + seq(1994, _ => 'x')
    ensures HasConflictPhrase(first + second) && |second| < LargeChunk
    ensures var t2 := Step(Step(t, Chunk(first, id1)), Chunk(second, id2));
      t2.sessionId == t.sessionId && t2.queue == t.queue + [first, second]
      && t2.handlingConflict == t.handlingConflict
  {
    CutFacts(first, second);
    TwoQuietChunks(t, first, second, id1, id2);
  }

  lemma CutFacts(first: string, second: string)
    requires first == "already " && second == "in use" + seq(1994, _ => 'x')
    ensures Roll("", first) == first && !ConflictDetected(first, Roll("", first))
    ensures !ConflictDetected(second, Roll(Roll("", first), second))
    ensures HasConflictPhrase(first + second) && |second| < LargeChunk
  {
    FirstHalfQuiet(first);
    LongSecondHalfQuiet(first, second);
    JoinedLongHalves(first, second);
  }

  /** Two chunks that each trigger nothing are both queued, and the session id stays. */
  lemma TwoQuietChunks(t: Terminal, first: string, second: string, id1: string, id2: string)
    requires t.Valid() && t.ws.Some? && t.ws.value.state == Open && !t.disposed
    requires !ConflictDetected(first, Roll(t.outputBuffer, first))
    requires !ConflictDetected(second, Roll(Roll(t.outputBuffer, first), second))
    ensures var t2 := Step(Step(t, Chunk(first, id1)), Chunk(second, id2));
      t2.sessionId == t.sessionId && t2.queue == t.queue + [first, second]
      && t2.handlingConflict == t.handlingConflict
  {
    QuietChunkQueued(t, first, id1);
    var t1 := Step(t, Chunk(first, id1));
    assert t1.outputBuffer == Roll(t.outputBuffer, first) && t1.ws == t.ws && !t1.disposed;
    QuietChunkQueued(t1, second, id2);
    var t2 := Step(t1, Chunk(second, id2));
    assert t2.queue == t.queue + [first] + [second];
    assert t.queue + [first] + [second] == t.queue + [first, second];
  }

  lemma LongSecondHalfQuiet(first: string, second: string)
    requires first == "already " && second == "in use" + seq(1994, _ => 'x')
    ensures !ConflictDetected(second, Roll(first, second))
  {
    KeptTailIsX(first, second);
    AllXQuiet(Roll(first, second));
    LongTailQuiet(second);
  }

  lemma KeptTailIsX(first: string, second: string)
    requires first == "already " && second == "in use" + seq(1994, _ => 'x')
    ensures forall m :: 0 <= m < |Roll(first, second)| ==> Roll(first, second)[m] == 'x'
  {
    var joined := first + second;
    var kept := Roll(first, second);
    assert |kept| == BufferKeep && kept == joined[1008..];
    forall m | 0 <= m < |kept| ensures kept[m] == 'x' {
      assert kept[m] == joined[1008 + m] == second[1000 + m];
    }
  }

  lemma AllXQuiet(s: string)
    requires forall m :: 0 <= m < |s| ==> s[m] == 'x'
    ensures !HasConflictPhrase(s) && StripAnsi(s) == s
  {
    NoPhraseWithoutAnyA(s);
  }

  lemma LongTailQuiet(second: string)
    requires second == "in use" + seq(1994, _ => 'x')
    ensures !HasConflictPhrase(second) && StripAnsi(second) == second
  {
    forall m | 0 <= m < |second| ensures LowerChar(second[m]) != 'a' && !IsControl(second[m]) {
      if m >= 6 {
        assert second[m] == 'x';
      }
    }
    NoPhraseWithoutAnyA(second);
  }

  lemma JoinedLongHalves(first: string, second: string)
    requires first == "already " && second == "in use" + seq(1994, _ => 'x')
    ensures HasConflictPhrase(first + second) && |second| < LargeChunk
  {
    PlainPhraseFound("already in use");
    PhraseInContext("", "already in use", seq(1994, _ => 'x'));
    assert "" + "already in use" + seq(1994, _ => 'x') == first + second;
  }

  lemma FirstHalfQuiet(first: string)
    requires first == "already "
    ensures Roll("", first) == first && !ConflictDetected(first, first)
  {
    assert "" + first == first;
    FirstHalfIsQuiet(first);
  }

  lemma FirstHalfIsQuiet(s: string)
    requires s == "already "
    ensures !HasConflictPhrase(s) && StripAnsi(s) == s
  {
    forall i: nat | i < |s| ensures !PhraseAt(s, i) {
      if i == 0 {
        assert SkipSpaces(s, 7) == 8;
      } else if i == 4 {
        assert LowerChar(s[4 + 1]) != "already"[1];
      } else {
        NoPhraseWithoutA(s, i);
      }
    }
    NoPhraseFound(s);
  }

  // ---------------------------------------------------------------------------
  // Disposal

  /** Once disposed, a terminal never opens another socket. */
  lemma {:induction false} DisposedStaysQuiet(t: Terminal, events: seq<Event>)
    requires t.Valid() && t.disposed
    ensures Run(t, events).dialed == t.dialed && Run(t, events).disposed
    decreases |events|
  {
    if events != [] {
      DisposedStaysQuiet(Step(t, events[0]), events[1..]);
    }
  }

  /** As written, a conflict timer that fires after `dispose()` (the terminal was
      removed within 1.5 s of a conflict) opens a new socket for the removed terminal. */
  lemma DisposedTerminalRedialsAsWritten(t: Terminal, data: string, freshId: string)
    requires t.Valid() && t.ws.Some? && t.ws.value.state == Open && !t.disposed && t.workDir != ""
    requires ConflictDetected(data, Roll(t.outputBuffer, data))
    ensures var t1 := StepAsWritten(t, Chunk(data, freshId));
      var t2 := StepAsWritten(t1, Dispose);
      var t3 := StepAsWritten(t2, ConflictTimerFired);
      t2.disposed && t3.disposed && t3.dialed == t.dialed + [freshId]
  {
    ConflictPath(t, data, freshId);
    var t1 := StepAsWritten(t, Chunk(data, freshId));
    assert t1 == Step(t, Chunk(data, freshId));
    var t2 := StepAsWritten(t1, Dispose);
    assert t2.ws == Some(Socket(Closing, false)) && t2.conflictTimers > 0 && t2.dialed == t.dialed;
    assert t2.sessionId == freshId;
  }

  /** The two outcomes of a chunk on an open socket of a live terminal. */
  lemma ChunkStep(t: Terminal, data: string, freshId: string, detected: bool)
    requires t.Valid() && t.ws.Some? && t.ws.value.state == Open && !t.disposed
    requires detected == ConflictDetected(data, Roll(t.outputBuffer, data))
    ensures detected ==>
      Step(t, Chunk(data, freshId))
      == t.(handlingConflict := true, ws := CloseSocket(Some(t.ws.value.(closeHandler := false))),
            sessionId := freshId, outputBuffer := "", conflictTimers := t.conflictTimers + 1)
    ensures !detected ==>
      Step(t, Chunk(data, freshId)) == t.(outputBuffer := Roll(t.outputBuffer, data), queue := t.queue + [data])
  {
  }

  // ---------------------------------------------------------------------------
  // The terminal object

  class AgentTerminal {
    var workDir: string
    var sessionId: string
    var ws: Option<Socket>
    var disposed: bool
    var outputBuffer: string
    var queue: seq<string>
    var attempts: nat
    var handlingConflict: bool
    var stable: TimerSlot
    var retry: TimerSlot
    var conflictTimers: nat
    var dialed: seq<string>
    var retriesScheduled: nat

    function State(): Terminal
      reads this
    {
      Terminal(workDir, sessionId, ws, disposed, outputBuffer, queue, attempts, handlingConflict,
        stable, retry, conflictTimers, dialed, retriesScheduled)
    }

    constructor(workDir: string, sessionId: string)
      ensures State() == Initial(workDir, sessionId)
    {
      this.workDir := workDir;
      this.sessionId := sessionId;
      ws := None;
      disposed := false;
      outputBuffer := "";
      queue := [];
      attempts := 0;
      handlingConflict := false;
      stable := TimerSlot(0, false);
      retry := TimerSlot(0, false);
      conflictTimers := 0;
      dialed := [];
      retriesScheduled := 0;
    }

    /** `connect()`. */
    method DoConnect()
      requires State().Valid()
      modifies this
      ensures State() == ConnectStep(old(State()))
    {
      if ws.Some? && (ws.value.state == Connecting || ws.value.state == Open) {
        return;
      }
      if workDir == "" {
        return;
      }
      ws := Some(Socket(Connecting, true));
      dialed := dialed + [sessionId];
    }

    method Connect()
      requires State().Valid()
      modifies this
      ensures State() == Step(old(State()), Event.Connect)
    {
      if !disposed {
        DoConnect();
      }
    }

    /** `onopen`: the socket is open and the 5 s stability timer is set. */
    method OnOpen()
      requires State().Valid()
      modifies this
      ensures State() == Step(old(State()), SocketOpened)
    {
      if ws.Some? && ws.value.state == Connecting {
        ws := Some(ws.value.(state := Open));
        stable := stable.Schedule();
      }
    }

    /** `onmessage` for a `terminal_output` message: the chunk joins the rolling
        buffer; a conflict closes the socket and rotates the id, otherwise the chunk is
        queued. */
    method OnMessage(data: string, freshId: string)
      requires State().Valid()
      modifies this
      ensures State() == Step(old(State()), Chunk(data, freshId))
    {
      if ws.None? || ws.value.state != Open || disposed {
        return;
      }
      ghost var before := State();
      var buffer := Roll(outputBuffer, data);
      if ConflictDetected(data, buffer) {
        ChunkStep(before, data, freshId, true);
        handlingConflict := true;
        ws := CloseSocket(Some(ws.value.(closeHandler := false)));
        sessionId := freshId;
        outputBuffer := "";
        conflictTimers := conflictTimers + 1;
        return;
      }
      ChunkStep(before, data, freshId, false);
      outputBuffer := buffer;
      queue := queue + [data];
    }

    /** `onclose`, or the close of a socket whose handler was detached. */
    method OnSocketClosed()
      requires State().Valid()
      modifies this
      ensures State() == Step(old(State()), SocketClosed)
    {
      if ws.None? || ws.value.state == Closed {
        return;
      }
      if !ws.value.closeHandler {
        ws := Some(Socket(Closed, false));
        return;
      }
      ws := Some(Socket(Closed, true));
      queue := [];
      stable := stable.Clear();
      if handlingConflict {
        return;
      }
      if !disposed {
        attempts := attempts + 1;
        if attempts <= MaxRetries {
          retry := retry.Schedule();
          retriesScheduled := retriesScheduled + 1;
        }
      }
    }

    /** The stability timer: the counter returns to 0 if the socket is open. */
    method OnStableTimer(which: bool)
      requires State().Valid()
      modifies this
      ensures State() == Step(old(State()), StableTimerFired(which))
    {
      if !stable.CanFire(which) {
        return;
      }
      stable := stable.Fire(which);
      if ws.Some? && ws.value.state == Open {
        attempts := 0;
      }
    }

    /** The retry timer: reconnects unless disposed. */
    method OnRetryTimer(which: bool)
      requires State().Valid()
      modifies this
      ensures State() == Step(old(State()), RetryTimerFired(which))
    {
      if !retry.CanFire(which) {
        return;
      }
      retry := retry.Fire(which);
      if !disposed {
        DoConnect();
      }
    }

    /** The conflict timer (with the disposal check; see `OnConflictTimerAsWritten`). */
    method OnConflictTimer()
      requires State().Valid()
      modifies this
      ensures State() == Step(old(State()), ConflictTimerFired)
    {
      if conflictTimers == 0 {
        return;
      }
      conflictTimers := conflictTimers - 1;
      handlingConflict := false;
      attempts := 0;
      if !disposed {
        DoConnect();
      }
    }

    /** `restartTerminal`. */
    method Restart()
      requires State().Valid()
      modifies this
      ensures State() == Step(old(State()), ManualRestart)
    {
      if disposed {
        return;
      }
      attempts := 0;
      DoConnect();
    }

    method OnFrame()
      requires State().Valid()
      modifies this
      ensures State() == Step(old(State()), Frame)
    {
      queue := [];
    }

    /** `dispose()`. */
    method Dispose()
      requires State().Valid()
      modifies this
      ensures State() == Step(old(State()), Event.Dispose)
    {
      disposed := true;
      retry := retry.Clear();
      stable := stable.Clear();
      queue := [];
      ws := CloseSocket(ws);
    }
  }
}
