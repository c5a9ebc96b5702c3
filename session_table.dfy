/** The module-level table `terminal_sessions` of src/terminal.py and the two functions
    that change it: `handle_terminal_websocket`, which serves one terminal websocket from
    connection to disconnection, and `cleanup_all_sessions`, run at shutdown. */
module Sessions {
  import opened Common
  import opened Agents
  import opened Protocol
  import opened PtySession

  /** `if agent_type not in AGENT_CONFIGS: agent_type = "claude"`. */
  function AgentTypeOrDefault(agentType: string): (r: string)
    ensures KindOf(r).Some?
    ensures KindOf(agentType).Some? ==> r == agentType
    ensures KindOf(r).value == KindOrDefault(agentType)
  {
    if KindOf(agentType).Some? then agentType else "claude"
  }

  /** The message types the loop acts on; every other type is ignored. */
  predicate IsHandledType(t: Option<string>) {
    t == Some("input") || t == Some("resize") || t == Some("image") || t == Some("ping")
  }

  /** One message of the loop, dispatched on `type` with the defaults of `msg.get`:
      input is written, a resize applied, an image sent, a ping answered with a pong;
      any other message changes nothing. A process that is gone or has exited is never
      touched. */
  method Dispatch(session: TerminalSession, m: ClientMessage, decode: string -> Result<seq<byte>>,
                  unique: string, tempDir: string, saveError: Option<string>, disk: Disk)
    modifies session, disk
    ensures m.msgType == Some("ping") ==>
      session.outbox == old(session.outbox) + [Pong] && session.pty == old(session.pty)
      && session.tempFiles == old(session.tempFiles) && disk.files == old(disk.files)
    ensures !IsHandledType(m.msgType) ==>
      session.outbox == old(session.outbox) && session.pty == old(session.pty)
      && session.tempFiles == old(session.tempFiles) && disk.files == old(disk.files)
    ensures m.msgType == Some("input") ==>
      && session.outbox == old(session.outbox) && session.tempFiles == old(session.tempFiles)
      && disk.files == old(disk.files)
      && (old(session.pty).Some? && old(session.pty).value.alive ==>
            session.pty == Some(old(session.pty).value.(written := old(session.pty).value.written + [m.data.GetOr("")])))
    ensures m.msgType == Some("resize") ==>
      && session.outbox == old(session.outbox) && session.tempFiles == old(session.tempFiles)
      && disk.files == old(disk.files)
      && (old(session.pty).Some? && old(session.pty).value.alive ==>
            session.pty == Some(old(session.pty).value.(rows := Clamp(m.rows.GetOr(24), MinRows, MaxRows),
                                                        cols := Clamp(m.cols.GetOr(80), MinCols, MaxCols))))
    ensures m.msgType == Some("image") ==>
      var checked := ValidateImage(session.Config(), m.data.GetOr(""), decode);
      && (checked.Failure? ==>
            && session.tempFiles == old(session.tempFiles) && session.pty == old(session.pty)
            && disk.files == old(disk.files)
            && session.outbox == old(session.outbox) + (if session.socketAttached then [Error(checked.error)] else []))
      && (checked.Success? && saveError.Some? ==>
            && session.tempFiles == old(session.tempFiles) && session.pty == old(session.pty)
            && disk.files == old(disk.files)
            && session.outbox == old(session.outbox)
                                 + (if session.socketAttached then [Error("Failed to add image: " + saveError.value)] else []))
      && (checked.Success? && saveError.None? ==>
            var path := TempPath(tempDir, session.sessionId, unique, ImageExtension(m.filename.GetOr("image.png"), session.windows), session.windows);
            && session.tempFiles == old(session.tempFiles) + {path} && disk.files == old(disk.files) + {path}
            && (old(session.pty).Some? && old(session.pty).value.alive ==>
                  session.pty == Some(old(session.pty).value.(written := old(session.pty).value.written
                                                              + [session.Config().addImageCmd.value.Fill(path) + " "])))
            && session.outbox == old(session.outbox)
                                 + (if session.socketAttached then [ImageAdded(path, m.filename.GetOr("image.png"), session.agentType)] else []))
    ensures old(session.tempFiles) <= session.tempFiles
    ensures disk.files - session.tempFiles <= old(disk.files) - old(session.tempFiles)
    ensures !(old(session.pty).Some? && old(session.pty).value.alive) ==> session.pty == old(session.pty)
    ensures session.running == old(session.running) && session.socketAttached == old(session.socketAttached)
    ensures session.launched == old(session.launched)
  {
    if m.msgType == Some("input") {
      session.Write(m.data.GetOr(""));
    } else if m.msgType == Some("resize") {
      session.Resize(m.rows.GetOr(24), m.cols.GetOr(80));
    } else if m.msgType == Some("image") {
      var _ := session.SendImage(m.data.GetOr(""), m.filename.GetOr("image.png"), decode, unique, tempDir, saveError, disk);
    } else if m.msgType == Some("ping") {
      session.outbox := session.outbox + [Pong];
    }
  }

  predicate NoImages(ms: seq<ClientMessage>) {
    forall i :: 0 <= i < |ms| ==> ms[i].msgType != Some("image")
  }

  /** What the loop sends back for messages without images: one pong per ping, in
      order. */
  function Replies(ms: seq<ClientMessage>): seq<Envelope>
    decreases |ms|
  {
    if ms == [] then []
    else Replies(ms[..|ms| - 1]) + (if ms[|ms| - 1].msgType == Some("ping") then [Pong] else [])
  }

  /** The text of each input message, in order (a missing `data` reads as empty). */
  function Inputs(ms: seq<ClientMessage>): seq<string>
    decreases |ms|
  {
    if ms == [] then []
    else Inputs(ms[..|ms| - 1]) + (if ms[|ms| - 1].msgType == Some("input") then [ms[|ms| - 1].data.GetOr("")] else [])
  }

  /** Replies and inputs of two batches of messages are those of each, one after the
      other. */
  lemma {:induction false} RepliesAndInputsSplit(a: seq<ClientMessage>, b: seq<ClientMessage>)
    ensures Replies(a + b) == Replies(a) + Replies(b)
    ensures Inputs(a + b) == Inputs(a) + Inputs(b)
    decreases |b|
  {
    if b == [] {
      assert a + b == a;
    } else {
      var b' := b[..|b| - 1];
      assert (a + b)[..|a + b| - 1] == a + b';
      assert (a + b)[|a + b| - 1] == b[|b| - 1];
      RepliesAndInputsSplit(a, b');
    }
  }

  /** Every reply is a pong, and there are no more of them than messages. */
  lemma {:induction false} RepliesArePongs(ms: seq<ClientMessage>)
    ensures |Replies(ms)| <= |ms|
    ensures forall i :: 0 <= i < |Replies(ms)| ==> Replies(ms)[i] == Pong
    decreases |ms|
  {
    if ms != [] {
      RepliesArePongs(ms[..|ms| - 1]);
    }
  }

  /** The receive loop: each message in turn, until the browser disconnects; message `i`
      names its file `uniques[i]` and fails to save with `saveErrors[i]`, if any. When no
      image arrives, a pong is sent per ping, in order, and nothing else; the files stay
      as they were; and a live process receives exactly the inputs, in order. A process
      that is gone or has exited is never touched. Every file the loop adds is tracked. */
  method Serve(session: TerminalSession, messages: seq<ClientMessage>, decode: string -> Result<seq<byte>>,
               uniques: seq<string>, saveErrors: seq<Option<string>>, tempDir: string, disk: Disk)
    requires |uniques| == |messages| && |saveErrors| == |messages|
    modifies session, disk
    ensures NoImages(messages) ==>
      && session.outbox == old(session.outbox) + Replies(messages)
      && session.tempFiles == old(session.tempFiles) && disk.files == old(disk.files)
    ensures NoImages(messages) && old(session.pty).Some? && old(session.pty).value.alive ==>
      && session.pty.Some? && session.pty.value.alive
      && session.pty.value.written == old(session.pty).value.written + Inputs(messages)
    ensures !(old(session.pty).Some? && old(session.pty).value.alive) ==> session.pty == old(session.pty)
    ensures session.launched == old(session.launched)
    ensures old(session.tempFiles) <= session.tempFiles
    ensures disk.files - session.tempFiles <= old(disk.files) - old(session.tempFiles)
  {
    var i := 0;
    while i < |messages|
      invariant 0 <= i <= |messages|
      invariant NoImages(messages[..i]) ==>
        && session.outbox == old(session.outbox) + Replies(messages[..i])
        && session.tempFiles == old(session.tempFiles) && disk.files == old(disk.files)
      invariant NoImages(messages[..i]) && old(session.pty).Some? && old(session.pty).value.alive ==>
        && session.pty.Some? && session.pty.value.alive
        && session.pty.value.written == old(session.pty).value.written + Inputs(messages[..i])
      invariant !(old(session.pty).Some? && old(session.pty).value.alive) ==> session.pty == old(session.pty)
      invariant session.launched == old(session.launched)
      invariant old(session.tempFiles) <= session.tempFiles
      invariant disk.files - session.tempFiles <= old(disk.files) - old(session.tempFiles)
    {
      Dispatch(session, messages[i], decode, uniques[i], tempDir, saveErrors[i], disk);
      assert messages[..i + 1][..i] == messages[..i];
      i := i + 1;
    }
    assert messages[..i] == messages;
  }

  /** The second half of `handle_terminal_websocket` on a new session: start it; when
      that fails return at once, otherwise serve the messages and stop the session. No
      file the session tracked, from before or saved while it ran, outlives it; without
      images exactly the files it tracked before are deleted. */
  method Run(session: TerminalSession, ptyAvailable: bool, spawnError: Option<string>,
             messages: seq<ClientMessage>, decode: string -> Result<seq<byte>>,
             uniques: seq<string>, saveErrors: seq<Option<string>>, tempDir: string, disk: Disk)
    returns (started: bool)
    requires |uniques| == |messages| && |saveErrors| == |messages|
    modifies session, disk
    ensures started <==> ptyAvailable && spawnError.None?
    ensures started ==>
      && !session.running && session.pty.None? && session.tempFiles == {}
      && session.launched == Some(session.CommandLine())
    ensures !started ==> disk.files == old(disk.files) && session.tempFiles == old(session.tempFiles)
    ensures started ==> disk.files <= old(disk.files) - old(session.tempFiles)
    ensures started && NoImages(messages) ==> disk.files == old(disk.files) - old(session.tempFiles)
  {
    started := session.Start(ptyAvailable, spawnError);
    if !started {
      return;
    }
    Serve(session, messages, decode, uniques, saveErrors, tempDir, disk);
    session.Stop(disk);
  }

  lemma UpdateThenRemove<K, V>(m: map<K, V>, k: K, v: V)
    ensures m[k := v] - {k} == m - {k}
  {
  }

  class SessionTable {
    var sessions: map<string, TerminalSession>

    constructor()
      ensures sessions == map[]
    {
      sessions := map[];
    }

    /** The first half of `handle_terminal_websocket`: the agent type and role fall back
        to `claude` and `General`, a session already under the id is stopped, and a new
        session takes its place in the table. */
    method Admit(sessionId: string, workingDir: Option<string>, cwd: string,
                 agentType: string, role: string, windows: bool, disk: Disk)
      returns (session: TerminalSession)
      modifies this, disk, sessions.Values
      ensures fresh(session)
      ensures session.sessionId == sessionId && session.agentType == AgentTypeOrDefault(agentType)
      ensures session.kind == KindOrDefault(agentType) && session.role == RoleOrDefault(role)
      ensures session.pty.None? && !session.running && session.tempFiles == {} && session.outbox == []
      ensures sessionId in old(sessions) ==>
        var prior := old(sessions)[sessionId];
        !prior.running && prior.pty.None? && prior.tempFiles == {}
      ensures forall s :: s in old(sessions.Values) && (sessionId !in old(sessions) || s != old(sessions)[sessionId])
                          ==> unchanged(s)
      ensures sessionId in old(sessions) ==> disk.files == old(disk.files) - old(sessions[sessionId].tempFiles)
      ensures sessionId !in old(sessions) ==> disk.files == old(disk.files)
      ensures sessions == old(sessions)[sessionId := session]
    {
      var tag := AgentTypeOrDefault(agentType);
      var roleName := RoleOrDefault(role);
      if sessionId in sessions {
        var prior := sessions[sessionId];
        prior.Stop(disk);
      }
      session := new TerminalSession(sessionId, workingDir, cwd, tag, roleName, windows);
      sessions := sessions[sessionId := session];
    }

    /** `handle_terminal_websocket` for a browser that sends `messages` and then
        disconnects. After `Admit`, a failed start returns at once and leaves the new entry
        in the table; otherwise every message is dispatched and, at the end, the session
        is stopped and its id removed. The prior session's files are deleted, and no image
        saved during the connection outlives it. */
    method HandleConnection(sessionId: string, workingDir: Option<string>, cwd: string,
                            agentType: string, role: string, windows: bool,
                            ptyAvailable: bool, spawnError: Option<string>,
                            messages: seq<ClientMessage>, decode: string -> Result<seq<byte>>,
                            uniques: seq<string>, saveErrors: seq<Option<string>>, tempDir: string, disk: Disk)
      returns (session: TerminalSession, started: bool)
      requires |uniques| == |messages| && |saveErrors| == |messages|
      modifies this, disk, sessions.Values
      ensures fresh(session)
      ensures session.sessionId == sessionId && session.agentType == AgentTypeOrDefault(agentType)
      ensures session.kind == KindOrDefault(agentType) && session.role == RoleOrDefault(role)
      ensures started <==> ptyAvailable && spawnError.None?
      ensures sessionId in old(sessions) ==>
        var prior := old(sessions)[sessionId];
        !prior.running && prior.pty.None? && prior.tempFiles == {}
      ensures forall s :: s in old(sessions.Values) && (sessionId !in old(sessions) || s != old(sessions)[sessionId])
                          ==> unchanged(s)
      ensures !started ==> sessions == old(sessions)[sessionId := session]
      ensures started ==>
        && sessions == old(sessions) - {sessionId}
        && !session.running && session.pty.None? && session.tempFiles == {}
        && session.launched == Some(session.CommandLine())
      ensures var kept := if sessionId in old(sessions) then old(disk.files) - old(sessions[sessionId].tempFiles)
                          else old(disk.files);
        && (!started ==> disk.files == kept)
        && (started ==> disk.files <= kept)
        && (started && NoImages(messages) ==> disk.files == kept)
    {
      session := Admit(sessionId, workingDir, cwd, agentType, role, windows, disk);
      ghost var others := old(sessions).Values;
      assert session !in others;
      started := Run(session, ptyAvailable, spawnError, messages, decode, uniques, saveErrors, tempDir, disk);
      if !started {
        return;
      }
      sessions := sessions - {sessionId};
      UpdateThenRemove(old(sessions), sessionId, session);
    }

    /** `cleanup_all_sessions`: every session in the table is stopped, which deletes every
        temporary file it tracked, and the table is emptied. */
    method CleanupAll(disk: Disk)
      modifies this, disk, sessions.Values
      ensures sessions == map[]
      ensures forall s :: s in old(sessions.Values) ==> !s.running && s.pty.None? && s.tempFiles == {}
      ensures forall s, p :: s in old(sessions.Values) && p in old(s.tempFiles) ==> p !in disk.files
      ensures disk.files == old(disk.files) - (set s, p | s in old(sessions.Values) && p in old(s.tempFiles) :: p)
    {
      var remaining := sessions.Values;
      while remaining != {}
        invariant remaining <= old(sessions.Values)
        invariant sessions == old(sessions)
        invariant disk.files == old(disk.files) - (set s, p | s in old(sessions.Values) - remaining && p in old(s.tempFiles) :: p)
        invariant forall s :: s in old(sessions.Values) - remaining ==> !s.running && s.pty.None? && s.tempFiles == {}
        invariant forall s, p :: s in old(sessions.Values) - remaining && p in old(s.tempFiles) ==> p !in disk.files
        invariant forall s :: s in remaining ==> s.tempFiles == old(s.tempFiles)
        decreases |remaining|
      {
        var s :| s in remaining;
        s.Stop(disk);
        remaining := remaining - {s};
      }
      sessions := map[];
    }
  }
}
