/** One agent process behind a websocket (`TerminalSession` in src/terminal.py): starting
    the agent's command line in a pseudo-terminal, the read loop that forwards its output,
    input and resizing, pasted images saved to temporary files, and stopping.

    The pseudo-terminal, the file system and the websocket are state of the model: the
    process is a `Pty` value, the files are a `Disk` object, and what the session sends
    over the socket is the sequence `outbox`. What the outside world decides (whether the
    spawn succeeds, what the process prints, what the base64 decoder answers, a fresh
    random id) comes in as parameters. */
module PtySession {
  import opened Common
  import opened Agents
  import opened Command
  import opened Protocol
  import opened ConflictDetector

  /** The pseudo-terminal process: alive or exited, everything written to it, its window
      size, and its exit status once it has one. */
  datatype Pty = Pty(alive: bool, written: seq<string>, rows: int, cols: int, exitStatus: Option<int>)

  /** A freshly spawned process, 24 rows by 80 columns. */
  function Spawned(): Pty { Pty(true, [], 24, 80, None) }

  /** The paths that exist on disk. */
  class Disk {
    var files: set<string>

    constructor(files: set<string>)
      ensures this.files == files
    {
      this.files := files;
    }
  }

  // ---------------------------------------------------------------------------
  // Resizing

  const MinRows: int := 10
  const MaxRows: int := 200
  const MinCols: int := 20
  const MaxCols: int := 400

  /** `max(lo, min(hi, v))`. */
  function Clamp(v: int, lo: int, hi: int): (r: int)
    requires lo <= hi
    ensures lo <= r <= hi
    ensures lo <= v <= hi ==> r == v
    ensures v < lo ==> r == lo
    ensures v > hi ==> r == hi
  {
    var m := if hi < v then hi else v;
    if lo > m then lo else m
  }

  /** Clamping twice is clamping once. */
  lemma ClampIdempotent(v: int, lo: int, hi: int)
    requires lo <= hi
    ensures Clamp(Clamp(v, lo, hi), lo, hi) == Clamp(v, lo, hi)
  {
  }

  // ---------------------------------------------------------------------------
  // Images

  const MaxBase64Size: nat := 70 * 1024 * 1024
  const MaxImageBytes: nat := 50 * 1024 * 1024
  const AllowedExtensions: seq<string> := [".png", ".jpg", ".jpeg", ".gif", ".webp"]

  /** `image_data.split(",")[1]` when the text holds a comma (a data URL such as
      `data:image/png;base64,...`): the part between the first comma and the next one. */
  function PayloadOf(data: string): (r: string)
    ensures ',' !in data ==> r == data
    ensures ',' in data ==> ',' !in r
    ensures ',' in data ==>
      var i := IndexOf(data, ',').value;
      && i + 1 + |r| <= |data| && r == data[i + 1..i + 1 + |r|]
      && (i + 1 + |r| == |data| || data[i + 1 + |r|] == ',')
  {
    match IndexOf(data, ',')
    case None => data
    case Some(i) =>
      var rest := data[i + 1..];
      match IndexOf(rest, ',')
      case None => rest
      case Some(j) => rest[..j]
  }

  predicate IsSeparator(c: char, windows: bool) {
    c == '/' || (windows && c == '\\')
  }

  /** The last component of a path (`PurePath(p).name`), ignoring trailing separators. */
  function FileName(path: string, windows: bool): (r: string)
    ensures forall i :: 0 <= i < |r| ==> !IsSeparator(r[i], windows)
    decreases |path|
  {
    if path == [] then []
    else if IsSeparator(path[|path| - 1], windows) then
      if forall i :: 0 <= i < |path| ==> IsSeparator(path[i], windows) then []
      else FileName(path[..|path| - 1], windows)
    else LastComponent(path, windows)
  }

  function LastComponent(path: string, windows: bool): (r: string)
    ensures forall i :: 0 <= i < |r| ==> !IsSeparator(r[i], windows)
    ensures |r| <= |path| && r == path[|path| - |r|..]
    decreases |path|
  {
    if path == [] || IsSeparator(path[|path| - 1], windows) then []
    else LastComponent(path[..|path| - 1], windows) + [path[|path| - 1]]
  }

  /** `PurePath(name).suffix`: from the last dot, when that dot is neither the first nor the
      last character of the name. */
  function Suffix(name: string): (r: string)
    ensures r != [] ==> |r| >= 2 && |r| < |name| && r == name[|name| - |r|..]
    ensures r != [] ==> r[0] == '.' && '.' !in r[1..]
    ensures LastIndexOf(name, '.').Some? && 0 < LastIndexOf(name, '.').value < |name| - 1 ==> r != []
  {
    match LastIndexOf(name, '.')
    case None => []
    case Some(i) => if 0 < i < |name| - 1 then name[i..] else []
  }

  /** The extension of the saved file: the name's suffix (with its case) when, lower-cased,
      it is an allowed one, otherwise `.png`. */
  function ImageExtension(filename: string, windows: bool): (r: string)
    ensures Lower(r) in AllowedExtensions
    ensures r == ".png" || r == Suffix(FileName(filename, windows))
    ensures Lower(Suffix(FileName(filename, windows))) in AllowedExtensions ==> r == Suffix(FileName(filename, windows))
  {
    var ext := Suffix(FileName(filename, windows));
    var chosen := if ext == [] then ".png" else ext;
    assert Lower(".png") == ".png";
    if Lower(chosen) in AllowedExtensions then chosen else ".png"
  }

  /** The checks made before an image is saved, in order: the agent takes images, the
      base64 text is at most 70 MiB (before decoding), it decodes, and the decoded image is
      at most 50 MiB. A failure carries the message sent to the browser. */
  function ValidateImage(cfg: AgentConfig, imageData: string, decode: string -> Result<seq<byte>>): (r: Result<seq<byte>>)
    ensures r.Success? <==>
      && cfg.addImageCmd.Some?
      && |PayloadOf(imageData)| <= MaxBase64Size
      && decode(PayloadOf(imageData)).Success?
      && |decode(PayloadOf(imageData)).value| <= MaxImageBytes
    ensures r.Success? ==> r.value == decode(PayloadOf(imageData)).value
  {
    if cfg.addImageCmd.None? then Failure(cfg.name + " does not support images")
    else
      var payload := PayloadOf(imageData);
      if |payload| > MaxBase64Size then Failure("Image data too large (max ~50MB)")
      else
        match decode(payload)
        case Failure(e) => Failure("Invalid image data: " + e)
        case Success(bytes) =>
          if |bytes| > MaxImageBytes then Failure("Image too large (max 50MB)") else Success(bytes)
  }

  /** An oversized base64 text is refused before the decoder sees it: the outcome does not
      depend on the decoder at all. */
  lemma OversizedPayloadNotDecoded(cfg: AgentConfig, imageData: string,
                                   decode1: string -> Result<seq<byte>>, decode2: string -> Result<seq<byte>>)
    requires |PayloadOf(imageData)| > MaxBase64Size
    ensures ValidateImage(cfg, imageData, decode1) == ValidateImage(cfg, imageData, decode2)
    ensures ValidateImage(cfg, imageData, decode1).Failure?
  {
  }

  /** Agents without an image command refuse every image, whatever the data. */
  lemma NoImageCommandRefuses(k: AgentKind, windows: bool, imageData: string, decode: string -> Result<seq<byte>>)
    requires k in [Codex, OpenCode, Shell]
    ensures ValidateImage(ConfigOf(k, windows), imageData, decode)
         == Failure(ConfigOf(k, windows).name + " does not support images")
  {
  }

  /** `os.path.join(directory, name)` for a name that is not absolute. */
  function PathJoin(dir: string, name: string, windows: bool): (r: string)
    ensures |r| >= |dir| + |name|
    ensures dir != [] && !IsSeparator(dir[|dir| - 1], windows) ==> |r| == |dir| + 1 + |name|
    ensures r[|r| - |name|..] == name
    ensures r[..|dir|] == dir
  {
    if dir == [] || IsSeparator(dir[|dir| - 1], windows) then dir + name
    else dir + (if windows then "\\" else "/") + name
  }

  /** `ai_image_<first 8 of the session id>_<first 8 of a fresh uuid><ext>` in the temporary
      directory. */
  function TempPath(tempDir: string, sessionId: string, unique: string, ext: string, windows: bool): string {
    PathJoin(tempDir, "ai_image_" + Take(sessionId, 8) + "_" + Take(unique, 8) + ext, windows)
  }

  /** The saved file sits directly in the temporary directory and keeps the chosen
      extension, as long as the first eight characters of the ids hold no separator. */
  lemma TempPathInTempDir(tempDir: string, sessionId: string, unique: string, ext: string, windows: bool)
    requires tempDir != [] && !IsSeparator(tempDir[|tempDir| - 1], windows)
    requires forall c :: c in Take(sessionId, 8) + Take(unique, 8) + ext ==> !IsSeparator(c, windows)
    ensures var p := TempPath(tempDir, sessionId, unique, ext, windows);
      && p[..|tempDir|] == tempDir && IsSeparator(p[|tempDir|], windows)
      && (forall i :: |tempDir| < i < |p| ==> !IsSeparator(p[i], windows))
      && p[|p| - |ext|..] == ext
  {
    var name := "ai_image_" + Take(sessionId, 8) + "_" + Take(unique, 8) + ext;
    var p := TempPath(tempDir, sessionId, unique, ext, windows);
    assert p == tempDir + (if windows then "\\" else "/") + name;
    forall i | |tempDir| < i < |p| ensures !IsSeparator(p[i], windows) {
      assert p[i] == name[i - |tempDir| - 1];
      var j := i - |tempDir| - 1;
      if j >= 9 + |Take(sessionId, 8)| + 1 {
        assert name[j] in Take(sessionId, 8) + Take(unique, 8) + ext by {
          assert name[j] == (Take(unique, 8) + ext)[j - 9 - |Take(sessionId, 8)| - 1];
        }
      } else if 9 <= j < 9 + |Take(sessionId, 8)| {
        assert name[j] == Take(sessionId, 8)[j - 9];
      }
    }
  }

  // ---------------------------------------------------------------------------
  // The read loop

  /** The chunks that carry data, in the order they were read. */
  function NonEmpty(results: seq<string>): (r: seq<string>)
    ensures |r| <= |results|
    ensures forall i :: 0 <= i < |r| ==> r[i] != ""
  {
    if results == [] then []
    else (if results[0] != "" then [results[0]] else []) + NonEmpty(results[1..])
  }

  /** Every chunk that carries data is kept, and nothing else: the forwarded chunks are the
      non-empty results, in order. */
  lemma {:induction false} NonEmptyIsOrderedFilter(results: seq<string>)
    ensures IsSubsequence(NonEmpty(results), results)
    ensures forall x :: x in results && x != "" ==> x in NonEmpty(results)
    ensures (forall i :: 0 <= i < |results| ==> results[i] != "") ==> NonEmpty(results) == results
  {
    if results != [] {
      NonEmptyIsOrderedFilter(results[1..]);
      assert results == [results[0]] + results[1..];
      if results[0] != "" {
        assert NonEmpty(results)[1..] == NonEmpty(results[1..]);
      } else {
        assert NonEmpty(results) == NonEmpty(results[1..]);
      }
    }
  }

  /** One more read adds its chunk at the end when it carries data. */
  lemma {:induction false} NonEmptySnoc(results: seq<string>, x: string)
    ensures NonEmpty(results + [x]) == NonEmpty(results) + (if x != "" then [x] else [])
  {
    if results == [] {
      assert [x][1..] == [];
    } else {
      assert (results + [x])[1..] == results[1..] + [x];
      NonEmptySnoc(results[1..], x);
    }
  }

  function Outputs(chunks: seq<string>): (r: seq<Envelope>)
    ensures |r| == |chunks|
    ensures forall i :: 0 <= i < |chunks| ==> r[i] == TerminalOutput(chunks[i])
  {
    seq(|chunks|, i requires 0 <= i < |chunks| => TerminalOutput(chunks[i]))
  }

  /** One more read: its chunk, when it carries data, is forwarded after the others. */
  lemma ReadStep(results: seq<string>, data: string)
    ensures |NonEmpty(results + [data])| == |NonEmpty(results)| + (if data != "" then 1 else 0)
    ensures Outputs(NonEmpty(results + [data]))
         == Outputs(NonEmpty(results)) + (if data != "" then [TerminalOutput(data)] else [])
  {
    NonEmptySnoc(results, data);
    var before := NonEmpty(results);
    if data != "" {
      assert Outputs(before + [data]) == Outputs(before) + [TerminalOutput(data)];
    }
  }

  /** `str(exit_code)` inside the f-string: `None` when the status is unknown. */
  function ExitText(e: Option<int>): string {
    match e
    case None => "None"
    case Some(n) => IntToString(n)
  }

  /** The three hints sent when the process printed nothing, as the Python source writes
      them: in an ordinary string literal `\\r`, `\\n` and `\\x1b` are a backslash followed
      by letters, so the browser is sent backslashes rather than line breaks and colour
      codes. */
  function HintsAsWritten(exit: Option<int>, command: string): seq<Envelope> {
    [TerminalOutput("\\r\\n\\x1b" + "[31m[프로세스가 즉시 종료됨 (exit: " + ExitText(exit) + ")]\\x1b[0m\\r\\n"),
     TerminalOutput("\\x1b[33m" + "터미널에서 직접 명령어를 테스트해보세요:\\x1b[0m\\r\\n"),
     TerminalOutput("\\x1b[36m" + "  " + command + "\\x1b[0m\\r\\n")]
  }

  /** The hints as evidently intended: red, yellow and cyan lines ended by CR LF. */
  function Hints(exit: Option<int>, command: string): seq<Envelope> {
    [TerminalOutput("\r\n\U{1b}" + "[31m[프로세스가 즉시 종료됨 (exit: " + ExitText(exit) + ")]\U{1b}[0m\r\n"),
     TerminalOutput("\U{1b}" + "[33m터미널에서 직접 명령어를 테스트해보세요:\U{1b}[0m\r\n"),
     TerminalOutput("\U{1b}" + "[36m  " + command + "\U{1b}[0m\r\n")]
  }

  /** As written, each hint starts with a backslash and holds no escape character in
      the place of its colour code: the terminal shows the codes as text. */
  lemma HintsAsWrittenShowCodes(exit: Option<int>, command: string)
    ensures |HintsAsWritten(exit, command)| == 3
    ensures forall i :: 0 <= i < 3 ==>
      var d := HintsAsWritten(exit, command)[i].data;
      |d| >= 8 && d[0] == '\\' && Esc !in d[..8]
  {
    var w := HintsAsWritten(exit, command);
    assert w[0].data[..8] == "\\r\\n\\x1b";
    assert w[1].data[..8] == "\\x1b[33m";
    assert w[2].data[..8] == "\\x1b[36m";
  }

  /** The intended hints start with a line break and colour every line. */
  lemma HintsStartWithEscape(exit: Option<int>, command: string)
    ensures |Hints(exit, command)| == 3
    ensures Hints(exit, command)[0].data[..3] == "\r\n\U{1b}"
    ensures forall i :: 1 <= i < 3 ==> Hints(exit, command)[i].data[0] == Esc
  {
  }

  /** What the end of the read loop sends: the close notice with the number of forwarded
      chunks, followed by the hints when that number is 0. */
  function Closing(exit: Option<int>, count: nat, command: string): (r: seq<Envelope>)
    ensures |r| == (if count == 0 then 4 else 1)
    ensures r[0] == TerminalClosed(exit, count)
  {
    [TerminalClosed(exit, count)] + (if count == 0 then Hints(exit, command) else [])
  }

  // ---------------------------------------------------------------------------
  // The session

  class TerminalSession {
    const sessionId: string
    const workingDir: string
    /** The `agent_type` text as given, and the configuration it selects. */
    const agentType: string
    const kind: AgentKind
    const role: string
    /** `os.name == 'nt'`. */
    const windows: bool

    var pty: Option<Pty>
    var running: bool
    var tempFiles: set<string>
    var socketAttached: bool
    var outbox: seq<Envelope>
    /** The command line of the last spawn. */
    var launched: Option<string>
    /** How many times a live process was terminated. */
    var terminations: nat

    /** `self.config`. */
    function Config(): AgentConfig {
      ConfigOf(kind, windows)
    }

    /** The command line `start` spawns. */
    function CommandLine(): string {
      BuildCommand(Config(), sessionId, RolePrompt(role))
    }

    /** `TerminalSession(session_id, working_dir, agent_type, role)`; an unknown agent
        type selects Claude's configuration, a missing folder the current one. */
    constructor(sessionId: string, workingDir: Option<string>, cwd: string, agentType: string,
                role: string, windows: bool)
      ensures this.sessionId == sessionId && this.agentType == agentType && this.role == role
      ensures this.kind == KindOrDefault(agentType) && this.windows == windows
      ensures this.workingDir == if workingDir.Some? && workingDir.value != "" then workingDir.value else cwd
      ensures pty.None? && !running && tempFiles == {} && !socketAttached && outbox == []
      ensures launched.None? && terminations == 0
    {
      this.sessionId := sessionId;
      this.workingDir := if workingDir.Some? && workingDir.value != "" then workingDir.value else cwd;
      this.agentType := agentType;
      this.kind := KindOrDefault(agentType);
      this.role := role;
      this.windows := windows;
      pty := None;
      running := false;
      tempFiles := {};
      socketAttached := false;
      outbox := [];
      launched := None;
      terminations := 0;
    }

    /** `start`: without pseudo-terminal support, an error and `False`; otherwise the
        socket is attached and the command line spawned; a failed spawn sends an error
        and gives `False`, a successful one starts the process and announces it. */
    method Start(ptyAvailable: bool, spawnError: Option<string>) returns (ok: bool)
      modifies this
      ensures !ptyAvailable ==>
        && !ok && outbox == old(outbox) + [Error("Terminal not available (pywinpty not installed)")]
        && pty == old(pty) && running == old(running) && socketAttached == old(socketAttached)
        && launched == old(launched)
      ensures ptyAvailable && spawnError.Some? ==>
        && !ok && socketAttached && pty == old(pty) && running == old(running) && launched == old(launched)
        && outbox == old(outbox) + [Error("Failed to start " + Config().name + ": " + spawnError.value)]
      ensures ptyAvailable && spawnError.None? ==>
        && ok && socketAttached && pty == Some(Spawned()) && running && launched == Some(CommandLine())
        && outbox == old(outbox) + [TerminalStarted(sessionId, agentType, Config().name, workingDir)]
      ensures tempFiles == old(tempFiles) && terminations == old(terminations)
    {
      if !ptyAvailable {
        outbox := outbox + [Error("Terminal not available (pywinpty not installed)")];
        return false;
      }
      socketAttached := true;
      if spawnError.Some? {
        outbox := outbox + [Error("Failed to start " + Config().name + ": " + spawnError.value)];
        return false;
      }
      pty := Some(Spawned());
      running := true;
      launched := Some(CommandLine());
      outbox := outbox + [TerminalStarted(sessionId, agentType, Config().name, workingDir)];
      return true;
    }

    /** `_read_pty_output`, for a process that prints `results` (an empty text is a read
        that found nothing) and then exits with `exitStatus`: every chunk with data is
        forwarded in order and counted; at the end the close notice carries the count,
        followed by the hints when nothing was forwarded. */
    method ReadLoop(results: seq<string>, exitStatus: Option<int>)
      requires running && pty.Some? && pty.value.alive && socketAttached
      modifies this
      ensures pty == Some(old(pty).value.(alive := false, exitStatus := exitStatus))
      ensures outbox == old(outbox) + Outputs(NonEmpty(results))
                        + Closing(exitStatus, |NonEmpty(results)|, Config().command)
      ensures running == old(running) && tempFiles == old(tempFiles) && socketAttached
      ensures launched == old(launched) && terminations == old(terminations)
    {
      var count: nat := 0;
      var i := 0;
      while i < |results|
        invariant 0 <= i <= |results|
        invariant count == |NonEmpty(results[..i])|
        invariant outbox == old(outbox) + Outputs(NonEmpty(results[..i]))
        invariant pty == old(pty) && running == old(running) && tempFiles == old(tempFiles)
        invariant socketAttached && launched == old(launched) && terminations == old(terminations)
      {
        var data := results[i];
        assert results[..i + 1] == results[..i] + [data];
        ReadStep(results[..i], data);
        if data != "" {
          count := count + 1;
          outbox := outbox + [TerminalOutput(data)];
        }
        i := i + 1;
      }
      assert results[..i] == results;
      pty := Some(pty.value.(alive := false, exitStatus := exitStatus));
      outbox := outbox + Closing(exitStatus, count, Config().command);
    }

    /** `write`: the text reaches the process only while it is alive. */
    method Write(data: string)
      modifies this
      ensures old(pty).Some? && old(pty).value.alive ==>
        pty == Some(old(pty).value.(written := old(pty).value.written + [data]))
      ensures !(old(pty).Some? && old(pty).value.alive) ==> pty == old(pty)
      ensures running == old(running) && tempFiles == old(tempFiles) && outbox == old(outbox)
      ensures socketAttached == old(socketAttached) && launched == old(launched)
      ensures terminations == old(terminations)
    {
      if pty.Some? && pty.value.alive {
        pty := Some(pty.value.(written := pty.value.written + [data]));
      }
    }

    /** `resize`: a live process gets the size clamped to 10..200 rows and 20..400
        columns; otherwise nothing happens. */
    method Resize(rows: int, cols: int)
      modifies this
      ensures old(pty).Some? && old(pty).value.alive ==>
        pty == Some(old(pty).value.(rows := Clamp(rows, MinRows, MaxRows), cols := Clamp(cols, MinCols, MaxCols)))
      ensures !(old(pty).Some? && old(pty).value.alive) ==> pty == old(pty)
      ensures running == old(running) && tempFiles == old(tempFiles) && outbox == old(outbox)
      ensures socketAttached == old(socketAttached) && launched == old(launched)
      ensures terminations == old(terminations)
    {
      if pty.Some? && pty.value.alive {
        pty := Some(pty.value.(rows := Clamp(rows, MinRows, MaxRows), cols := Clamp(cols, MinCols, MaxCols)));
      }
    }

    /** `send_image`: a refused image sends its error and writes nothing. An accepted one
        is saved under a fresh temporary path that the session tracks; the agent's add
        command with the path and one trailing space (no newline) is written to the
        process, and the browser is told. A failure to save the file is reported as
        `Failed to add image`. */
    method SendImage(imageData: string, filename: string, decode: string -> Result<seq<byte>>,
                     unique: string, tempDir: string, saveError: Option<string>, disk: Disk)
      returns (r: Option<string>)
      modifies this, disk
      ensures ValidateImage(Config(), imageData, decode).Failure? ==>
        && r.None? && pty == old(pty) && tempFiles == old(tempFiles) && disk.files == old(disk.files)
        && outbox == old(outbox)
                     + (if socketAttached then [Error(ValidateImage(Config(), imageData, decode).error)] else [])
      ensures ValidateImage(Config(), imageData, decode).Success? && saveError.Some? ==>
        && r.None? && pty == old(pty) && tempFiles == old(tempFiles) && disk.files == old(disk.files)
        && outbox == old(outbox) + (if socketAttached then [Error("Failed to add image: " + saveError.value)] else [])
      ensures ValidateImage(Config(), imageData, decode).Success? && saveError.None? ==>
        var path := TempPath(tempDir, sessionId, unique, ImageExtension(filename, windows), windows);
        && r == Some(path)
        && tempFiles == old(tempFiles) + {path} && disk.files == old(disk.files) + {path}
        && (old(pty).Some? && old(pty).value.alive ==>
              pty == Some(old(pty).value.(written := old(pty).value.written
                                            + [Config().addImageCmd.value.Fill(path) + " "])))
        && (!(old(pty).Some? && old(pty).value.alive) ==> pty == old(pty))
        && outbox == old(outbox) + (if socketAttached then [ImageAdded(path, filename, agentType)] else [])
      ensures running == old(running) && socketAttached == old(socketAttached)
      ensures launched == old(launched) && terminations == old(terminations)
    {
      var checked := ValidateImage(Config(), imageData, decode);
      if checked.Failure? {
        if socketAttached {
          outbox := outbox + [Error(checked.error)];
        }
        return None;
      }
      if saveError.Some? {
        if socketAttached {
          outbox := outbox + [Error("Failed to add image: " + saveError.value)];
        }
        return None;
      }
      var path := TempPath(tempDir, sessionId, unique, ImageExtension(filename, windows), windows);
      disk.files := disk.files + {path};
      tempFiles := tempFiles + {path};
      Write(Config().addImageCmd.value.Fill(path) + " ");
      if socketAttached {
        outbox := outbox + [ImageAdded(path, filename, agentType)];
      }
      return Some(path);
    }

    /** `stop`: the session stops running, a live process is terminated and dropped, and
        the tracked temporary files are forgotten and then deleted where they exist.
        Stopping again deletes nothing and terminates nothing. */
    method Stop(disk: Disk)
      modifies this, disk
      ensures !running && pty.None? && tempFiles == {}
      ensures disk.files == old(disk.files) - old(tempFiles)
      ensures terminations == old(terminations) + (if old(pty).Some? && old(pty).value.alive then 1 else 0)
      ensures outbox == old(outbox) && socketAttached == old(socketAttached) && launched == old(launched)
    {
      running := false;
      if pty.Some? {
        if pty.value.alive {
          terminations := terminations + 1;
        }
        pty := None;
      }
      var pending := tempFiles;
      tempFiles := {};
      DeleteAll(pending, disk);
    }
  }

  /** The deletion loop of `stop`: every listed path that exists is removed, and nothing
      else. */
  method DeleteAll(paths: set<string>, disk: Disk)
    modifies disk
    ensures disk.files == old(disk.files) - paths
  {
    var pending := paths;
    while pending != {}
      invariant pending <= paths
      invariant disk.files == old(disk.files) - (paths - pending)
      decreases |pending|
    {
      var p :| p in pending;
      if p in disk.files {
        disk.files := disk.files - {p};
      }
      pending := pending - {p};
    }
  }
}
