# agent-terminal, modelled in Dafny

agent-terminal is a local web application that runs AI command-line agents (Claude,
Gemini, Codex, OpenCode, a shell) in pseudo-terminals. Each agent is shown as an xterm pane
in the browser, connected over a websocket. This project models the two parts of it that
carry logic and proves properties about them.

**The server and the page script (`server.py`).**
- `SessionManager`, the message bus between agents. It keeps two insertion-ordered
  dictionaries keyed by session id. `register` and `unregister` change them. `broadcast`
  sends one message to every other agent and skips sockets that raise. `send_direct`
  injects a framed report into the first agent whose `index` matches.
- The browser-side controller of one terminal (`AgentTerminal` in the page script). It
  covers:
  - connecting;
  - the rolling 2000/1000-character output buffer;
  - the "already in use" detector, applied to raw and ANSI-stripped text, which switches
    to a fresh session id;
  - auto-reconnect, limited to three attempts;
  - the 5-second stability reset, the conflict timer, the restart button and `dispose`.
- The page's workspace bookkeeping:
  - `isValidUUID` / `migrateSessionId`;
  - the recent and favourite project lists;
  - `getProjectName`;
  - `autoUpdateLayout`;
  - the terminal limits of `addAgent` / `removeAgent`.

**One agent process per websocket (`src/terminal.py`).**
- `TerminalSession`:
  - the command line `start` assembles, with the UUID check and the filter on
    persona-prompt characters;
  - the read loop, which forwards output and then sends the close notice and hints;
  - `write` and `resize`, which only act on a live process, and `resize` clamps the size;
  - `send_image`, with its checks in order and its temporary files;
  - `stop`, which is idempotent.
- The module table `terminal_sessions`:
  - `handle_terminal_websocket` falls back to default values, replaces a prior session,
    dispatches messages by type and removes the id on exit;
  - `cleanup_all_sessions`.
- `get_available_agents`.

**How the model is built.**
- Modules follow the source:
  - `Common`: sequence and string helpers.
  - `OrderedDict`: Python dictionaries with insertion order.
  - `Registry`: `SessionManager`.
  - `Uuid`.
  - `ConflictDetector`.
  - `ClientTerminal`.
  - `Workspace`.
  - `Protocol`: the JSON envelopes.
  - `Agents`: `AGENT_CONFIGS` and `ROLE_PROMPTS`.
  - `Command`: command assembly.
  - `PtySession`: `TerminalSession`.
  - `Sessions`: the session table.
- State the source updates in place is a class:
  - `SessionManager`;
  - `AgentTerminal`;
  - `ProjectLists`;
  - `Project`;
  - `TerminalSession`;
  - `SessionTable`;
  - `Disk`, the set of paths that exist.

  Each method states its whole new state: against a specification function where there
  is one (`Step`, `Recent`, `Toggled`, `LayoutFor`, `Fanout`, `Closing`), otherwise in
  terms of the old state. The receive loop `Sessions.Serve` is stated against `Replies`
  and `Inputs`, functions of the messages.
- Pure helpers are functions, with lemmas about them.
- The browser controller is specified by `ClientTerminal.Step(state, event)`. Each
  `AgentTerminal` handler ensures `State() == Step(old(State()), event)`. Properties over
  whole event traces are proved about `Run`.
- Each timer becomes an event whose firing the caller chooses.
- The pseudo-terminal becomes a value: alive or not, the texts written to it, and its size.
- The base64 decoder, spawn failures, fresh UUIDs and the messages a browser sends are
  parameters.

## Model

| member | source | states |
|---|---|---|
| OrderedDict.Lookup | server.py:67 | `dict.get` finds nothing exactly when the key is not among the keys |
| OrderedDict.LookupFirst | server.py:82-83 | a found value is the value of the first entry under the key |
| OrderedDict.AssignKeys | server.py:51-52 | assigning an existing key keeps the key order; a new key goes last |
| OrderedDict.AssignLookup | server.py:51-52 | after `d[k] = v`, `k` reads `v` and every other key reads as before |
| OrderedDict.RemoveKeys | server.py:55-58 | after `del d[k]` the keys are the old keys without `k`, in the same order |
| OrderedDict.RemoveLookup | server.py:55-58 | after `del d[k]`, `k` is absent and every other key reads as before |
| OrderedDict.SetThenGet | server.py:50-52 | on a dictionary with distinct keys, assignment keeps the keys distinct, reads back the new value, leaves other keys alone and keeps or extends the order |
| OrderedDict.DeleteThenGet | server.py:54-58 | deletion keeps the keys distinct, removes the key, leaves other keys alone, and deleting an absent key changes nothing |
| OrderedDict.AbsentRemove | server.py:55-58 | removing a key that is not present gives back the same entries |
| Registry.SessionManager.constructor | server.py:46-48 | both dictionaries start empty and nothing has been sent |
| Registry.SessionManager.Register | server.py:50-52 | both dictionaries hold the new socket and info under the id; other ids are unchanged; nothing is sent; the old socket is not closed |
| Registry.SessionManager.Unregister | server.py:54-58 | the id leaves both dictionaries, other ids are unchanged, an absent id changes nothing, nothing is sent |
| Registry.SessionManager.Broadcast | server.py:60-71 | the deliveries are exactly the `Fanout` of the sessions in iteration order, with the sender named by its info or "Unknown"; the registry is unchanged (dead sockets stay registered) |
| Registry.FanoutReachesOthers | server.py:62-71 | every registered id other than the sender whose socket does not raise receives the envelope |
| Registry.FanoutOnlyOthers | server.py:62-69 | every delivery is the envelope, sent to the socket of some id other than the sender |
| Registry.FanoutCount | server.py:62-69 | with no failing socket, one delivery per registered id other than the sender |
| Registry.FirstWithIndex | server.py:75-79 | the first id in insertion order whose info has the index; None exactly when no info has it |
| Registry.ReportKeepsContextPrefix | server.py:86-94 | the report depends only on the first 500 characters of the context; its length is the fixed frame plus name, role, message and at most 500 context characters |
| Registry.SessionManager.SendDirect | server.py:73-101 | with a non-empty first matching id that has a socket: one `inject_input` with the report, and True (a failure if that send raises); otherwise False and nothing sent; the registry is unchanged |
| Uuid.MigrateSessionId | server.py:969-978 | keeps the old id exactly when it passes `isValidUUID`; the result always passes it |
| Uuid.JsIsValidUuid | server.py:961-965 | an id that passes is, up to case, the rendering of a version-4 UUID |
| Uuid.PyAcceptsJsWithNewline | src/terminal.py:154-159 | `_is_valid_uuid` accepts exactly the ids `isValidUUID` accepts, with or without one final newline |
| Uuid.FormatIsValid | server.py:955-965 | every rendered version-4 UUID (what `crypto.randomUUID` yields) passes both the JavaScript and the Python check |
| Uuid.ParseFormat | server.py:963 | parsing a rendered version-4 UUID gives back its digits |
| Uuid.FormatParse | src/terminal.py:154-159 | every id matching the pattern is, up to case, the rendering of a version-4 UUID |
| Uuid.PyAcceptedCharacters | src/terminal.py:154-159 | an id accepted by `_is_valid_uuid` holds only hexadecimal digits and dashes, plus possibly one final newline |
| Uuid.TrailingNewlineAcceptedOnlyByPython | src/terminal.py:158-159 | a valid id with "\n" appended passes the Python check (`$` before a final newline) and fails the JavaScript one |
| Agents.KindOf | src/terminal.py:59-127 | finds a configuration exactly for the six keys of `AGENT_CONFIGS`, and that one |
| Agents.KindOrDefault | src/terminal.py:152 | a known agent type selects its own configuration; an unknown one selects Claude's |
| Agents.RoleOrDefault | src/terminal.py:487-489 | a known role is kept; any other becomes `General`, which has no prompt |
| Agents.AvailableAgents | src/terminal.py:536-548 | one summary per configured agent, in table order, carrying its configuration's name, icon, colour and description; each listed id looks up to the agent it describes, the ids are distinct, and `supports_image` holds exactly for agents with an image command |
| Command.SessionArgument | src/terminal.py:174-183 | `--session-id <id>` is added exactly when the agent has a session template and the id passes `_is_valid_uuid` |
| Command.PersonaArgument | src/terminal.py:186-196 | the persona flag is added exactly when the agent has one, the role has a prompt and the prompt has no dangerous character; it is then the flag and a quoted text, and it is safe when the flag is |
| Command.BaseCommandFirst | src/terminal.py:174-196 | the command line starts with the agent's base command, and is only that when the agent has neither a session template nor a persona flag |
| Command.UnescapeEscape | src/terminal.py:195 | reading the escaped prompt back (`\"` as `"`) gives the prompt with newlines as spaces and carriage returns dropped |
| Command.EscapeCharacters | src/terminal.py:195 | the escaped prompt holds no line break, and every quote in it is preceded by a backslash |
| Command.EscapeKeepsSafe | src/terminal.py:189-196 | a prompt without dangerous characters escapes to safe text |
| Command.ConfigTextIsSafe | src/terminal.py:59-71 | every configured session template and persona flag is safe text |
| Command.InvalidIdNotSpliced | src/terminal.py:177-183 | an id failing the check leaves only the base command and the persona argument |
| Command.OnlyClaudeExtendsCommand | src/terminal.py:174-196 | every agent other than Claude runs its base command unchanged |
| Command.NoPromptNoPersona | src/terminal.py:53 | `General` or an unknown role adds no persona flag |
| Command.DangerousPromptDropped | src/terminal.py:190-192 | a prompt with a dangerous character is dropped, and the rest of the command is built as usual |
| Command.ArgumentsAreSafe | src/terminal.py:174-196 | nothing appended to the base command of a configured agent holds a dangerous character |
| ConflictDetector.Roll | server.py:1527-1533 | the buffer is a suffix of old buffer + data; it is all of it up to 2000 characters, and the last 1000 above that |
| ConflictDetector.RollBounded | server.py:1527-1533 | the buffer never exceeds 2000 characters and always ends with a chunk of at most 1000 |
| ConflictDetector.StripAnsi | server.py:1539-1541 | stripping leaves no control character (ESC included), never lengthens, and leaves text without control characters alone |
| ConflictDetector.CsiInsidePlainTextStripped | server.py:1539-1541 | a colour sequence between plain texts is removed entirely |
| ConflictDetector.OscInsidePlainTextStripped | server.py:1539-1541 | a title sequence (ESC `]` up to BEL) between plain texts is removed entirely, not blanked |
| ConflictDetector.TitledPhraseFoundWhenStripped | server.py:1538-1554 | a title sequence inside the phrase is removed, so the stripped text holds the phrase |
| ConflictDetector.FindPhraseLeftmost | server.py:1552-1554 | the scan finds a match when there is one, and no match lies before it |
| ConflictDetector.HasConflictPhraseIff | server.py:1552 | the matcher finds `already\s+in\s+use` (any ASCII case) exactly when the reference reading of the pattern holds |
| ConflictDetector.ConflictDetectedMeaning | server.py:1536-1554 | the check runs only on chunks under 4096 characters and fires exactly when the reference reading of `already\s+in\s+use` holds in the stripped chunk, the stripped buffer, the raw chunk or the raw buffer |
| ConflictDetector.PhraseInContext | server.py:1552 | a match is still found with any text before and after it |
| ConflictDetector.NoPhraseWithoutAnyA | server.py:1552 | a text with no `a` in either case holds no match |
| ConflictDetector.PlainPhraseFound | server.py:1552 | "already in use" matches |
| ConflictDetector.ColouredPhraseDetected | server.py:1538-1554 | a colour code inside the phrase hides it from the raw text but the stripped text catches it, so the conflict is detected |
| ClientTerminal.CloseSocket | server.py:1490 | `ws.close()` keeps the socket and its handler and moves it out of connecting or open |
| ClientTerminal.Initial | server.py:1317-1330 | a new terminal is valid, has no socket, zero attempts and has opened nothing |
| ClientTerminal.ConnectStep | server.py:1484-1504 | `connect()` keeps every bound of a valid terminal |
| ClientTerminal.OnClose | server.py:1630-1671 | `onclose` keeps every bound of a valid terminal |
| ClientTerminal.OnChunk | server.py:1521-1602 | a `terminal_output` message keeps every bound of a valid terminal |
| ClientTerminal.OnConflictTimer | server.py:1575-1579 | the conflict timer, with the disposal check added, keeps every bound |
| ClientTerminal.OnConflictTimerAsWritten | server.py:1575-1579 | the conflict timer as written keeps every bound |
| ClientTerminal.Step | server.py:1484-1723 | every event keeps every bound of a valid terminal |
| ClientTerminal.StepAsWritten | server.py:1575-1579 | with the conflict timer as written, every event keeps every bound |
| ClientTerminal.ConnectStepGuard | server.py:1484-1504 | ignored while the socket is connecting or open, and when no folder is known; otherwise a new connecting socket with its close handler is opened under the current session id, and nothing else changes |
| ClientTerminal.OnCloseCounts | server.py:1630-1671 | the socket is closed, the queue dropped and the stability timer cleared; outside a conflict and before disposal the counter goes up by one and a retry is set exactly when the new count is at most 3; during a conflict or after disposal neither counter nor retry changes |
| ClientTerminal.StepOnlyAddsDials | server.py:1484-1723 | no event removes a socket from the record of opened sockets |
| ClientTerminal.Run | server.py:1484-1723 | along any sequence of events the record of opened sockets only grows |
| ClientTerminal.RunKeepsValid | server.py:1527-1533 | along any event sequence the terminal stays valid and the output buffer stays within 2000 characters |
| ClientTerminal.AttemptsResetOnlyBy | server.py:1511-1516 | the attempt counter only drops, to 0, through the stability timer, the conflict timer or the restart button; the last two always zero it |
| ClientTerminal.StepWithoutReset | server.py:1652-1670 | without a reset the counter never drops, and a retry is scheduled only when the counter moves up to a value of at most 3 |
| ClientTerminal.RetriesBounded | server.py:1652-1670 | between two resets at most three retries are scheduled, fewer when attempts are already counted |
| ClientTerminal.LargeChunkQueued | server.py:1536-1586 | a chunk of 4096 characters or more is buffered and queued, whatever it says |
| ClientTerminal.ConflictPath | server.py:1553-1580 | on a detected conflict: the flag is set, the socket is closed with its handler detached, the fresh id is taken, the buffer is emptied, the chunk is not queued, and a conflict timer is pending |
| ClientTerminal.QuietChunkQueued | server.py:1583-1586 | a chunk that triggers nothing is appended to the buffer and queued |
| ClientTerminal.CloseDuringConflictIgnored | server.py:1646-1650 | while a conflict is handled, a close counts no attempt and sets no retry |
| ClientTerminal.ConnectIgnoredWhileLive | server.py:1486-1489 | while the socket is connecting or open, `connect()` changes nothing, whether the page, the restart button or the retry timer calls it |
| ClientTerminal.StableTimerZeroes | server.py:1511-1516 | the stability timer zeroes the counter when it finds the socket open and leaves it alone otherwise |
| ClientTerminal.CloseCountsAttempt | server.py:1652-1670 | a close of a live terminal outside a conflict counts one attempt and sets a retry exactly while the counter was below 3 |
| ClientTerminal.RetryReconnects | server.py:1661-1665 | the held retry, firing on a live terminal with a folder and no live socket, opens a socket with the current session id |
| ClientTerminal.DroppedSocketRedialed | server.py:1652-1665 | an open socket that drops with fewer than 3 attempts counted is dialed again with the same session id once the retry fires, with one more attempt counted |
| ClientTerminal.ConflictReconnectsWithFreshId | server.py:1568-1579 | after a conflict the conflict timer opens a socket under the fresh id with the counter at 0 |
| ClientTerminal.ManualRestartReconnects | server.py:1833-1841 | the restart button zeroes the counter and opens a socket when none is connecting or open |
| ClientTerminal.SplitPhraseDetected | server.py:1527-1554 | for any two chunks that hold the phrase only together, the first quiet on its own, and a buffer not cut in between: the first is queued and the second takes the conflict path with the fresh id |
| ClientTerminal.CutDropsSplitPhrase | server.py:1530-1533 | the cut to the last 1000 characters can lose a split phrase: "already " then "in use" followed by 1994 more characters hold the phrase together, yet both chunks are queued and the session id is kept |
| ClientTerminal.DisposedStaysQuiet | server.py:1714-1723 | once disposed, with the disposal check on the conflict timer, no event opens another socket |
| ClientTerminal.DisposedTerminalRedialsAsWritten | server.py:1575-1579 | as written, a conflict timer that fires after `dispose()` opens a new socket |
| ClientTerminal.AgentTerminal.constructor | server.py:1317-1330 | the fields hold `Initial(workDir, sessionId)` |
| ClientTerminal.AgentTerminal.DoConnect | server.py:1484-1504 | the fields move as `ConnectStep` says |
| ClientTerminal.AgentTerminal.Connect | server.py:1484-1504 | the fields move as `Step` says for `Connect` |
| ClientTerminal.AgentTerminal.OnOpen | server.py:1506-1519 | the fields move as `Step` says for an opened socket |
| ClientTerminal.AgentTerminal.OnMessage | server.py:1521-1602 | the fields move as `Step` says for a chunk |
| ClientTerminal.AgentTerminal.OnSocketClosed | server.py:1630-1671 | the fields move as `Step` says for a close |
| ClientTerminal.AgentTerminal.OnStableTimer | server.py:1511-1516 | the fields move as `Step` says for the stability timer |
| ClientTerminal.AgentTerminal.OnRetryTimer | server.py:1661-1665 | the fields move as `Step` says for the retry timer |
| ClientTerminal.AgentTerminal.OnConflictTimer | server.py:1575-1579 | the fields move as `Step` says for the conflict timer |
| ClientTerminal.AgentTerminal.Restart | server.py:1833-1841 | the fields move as `Step` says for the restart button |
| ClientTerminal.AgentTerminal.OnFrame | server.py:1587-1602 | the fields move as `Step` says for an animation frame |
| ClientTerminal.AgentTerminal.Dispose | server.py:1714-1723 | the fields move as `Step` says for `dispose()` |
| Workspace.Recent | server.py:701-710 | the path comes first and appears only once; the list has 1 to 10 entries |
| Workspace.RecentKeepsOrder | server.py:704-707 | the other entries are the old list in its relative order |
| Workspace.RecentKeepsOthers | server.py:704-707 | no other entry is lost unless the cut at ten pushes it out |
| Workspace.RecentDistinct | server.py:704-705 | a list without duplicates stays without duplicates |
| Workspace.ToggleFlips | server.py:712-723 | on a list without duplicates, the path's membership flips, other entries are unchanged, and the list stays without duplicates |
| Workspace.ToggleTwice | server.py:712-720 | toggling a path that is not a favourite twice gives back the same list |
| Workspace.ProjectLists.AddToRecent | server.py:701-710 | an empty path changes nothing; otherwise the recent list becomes `Recent(old, path)`; favourites are unchanged |
| Workspace.ProjectLists.ToggleFavorite | server.py:712-723 | the favourites become `Toggled(old, path)`; the result says whether the path was added |
| Workspace.ProjectLists.RemoveFromRecent | server.py:725-729 | every occurrence of the path leaves the recent list |
| Workspace.LastSeparator | server.py:737 | finds the last `/` or `\`, or reports that there is none |
| Workspace.TrimEnd | server.py:737 | the path with its trailing separators dropped |
| Workspace.LastPiece | server.py:737 | the last non-empty piece of the split is the last folder of the path, and there is none exactly for a path of separators |
| Workspace.ProjectName | server.py:735-738 | `getProjectName` gives the last folder of the path, and the path itself when the path is all separators |
| Workspace.LayoutFor | server.py:1301-1313 | the layout is one of 1, 2, 4; for 1 to 4 terminals it is the smallest that fits them |
| Workspace.Project.AutoUpdateLayout | server.py:1301-1313 | the layout becomes `LayoutFor` of the terminal count; the terminals are unchanged |
| Workspace.AddingKeepsLimits | server.py:1786-1802 | on a project within the limits, `addAgent` lets a terminal in exactly when the project stays within them (at most four, one Gemini, one Codex) |
| Workspace.FindTile | server.py:1818 | finds the first terminal with the id, or reports that there is none |
| Workspace.RemovingKeepsLimits | server.py:1818-1822 | removing a terminal keeps the limits and the order of the others |
| Workspace.AddAgent | server.py:1780-1807 | no project or folder refuses; otherwise the outcome is `AddDecision`; an added tile goes last and the layout is updated; a refusal changes nothing; validity is kept |
| Workspace.RemoveAgent | server.py:1809-1831 | with more than one terminal and a matching id, the first match is removed and the layout is updated; otherwise nothing changes; at least one terminal always remains; validity is kept |
| PtySession.Clamp | src/terminal.py:320-321 | the result lies in the range, equals a value in range, and is the nearest bound otherwise |
| PtySession.ClampIdempotent | src/terminal.py:320-321 | clamping twice is clamping once |
| PtySession.PayloadOf | src/terminal.py:339-340 | without a comma the text is kept; with one, the text between the first and second comma |
| PtySession.FileName | src/terminal.py:374 | the last path component, holding no separator |
| PtySession.Suffix | src/terminal.py:374 | the text from the last dot when that dot is neither the first nor the last character, else empty |
| PtySession.ImageExtension | src/terminal.py:374-378 | the name's suffix when it is allowed (case-insensitively), else `.png`; the result is always allowed |
| PtySession.ValidateImage | src/terminal.py:328-371 | succeeds exactly when the agent has an image command, the payload is at most 70 MiB, decodes, and decodes to at most 50 MiB; the result is the decoded bytes |
| PtySession.OversizedPayloadNotDecoded | src/terminal.py:342-351 | an oversized payload is refused whatever the decoder would do |
| PtySession.NoImageCommandRefuses | src/terminal.py:328-335 | Codex, OpenCode and the shell refuse every image |
| PtySession.PathJoin | src/terminal.py:381 | the directory, then one separator when it lacks one, then the name |
| PtySession.TempPathInTempDir | src/terminal.py:379-381 | the saved file sits directly in the temporary directory and ends with the chosen extension |
| PtySession.NonEmpty | src/terminal.py:256-264 | the forwarded chunks are never empty and never more than the reads |
| PtySession.NonEmptyIsOrderedFilter | src/terminal.py:244-269 | the forwarded chunks are the non-empty reads in order, and every non-empty read is forwarded |
| PtySession.HintsAsWrittenShowCodes | src/terminal.py:293-305 | as written, each hint starts with a backslash and has no escape character where its colour code belongs |
| PtySession.HintsStartWithEscape | src/terminal.py:293-305 | the intended hints start with CR LF and an escape, then colour each line |
| PtySession.Closing | src/terminal.py:284-305 | the close notice with the count comes first, followed by the three hints, in their intended form with control characters (`Hints`), only when the count is 0 |
| PtySession.TerminalSession.constructor | src/terminal.py:138-152 | the agent falls back to Claude's configuration, the working directory to the current one, and nothing runs |
| PtySession.TerminalSession.Start | src/terminal.py:161-235 | without PTY support: an error and False, nothing attached; on a spawn error: the socket is attached, the error is sent and the result is False; otherwise the command line is spawned at 24×80, `terminal_started` is sent and the result is True |
| PtySession.TerminalSession.ReadLoop | src/terminal.py:237-307 | the output is the non-empty chunks in order, then `Closing` with their count (with the hints in their intended form); the process ends with its exit status |
| PtySession.TerminalSession.Write | src/terminal.py:309-313 | a live process receives the text; otherwise nothing changes |
| PtySession.TerminalSession.Resize | src/terminal.py:315-324 | a live process gets rows clamped to 10..200 and columns to 20..400; otherwise nothing changes |
| PtySession.TerminalSession.SendImage | src/terminal.py:326-409 | a refused image sends its error (when a socket is attached), returns None and changes nothing else; a failed save sends `Failed to add image` and changes nothing else; an accepted one is saved, tracked, and its add command plus one space (no newline) is written to a live process, then `image_added` is sent |
| PtySession.TerminalSession.Stop | src/terminal.py:411-450 | afterwards nothing runs, no process is held, no file is tracked, exactly the previously tracked files are deleted, and a live process is terminated once |
| PtySession.DeleteAll | src/terminal.py:444-450 | exactly the listed paths leave the disk |
| Sessions.AgentTypeOrDefault | src/terminal.py:483-485 | a known agent type is kept; any other becomes `claude` |
| Sessions.Dispatch | src/terminal.py:505-524 | `input` writes the text to a live process, `resize` applies the size (defaults 24×80, clamped) to a live process, `ping` answers `pong`, any other type changes nothing; `image` either sends the validation error, or sends "Failed to add image: …" when the save fails, or saves and tracks the file, writes the add command and a space to a live process and sends `image_added`; a process that is gone or has exited is never touched, and every file added is tracked |
| Sessions.Serve | src/terminal.py:503-524 | without images: one `pong` per ping in order and no other message, files unchanged, and a live process receives exactly the inputs in order; a process that is gone or has exited is never touched; every file the loop adds is tracked and none tracked before is forgotten |
| Sessions.RepliesAndInputsSplit | src/terminal.py:503-524 | the replies and inputs of two batches of messages are those of the first followed by those of the second |
| Sessions.RepliesArePongs | src/terminal.py:522-524 | every reply is a `pong`, and there are no more replies than messages |
| Sessions.Run | src/terminal.py:499-531 | the session starts exactly when PTY support is there and the spawn succeeds; a failed start changes no file; a started session ends stopped with no files tracked, and neither its earlier files nor any image saved while it ran remain (exactly its earlier files are deleted when no image arrives) |
| Sessions.SessionTable.constructor | src/terminal.py:454 | the table starts empty |
| Sessions.SessionTable.Admit | src/terminal.py:483-497 | defaults are applied to agent and role, a prior session under the id is stopped, a fresh session takes the id, and every other session object is unchanged; exactly the prior session's files are deleted, and no file when there is none |
| Sessions.SessionTable.HandleConnection | src/terminal.py:470-533 | after a failed start the new entry stays in the table; otherwise the session ends stopped and the id leaves the table; a prior session is stopped and its files deleted; every other session object is unchanged; after a failed start no other file changes, after a served connection no image saved during it remains, and without images exactly the prior session's files are gone |
| Sessions.SessionTable.CleanupAll | src/terminal.py:457-466 | every session is stopped, exactly the files they tracked are deleted, and the table is emptied |

## Left out

- Networking, websockets and asyncio are left out. The executor, `sleep` pacing and
  cancelling the read task are replaced by given sequences: the chunks a process prints,
  the messages a browser sends, and the events a terminal sees. Exceptions raised by a send
  are a set of failing sockets.
- Spawning and driving the pseudo-terminal (`PtyProcess.spawn`, `read`, `write`,
  `setwinsize`, `terminate`) and the `taskkill` call are left out. The process is a value
  recording whether it is alive, what was written to it and its size.
- The temporary directory, the fresh `uuid4` text and a failed file write are parameters.
  An `os.remove` that fails is not modelled: a tracked file that exists is always deleted.
- Base64 decoding (RFC 4648, section 4) is an abstract parameter that may fail.
- Logging (`print`, `console.log`) is left out.
- The FastAPI routes, the folder and file listings, the restart endpoint and the
  standalone mock server are left out as I/O plumbing.
- The page's DOM, CSS, xterm.js and toasts are left out. `localStorage` persistence
  (`saveProjects` / `loadProjects` / `saveState`) and `hashPath` are left out too. The
  project tabs, `setLayout` rendering and output routing (`sendToTarget`) are also left out.
- The xterm writes of the controller (status lines, the error line) are not modelled. Only
  the state they sit beside is.
- Lengths are counted in Unicode code points rather than JavaScript's UTF-16 units. This
  matters only for the 2000/1000/4096 thresholds on text outside the Basic Multilingual
  Plane.
- Case-insensitive matching and `Lower` fold ASCII letters only. The patterns only involve
  ASCII letters. Outside ASCII, Python's `re.IGNORECASE` can match a few more characters
  (such as the Kelvin sign against `k`), and the model does not.
- `Path(filename).suffix` and `os.path.join` are modelled for plain names, on both
  separator conventions. Drive letters, `.` and `..` components and absolute names in the
  second argument are not.
- Workspace.AddAgent: requires an agent type from the page's `AGENT_CONFIG`, because the
  page selects it from a fixed list and `AGENT_CONFIG[type]` of anything else would throw.
- Workspace.RemoveAgent: the removed terminal's `dispose()` is not linked to a
  `ClientTerminal.AgentTerminal` object. Its effect is modelled separately, by the
  `Dispose` event.
- The project-level registry (`projects`, `activeProjectHash`, `MAX_OPEN_PROJECTS`) is
  left out. `AddAgent` and `RemoveAgent` take the active project (or none) as a parameter.
- The socket that `connect()` replaces still closes later and may run its own `onclose`.
  The controller model treats each close event as belonging to the current socket.
- `send_direct`'s socket failure is returned as a failure result. The exception that
  Python lets escape from the caller is not modelled further.
- `get_max_terminals` returns the constant `MAX_TERMINALS` (4), which the page's limit in
  `addAgent` repeats. It has no member of its own.
- PtySession.Closing: sends the hints in their intended form, with CR LF and escape
  characters (`Hints`), not the backslash text the source sends; that text is
  `HintsAsWritten` (see Findings).
- PtySession.TerminalSession.ReadLoop: uses `Closing`, so its hints are the intended ones
  as well.
- Sessions.Serve: the order of replies and inputs is stated for messages without images.
  With images, each image adds its own writes and messages, which `Dispatch` states one
  message at a time. Nothing in the loop ends the process, so a live process stays alive
  and receives every input. On the server the read loop runs alongside
  (src/terminal.py:237-307), the process can exit between two messages, and later input
  is then dropped (src/terminal.py:310).
- Sessions.SessionTable.HandleConnection: a malformed message is not modelled. The server
  ends the session when a message is not a JSON object or its `data` is not text: the
  exception leaves the receive loop and the `finally` stops the session
  (src/terminal.py:503-533). `ClientMessage` holds only well-typed messages.
- ClientTerminal.Step: the page's `inject_input` case (server.py:1608-1611), which echoes
  the text to xterm and sends it back as an `input` message, is not an event of the
  controller. Its server half is `Registry.SessionManager.SendDirect`.
- Sessions.SessionTable.HandleConnection: connections under one id that overlap in time
  are not modelled. On the server, the first handler to finish deletes the table entry
  under the id (src/terminal.py:532-533) even when a later handler has replaced it.
- Command.UnescapeEscape: the read-back is stated for a reader that takes only `\"` as an
  escape. Backslashes are not escaped, so under shell quoting a prompt with a backslash
  just before a quote would end the argument early.
- ClientTerminal.Step: a `Connect` or `ManualRestart` event on a disposed terminal changes
  nothing. The page can no longer reach those events once the pane is removed.

## Findings

| source | as written | input that shows it | evidently intended | confidence | as-written member | corrected member |
|---|---|---|---|---|---|---|
| server.py:1575-1579 | the 1.5 s conflict timer calls `connect()` without checking `this.disposed` | a `terminal_output` chunk saying "already in use", then `dispose()` (the pane is removed) before the timer fires: the timer opens a new socket for the disposed terminal | no reconnect after `dispose()`, as the retry timer at server.py:1661-1665 checks | not executed | ClientTerminal.DisposedTerminalRedialsAsWritten | ClientTerminal.DisposedStaysQuiet |
| src/terminal.py:293-305 | the zero-read hints are ordinary Python strings containing `\\r\\n\\x1b`, which produce a backslash followed by letters rather than control characters | a process that exits before printing anything: the browser shows `\r\n\x1b[31m[...]` literally | CR LF and ANSI colour codes (`\r\n\x1b[31m`) | not executed | PtySession.HintsAsWrittenShowCodes | PtySession.HintsStartWithEscape |
