/** The server's message bus (`SessionManager` in server.py): two insertion-ordered
    dictionaries keyed by session id, one holding each terminal's websocket and one its
    description (name, type, role, index), with a broadcast to every other terminal and a
    direct message to the terminal at a given index.

    A websocket is known here by its identity; what the bus sends is recorded, in order,
    in `sent`. Whether a send raises is given by the set `failing` of sockets whose sends
    raise. */
module Registry {
  import opened Common
  import opened OrderedDict
  import opened Protocol

  type Socket = nat

  /** The `info` dictionary registered with a session; each key may be missing. */
  datatype AgentInfo = AgentInfo(
    name: Option<string>, agentType: Option<string>, role: Option<string>, index: Option<int>)

  /** One envelope handed to one socket. */
  datatype Delivery = Delivery(socket: Socket, envelope: Envelope)

  /** `agent_info.get(id, {}).get("name", default)`. */
  function NameOf(info: Dict<string, AgentInfo>, id: string, default: string): string {
    match info.Get(id)
    case Some(a) => a.name.GetOr(default)
    case None => default
  }

  /** `agent_info.get(id, {}).get("role", default)`. */
  function RoleOf(info: Dict<string, AgentInfo>, id: string, default: string): string {
    match info.Get(id)
    case Some(a) => a.role.GetOr(default)
    case None => default
  }

  // ---------------------------------------------------------------------------
  // Broadcast

  /** What one broadcast hands out: in iteration order, for each registered id other than
      the sender, the envelope to its socket, unless the send to that socket raises. */
  function Fanout(e: seq<(string, Socket)>, sender: string, env: Envelope, failing: set<Socket>): seq<Delivery> {
    if e == [] then []
    else Reached(e[0], sender, env, failing) + Fanout(e[1..], sender, env, failing)
  }

  /** The delivery to one entry, if any. */
  function Reached(p: (string, Socket), sender: string, env: Envelope, failing: set<Socket>): seq<Delivery> {
    if p.0 != sender && p.1 !in failing then [Delivery(p.1, env)] else []
  }

  lemma {:induction false} FanoutSnoc(e: seq<(string, Socket)>, x: (string, Socket), sender: string, env: Envelope, failing: set<Socket>)
    ensures Fanout(e + [x], sender, env, failing)
         == Fanout(e, sender, env, failing) + Reached(x, sender, env, failing)
  {
    if e == [] {
      assert [x][1..] == [];
      assert Fanout([x], sender, env, failing) == Reached(x, sender, env, failing) + Fanout([], sender, env, failing);
    } else {
      var head := Reached(e[0], sender, env, failing);
      assert (e + [x])[0] == e[0];
      assert (e + [x])[1..] == e[1..] + [x];
      FanoutSnoc(e[1..], x, sender, env, failing);
      calc {
        Fanout(e + [x], sender, env, failing);
        head + Fanout(e[1..] + [x], sender, env, failing);
        head + (Fanout(e[1..], sender, env, failing) + Reached(x, sender, env, failing));
        (head + Fanout(e[1..], sender, env, failing)) + Reached(x, sender, env, failing);
      }
    }
  }

  /** Every other registered terminal whose socket does not raise receives the envelope,
      whatever happens at the other sockets. */
  lemma {:induction false} FanoutReachesOthers(e: seq<(string, Socket)>, sender: string, env: Envelope, failing: set<Socket>)
    ensures forall i :: 0 <= i < |e| && e[i].0 != sender && e[i].1 !in failing ==>
      Delivery(e[i].1, env) in Fanout(e, sender, env, failing)
  {
    if e != [] {
      FanoutReachesOthers(e[1..], sender, env, failing);
      forall i | 1 <= i < |e| && e[i].0 != sender && e[i].1 !in failing
        ensures Delivery(e[i].1, env) in Fanout(e, sender, env, failing)
      {
        assert e[i] == e[1..][i - 1];
      }
    }
  }

  /** Nothing else is sent: every delivery carries the envelope to the socket of a
      registered id other than the sender, and no raising socket is counted as reached. */
  lemma {:induction false} FanoutOnlyOthers(e: seq<(string, Socket)>, sender: string, env: Envelope, failing: set<Socket>)
    ensures forall d :: d in Fanout(e, sender, env, failing) ==>
      d.envelope == env && d.socket !in failing &&
      exists i :: 0 <= i < |e| && e[i].0 != sender && e[i].1 == d.socket
  {
    if e != [] {
      FanoutOnlyOthers(e[1..], sender, env, failing);
      forall d | d in Fanout(e[1..], sender, env, failing)
        ensures exists i :: 0 <= i < |e| && e[i].0 != sender && e[i].1 == d.socket
      {
        var i :| 0 <= i < |e[1..]| && e[1..][i].0 != sender && e[1..][i].1 == d.socket;
        assert e[i + 1] == e[1..][i];
      }
    }
  }

  /** With no failing socket, one envelope goes out per registered id other than the
      sender. */
  lemma {:induction false} FanoutCount(e: seq<(string, Socket)>, sender: string, env: Envelope)
    ensures |Fanout(e, sender, env, {})| == |Without(KeysOf(e), sender)|
  {
    if e != [] {
      assert KeysOf(e) == [e[0].0] + KeysOf(e[1..]);
      assert KeysOf(e)[1..] == KeysOf(e[1..]);
      FanoutCount(e[1..], sender, env);
    }
  }

  // ---------------------------------------------------------------------------
  // Direct message

  /** The first id, in iteration order, whose description has the given index. */
  function FirstWithIndex(e: seq<(string, AgentInfo)>, index: int): (r: Option<string>)
    ensures r.None? <==> forall i :: 0 <= i < |e| ==> e[i].1.index != Some(index)
    ensures r.Some? ==> exists i :: 0 <= i < |e| && e[i].0 == r.value && e[i].1.index == Some(index)
                                    && forall j :: 0 <= j < i ==> e[j].1.index != Some(index)
  {
    if e == [] then None
    else if e[0].1.index == Some(index) then Some(e[0].0)
    else
      var r := FirstWithIndex(e[1..], index);
      assert forall i :: 1 <= i < |e| ==> e[i] == e[1..][i - 1];
      r
  }

  const Rule: string := "──────────────────────────────────────────────"

  /** The framed report `send_direct` injects: sender, message, and at most the first 500
      characters of the context. */
  function DirectReport(senderName: string, senderRole: string, message: string, context: string): string {
    "\n\U{1b}[38;5;75m╭" + Rule + "╮\n"
    + "│ \U{1f4e8} MESSAGE from @" + senderName + " (" + senderRole + ")          │\n"
    + "├" + Rule + "┤\n"
    + "│ " + message + "\n"
    + "│ \n"
    + "│ \U{1b}[90m[Context/Output Attached]\U{1b}[0m\n"
    + "│ " + Take(context, 500) + "... (truncated)\n"
    + "╰" + Rule + "╯\U{1b}[0m"
  }

  /** Only the first 500 characters of the context reach the report, and each of them
      does: the report's length is a fixed frame plus the sender's name and role, the
      message and the context cut to 500. */
  lemma ReportKeepsContextPrefix(senderName: string, senderRole: string, message: string, context: string)
    ensures DirectReport(senderName, senderRole, message, context)
         == DirectReport(senderName, senderRole, message, Take(context, 500))
    ensures |DirectReport(senderName, senderRole, message, context)|
         == |DirectReport("", "", "", "")| + |senderName| + |senderRole| + |message|
            + (if |context| <= 500 then |context| else 500)
  {
  }

  class SessionManager {
    var sessions: Dict<string, Socket>
    var agentInfo: Dict<string, AgentInfo>
    /** Every envelope the bus has handed to a socket, in order. */
    var sent: seq<Delivery>

    ghost predicate Valid()
      reads this
    {
      sessions.Valid() && agentInfo.Valid()
    }

    constructor()
      ensures Valid() && sessions == Empty() && agentInfo == Empty() && sent == []
    {
      sessions := Empty();
      agentInfo := Empty();
      sent := [];
    }

    /** `register`: both dictionaries take the new values under `id`; any socket registered
        under `id` before is replaced without being closed or told anything. */
    method Register(id: string, ws: Socket, info: AgentInfo)
      requires Valid()
      modifies this
      ensures Valid()
      ensures sessions == old(sessions).Set(id, ws) && agentInfo == old(agentInfo).Set(id, info)
      ensures sessions.Get(id) == Some(ws) && agentInfo.Get(id) == Some(info)
      ensures forall j :: j != id ==> sessions.Get(j) == old(sessions).Get(j) && agentInfo.Get(j) == old(agentInfo).Get(j)
      ensures sent == old(sent)
    {
      SetThenGet(sessions, id, ws);
      SetThenGet(agentInfo, id, info);
      sessions := sessions.Set(id, ws);
      agentInfo := agentInfo.Set(id, info);
    }

    /** `unregister`: `id` leaves both dictionaries; other ids are untouched, and an absent
        id changes nothing. */
    method Unregister(id: string)
      requires Valid()
      modifies this
      ensures Valid()
      ensures sessions == old(sessions).Delete(id) && agentInfo == old(agentInfo).Delete(id)
      ensures !sessions.Contains(id) && !agentInfo.Contains(id)
      ensures forall j :: j != id ==> sessions.Get(j) == old(sessions).Get(j) && agentInfo.Get(j) == old(agentInfo).Get(j)
      ensures !old(sessions).Contains(id) && !old(agentInfo).Contains(id) ==>
        sessions == old(sessions) && agentInfo == old(agentInfo)
      ensures sent == old(sent)
    {
      DeleteThenGet(sessions, id);
      DeleteThenGet(agentInfo, id);
      if sessions.Contains(id) {
        sessions := sessions.Delete(id);
      }
      if agentInfo.Contains(id) {
        agentInfo := agentInfo.Delete(id);
      }
    }

    /** `broadcast`: a `broadcast_message` naming the sender (or "Unknown") to every other
        registered socket in iteration order; a send that raises is skipped and the loop
        goes on. The registry is left as it was, dead sockets included. */
    method Broadcast(senderId: string, message: string, failing: set<Socket>)
      modifies this
      ensures sessions == old(sessions) && agentInfo == old(agentInfo)
      ensures sent == old(sent) + Fanout(sessions.entries, senderId,
        BroadcastMessage(NameOf(agentInfo, senderId, "Unknown"), message), failing)
    {
      var env := BroadcastMessage(NameOf(agentInfo, senderId, "Unknown"), message);
      var e := sessions.entries;
      var i := 0;
      while i < |e|
        invariant 0 <= i <= |e|
        invariant sessions == old(sessions) && agentInfo == old(agentInfo)
        invariant sent == old(sent) + Fanout(e[..i], senderId, env, failing)
      {
        var (sid, ws) := e[i];
        if sid != senderId && ws !in failing {
          sent := sent + [Delivery(ws, env)];
        }
        FanoutSnoc(e[..i], e[i], senderId, env, failing);
        assert e[..i + 1] == e[..i] + [e[i]];
        i := i + 1;
      }
      assert e[..i] == e;
    }

    /** `send_direct`: looks up the first description with index `targetIndex`; when there
        is one, its id is non-empty and it has a socket, sends that socket one
        `inject_input` with the report and returns True (or raises when that send raises);
        otherwise returns False and sends nothing. The sender defaults to "Agent" / "User". */
    method SendDirect(targetIndex: int, senderId: string, message: string, context: string, failing: set<Socket>)
      returns (outcome: Result<bool>)
      modifies this
      ensures sessions == old(sessions) && agentInfo == old(agentInfo)
      ensures var t := FirstWithIndex(agentInfo.entries, targetIndex);
        if t.Some? && t.value != "" && sessions.Contains(t.value) then
          var ws := sessions.Get(t.value).value;
          if ws in failing then outcome.Failure? && sent == old(sent)
          else outcome == Success(true) && sent == old(sent) + [Delivery(ws, InjectInput(DirectReport(
            NameOf(agentInfo, senderId, "Agent"), RoleOf(agentInfo, senderId, "User"), message, context)))]
        else outcome == Success(false) && sent == old(sent)
    {
      var e := agentInfo.entries;
      var target: Option<string> := None;
      var i := 0;
      while i < |e|
        invariant 0 <= i <= |e|
        invariant target.None? ==> forall j :: 0 <= j < i ==> e[j].1.index != Some(targetIndex)
        invariant target.Some? ==> target == FirstWithIndex(e, targetIndex)
      {
        if e[i].1.index == Some(targetIndex) {
          target := Some(e[i].0);
          FirstIsUnique(e, targetIndex, i);
          break;
        }
        i := i + 1;
      }
      if target.Some? && target.value != "" && sessions.Contains(target.value) {
        var ws := sessions.Get(target.value).value;
        if ws in failing {
          return Failure("send to the target socket raised");
        }
        var report := DirectReport(NameOf(agentInfo, senderId, "Agent"), RoleOf(agentInfo, senderId, "User"), message, context);
        sent := sent + [Delivery(ws, InjectInput(report))];
        return Success(true);
      }
      return Success(false);
    }
  }

  /** The entry the loop stops at is the one `FirstWithIndex` names. */
  lemma FirstIsUnique(e: seq<(string, AgentInfo)>, index: int, i: nat)
    requires i < |e| && e[i].1.index == Some(index)
    requires forall j :: 0 <= j < i ==> e[j].1.index != Some(index)
    ensures FirstWithIndex(e, index) == Some(e[i].0)
  {
    var r := FirstWithIndex(e, index);
    var k :| 0 <= k < |e| && e[k].0 == r.value && e[k].1.index == Some(index)
             && forall j :: 0 <= j < k ==> e[j].1.index != Some(index);
    assert k == i;
  }
}
