/** The session: a connection standing in for the socket, a pure model of one
    command exchange, and the Interface object that performs the handshake and
    issues commands with transaction ids. */
module Session {
  import opened Wire
  import opened CommandLine
  import opened Response
  import opened Handshake

  /** The transport as the session uses it: messages still to be received, in
      arrival order, and the lines sent so far. */
  class Connection {
    var inbox: seq<Document>
    var sent: seq<string>

    constructor (inbox: seq<Document>)
      ensures this.inbox == inbox && sent == []
    {
      this.inbox := inbox;
      sent := [];
    }

    method SendMsg(line: string)
      modifies this
      ensures sent == old(sent) + [line] && inbox == old(inbox)
    {
      sent := sent + [line];
    }

    method RecvMsg() returns (r: Result<Document>)
      modifies this
      ensures sent == old(sent)
      ensures old(inbox) == [] ==> r == Err(Disconnected) && inbox == []
      ensures old(inbox) != [] ==> r == Ok(old(inbox)[0]) && inbox == old(inbox)[1..]
    {
      if inbox == [] {
        r := Err(Disconnected);
      } else {
        r := Ok(inbox[0]);
        inbox := inbox[1..];
      }
    }
  }

  /** What a session is at any moment: the last transaction id used, the lines
      sent and the messages not yet received. */
  datatype SessionState = SessionState(transId: nat, sent: seq<string>, inbox: seq<Document>)

  /** A command together with the reply class it expects. */
  datatype Request = Request(cmd: Command, kind: ReplyKind)

  /** One command exchange: take the next id, send the tagged line, receive and
      interpret one reply. */
  function Dispatch(s: SessionState, req: Request): (p: (SessionState, Result<Reply>))
    ensures p.0.transId == s.transId + 1
    ensures p.0.sent == s.sent + [Format(req.cmd, p.0.transId)]
    ensures s.inbox != [] ==> p.0.inbox == s.inbox[1..] && p.1 == ParseReply(req.kind, s.inbox[0])
    ensures s.inbox == [] ==> p.0.inbox == []
    ensures p.1 == Err(Disconnected) <==> s.inbox == []
  {
    var id := s.transId + 1;
    var sent := s.sent + [Format(req.cmd, id)];
    if s.inbox == [] then (SessionState(id, sent, []), Err(Disconnected))
    else (SessionState(id, sent, s.inbox[1..]), ParseReply(req.kind, s.inbox[0]))
  }

  /** A run of commands, one after another, with the replies they return. */
  function Trace(s: SessionState, reqs: seq<Request>): (SessionState, seq<Result<Reply>>)
    decreases |reqs|
  {
    if reqs == [] then (s, [])
    else
      var (s1, r) := Dispatch(s, reqs[0]);
      var (s2, rs) := Trace(s1, reqs[1..]);
      (s2, [r] + rs)
  }

  /** Each command uses the next id and appends exactly its own line: the k-th
      command of a run is sent tagged with the id after the start id plus k. */
  lemma {:induction false} TraceSends(s: SessionState, reqs: seq<Request>)
    ensures Trace(s, reqs).0.transId == s.transId + |reqs|
    ensures |Trace(s, reqs).0.sent| == |s.sent| + |reqs|
    ensures Trace(s, reqs).0.sent[..|s.sent|] == s.sent
    ensures forall k :: 0 <= k < |reqs| ==>
              Trace(s, reqs).0.sent[|s.sent| + k] == Format(reqs[k].cmd, s.transId + 1 + k)
    decreases |reqs|
  {
    if reqs != [] {
      var s1 := Dispatch(s, reqs[0]).0;
      var line := Format(reqs[0].cmd, s.transId + 1);
      assert s1.transId == s.transId + 1 && s1.sent == s.sent + [line];
      TraceSends(s1, reqs[1..]);
      var t := Trace(s, reqs).0;
      assert t == Trace(s1, reqs[1..]).0;
      assert t.sent[..|s1.sent|] == s1.sent;
      assert t.sent[..|s.sent|] == s1.sent[..|s.sent|];
      assert t.sent[|s.sent|] == s1.sent[|s.sent|] == line;
      forall k | 0 < k < |reqs|
        ensures t.sent[|s.sent| + k] == Format(reqs[k].cmd, s.transId + 1 + k)
      {
        assert reqs[k] == reqs[1..][k - 1];
        assert t.sent[|s1.sent| + (k - 1)] == Format(reqs[1..][k - 1].cmd, s1.transId + 1 + (k - 1));
      }
    }
  }

  /** Replies are consumed in order, one per command; once the stream is exhausted
      every further command reports the disconnection. */
  lemma {:induction false} TraceReplies(s: SessionState, reqs: seq<Request>)
    ensures |Trace(s, reqs).1| == |reqs|
    ensures forall k :: 0 <= k < |reqs| ==>
              Trace(s, reqs).1[k] == if k < |s.inbox| then ParseReply(reqs[k].kind, s.inbox[k])
                                     else Err(Disconnected)
    ensures Trace(s, reqs).0.inbox == if |reqs| <= |s.inbox| then s.inbox[|reqs|..] else []
    decreases |reqs|
  {
    if reqs != [] {
      var s1 := Dispatch(s, reqs[0]).0;
      TraceReplies(s1, reqs[1..]);
      var rs := Trace(s, reqs).1;
      assert rs == [Dispatch(s, reqs[0]).1] + Trace(s1, reqs[1..]).1;
      forall k | 0 <= k < |reqs|
        ensures rs[k] == if k < |s.inbox| then ParseReply(reqs[k].kind, s.inbox[k])
                         else Err(Disconnected)
      {
        if k > 0 {
          assert reqs[k] == reqs[1..][k - 1];
          if k < |s.inbox| { assert s1.inbox[k - 1] == s.inbox[k]; }
        }
      }
      if |reqs| <= |s.inbox| {
        assert s1.inbox[|reqs| - 1..] == s.inbox[|reqs|..];
      }
    }
  }

  /** The session right after the handshake: no id used and nothing sent. */
  predicate Fresh(s: SessionState) { s.transId == 0 && s.sent == [] }

  /** Over a whole session, the k-th line sent (counting from 0) reads back as the
      k-th command with transaction id k + 1: ids start at 1, rise by exactly one
      per command whatever its kind or outcome, and never repeat. */
  lemma SessionIds(s: SessionState, reqs: seq<Request>)
    requires Fresh(s)
    requires forall k :: 0 <= k < |reqs| ==> WellFormed(reqs[k].cmd)
    ensures |Trace(s, reqs).0.sent| == |reqs|
    ensures forall k :: 0 <= k < |reqs| ==>
              ParseLine(Trace(s, reqs).0.sent[k]) == Some((reqs[k].cmd, k + 1))
  {
    TraceSends(s, reqs);
    forall k | 0 <= k < |reqs|
      ensures ParseLine(Trace(s, reqs).0.sent[k]) == Some((reqs[k].cmd, k + 1))
    {
      FormatRoundTrip(reqs[k].cmd, k + 1);
    }
  }

  /** No two lines of a session are alike, even when the same command is repeated. */
  lemma SessionLinesDistinct(s: SessionState, reqs: seq<Request>, i: nat, j: nat)
    requires Fresh(s)
    requires forall k :: 0 <= k < |reqs| ==> WellFormed(reqs[k].cmd)
    requires i < j < |reqs|
    ensures |Trace(s, reqs).0.sent| == |reqs|
    ensures Trace(s, reqs).0.sent[i] != Trace(s, reqs).0.sent[j]
  {
    SessionIds(s, reqs);
  }

  const StatusCmd: Command := Command("status", [])
  const RunCmd: Command := Command("run", [])
  const StepIntoCmd: Command := Command("step_into", [])
  const StepOverCmd: Command := Command("step_over", [])
  const StepOutCmd: Command := Command("step_out", [])
  const StopCmd: Command := Command("stop", [])
  const DetachCmd: Command := Command("detach", [])

  function FeatureGetCmd(name: string): Command
  {
    Command("feature_get", [Arg('n', name)])
  }

  /** A DBGP session over a connection, opened by the engine's handshake. */
  class Interface {
    const conn: Connection
    const language: string
    const version: string
    const idekey: string
    var transId: nat

    ghost function Model(): SessionState
      reads this, conn
    {
      SessionState(transId, conn.sent, conn.inbox)
    }

    constructor FromIdentity(conn: Connection, id: Identity)
      ensures this.conn == conn
      ensures language == id.language && version == id.version && idekey == id.ideKey
      ensures transId == 0
    {
      this.conn := conn;
      language := id.language;
      version := id.version;
      idekey := id.ideKey;
      transId := 0;
    }

    /** Opening a session receives exactly one message, the handshake, and sends
        nothing; the session exists only if the handshake is accepted, and then
        its identity is the handshake's and no transaction id is used yet. */
    static method Open(conn: Connection, expected: Option<string>) returns (r: Result<Interface>)
      modifies conn
      ensures conn.sent == old(conn.sent)
      ensures conn.inbox == if old(conn.inbox) == [] then [] else old(conn.inbox)[1..]
      ensures r.Ok? <==> ReceiveHandshake(old(conn.inbox), expected).Ok?
      ensures r.Err? ==> r.error == ReceiveHandshake(old(conn.inbox), expected).error
      ensures r.Ok? ==> fresh(r.value) && r.value.conn == conn && r.value.transId == 0
                        && Identity(r.value.language, r.value.version, r.value.idekey)
                           == ReceiveHandshake(old(conn.inbox), expected).value
    {
      var msg := conn.RecvMsg();
      if msg.Err? {
        return Err(msg.error);
      }
      var id := ParseInit(msg.value, expected);
      if id.Err? {
        return Err(id.error);
      }
      var iface := new Interface.FromIdentity(conn, id.value);
      return Ok(iface);
    }

    /** The uniform command path: next id, one line out, one reply in. */
    method SendCmd(cmd: Command, kind: ReplyKind) returns (r: Result<Reply>)
      modifies this, conn
      ensures (Model(), r) == Dispatch(old(Model()), Request(cmd, kind))
    {
      transId := transId + 1;
      conn.SendMsg(Format(cmd, transId));
      var msg := conn.RecvMsg();
      if msg.Err? {
        r := Err(msg.error);
      } else {
        r := ParseReply(kind, msg.value);
      }
    }

    method Status() returns (r: Result<Reply>)
      modifies this, conn
      ensures (Model(), r) == Dispatch(old(Model()), Request(StatusCmd, StandardReply))
    {
      r := SendCmd(StatusCmd, StandardReply);
    }

    method Run() returns (r: Result<Reply>)
      modifies this, conn
      ensures (Model(), r) == Dispatch(old(Model()), Request(RunCmd, StandardReply))
    {
      r := SendCmd(RunCmd, StandardReply);
    }

    method StepInto() returns (r: Result<Reply>)
      modifies this, conn
      ensures (Model(), r) == Dispatch(old(Model()), Request(StepIntoCmd, StandardReply))
    {
      r := SendCmd(StepIntoCmd, StandardReply);
    }

    method StepOver() returns (r: Result<Reply>)
      modifies this, conn
      ensures (Model(), r) == Dispatch(old(Model()), Request(StepOverCmd, StandardReply))
    {
      r := SendCmd(StepOverCmd, StandardReply);
    }

    method StepOut() returns (r: Result<Reply>)
      modifies this, conn
      ensures (Model(), r) == Dispatch(old(Model()), Request(StepOutCmd, StandardReply))
    {
      r := SendCmd(StepOutCmd, StandardReply);
    }

    method Stop() returns (r: Result<Reply>)
      modifies this, conn
      ensures (Model(), r) == Dispatch(old(Model()), Request(StopCmd, StandardReply))
    {
      r := SendCmd(StopCmd, StandardReply);
    }

    method Detach() returns (r: Result<Reply>)
      modifies this, conn
      ensures (Model(), r) == Dispatch(old(Model()), Request(DetachCmd, StandardReply))
    {
      r := SendCmd(DetachCmd, StandardReply);
    }

    method FeatureGet(name: string) returns (r: Result<Reply>)
      modifies this, conn
      ensures (Model(), r) == Dispatch(old(Model()), Request(FeatureGetCmd(name), FeatureReply))
    {
      r := SendCmd(FeatureGetCmd(name), FeatureReply);
    }
  }
}
