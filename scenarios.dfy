/** The behaviour the session's test suite asserts, replayed against the model:
    each member builds a connection holding the engine's messages, opens an
    Interface over it and states what the suite checks. */
module Scenarios {
  import opened Wire
  import opened Decimal
  import opened CommandLine
  import opened Response
  import opened Session

  /** The xdebug handshake of the suite, as parsed (nested engine/author/url/copyright
      elements are not part of the record). */
  const InitDoc: Document := Document("init",
    map["fileuri" := "file:///usr/local/bin/cake", "language" := "PHP",
        "interface_version" := "1.0", "appid" := "30130", "idekey" := "netbeans-xdebug"],
    "")

  const InvalidInitDoc: Document := Document("invalid", map[], "")

  function StatusReplyDoc(command: string, status: string): Document
  {
    Document("response",
      map["command" := command, "status" := status, "reason" := "ok",
          "transaction_id" := "transaction_id"],
      "message data")
  }

  const FeatureReplyDoc: Document := Document("response",
    map["command" := "feature_get", "transaction_id" := "2",
        "feature_name" := "encoding", "supported" := "1"],
    "iso-8859-1")

  /** The handshake fills in language, version and IDE key. */
  method InitMsgParsed() returns (language: string, version: string, idekey: string)
    ensures language == "PHP" && version == "1.0" && idekey == "netbeans-xdebug"
  {
    var conn := new Connection([InitDoc]);
    var r := Interface.Open(conn, None);
    assert r.Ok?;
    language, version, idekey := r.value.language, r.value.version, r.value.idekey;
  }

  /** The first command after the handshake is the only line sent, with id 1.
      The connection hands back the init packet again as the reply, as the
      suite's mock does; status() still returns a reply. */
  method StatusSendsTransId() returns (sent: seq<string>, returned: bool)
    ensures sent == ["status -i 1"] && returned
  {
    var conn := new Connection([InitDoc, InitDoc]);
    var r := Interface.Open(conn, None);
    assert r.Ok?;
    var p := r.value;
    var res := p.Status();
    assert conn.sent == [Format(StatusCmd, 1)];
    PlainCommandLine("status", 1);
    assert NatToDecimal(1) == "1";
    assert "status" + " -i " + "1" == "status -i 1";
    sent, returned := conn.sent, res.Ok?;
  }

  /** status() returns the reply whose string form is its status. */
  method StatusRetval() returns (shown: Result<string>)
    ensures shown == Ok("starting")
  {
    var conn := new Connection([InitDoc, StatusReplyDoc("status", "starting")]);
    var r := Interface.Open(conn, None);
    assert r.Ok?;
    var res := r.value.Status();
    assert res.Ok?;
    shown := Display(res.value);
  }

  /** run() passes the reply's status through, whatever it is: "running", and
      the "break", "stopping" and "stopped" the stepping tests feed it. */
  method RunRetval(command: string, status: string) returns (shown: Result<string>)
    ensures shown == Ok(status)
  {
    var conn := new Connection([InitDoc, StatusReplyDoc(command, status)]);
    var r := Interface.Open(conn, None);
    assert r.Ok?;
    var res := r.value.Run();
    assert res.Ok?;
    shown := Display(res.value);
  }

  /** feature_get shows the feature's value, not a status, and reports support. */
  method FeatureGetRetval() returns (shown: Result<string>, supported: nat)
    ensures shown == Ok("iso-8859-1") && supported == 1
  {
    var conn := new Connection([InitDoc, FeatureReplyDoc]);
    var r := Interface.Open(conn, None);
    assert r.Ok?;
    var res := r.value.FeatureGet("encoding");
    assert res.Ok? && res.value.Feature?;
    shown := Display(res.value);
    supported := IsSupported(res.value);
  }

  /** A handshake whose root element is not init is refused as invalid XML. */
  method InvalidResponseRaisesError() returns (e: Error)
    ensures e == ResponseError(InvalidXml, InvalidInitDoc)
  {
    var conn := new Connection([InvalidInitDoc]);
    var r := Interface.Open(conn, None);
    assert r.Err?;
    e := r.error;
  }

  /** A caller that insists on another IDE key is refused. */
  method WrongIdekeyRaisesException() returns (e: Error)
    ensures e == WrongIdeKey("other-ide-key", "netbeans-xdebug")
  {
    var conn := new Connection([InitDoc]);
    var r := Interface.Open(conn, Some("other-ide-key"));
    assert r.Err?;
    e := r.error;
  }
}
