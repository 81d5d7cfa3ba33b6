/** The unsolicited `<init>` packet the engine sends first (section 5.2 of the
    DBGP protocol) and what the IDE takes from it. */
module Handshake {
  import opened Wire

  const InitTag: string := "init"

  /** Who is on the other end: the debugged language, the protocol version the
      engine speaks and the IDE key of the session. */
  datatype Identity = Identity(language: string, version: string, ideKey: string)

  predicate HasIdentity(doc: Document)
  {
    "language" in doc.attrs && "interface_version" in doc.attrs && "idekey" in doc.attrs
  }

  /** Checks the handshake and extracts the identity. `expected` is the IDE key the
      caller insists on, None when the caller accepts any. */
  function ParseInit(doc: Document, expected: Option<string>): (r: Result<Identity>)
    ensures r.Ok? <==> doc.tag == InitTag && HasIdentity(doc)
                       && (expected.None? || expected.value == doc.attrs["idekey"])
    ensures r.Ok? ==> r.value.language == doc.attrs["language"]
                      && r.value.version == doc.attrs["interface_version"]
                      && r.value.ideKey == doc.attrs["idekey"]
    ensures doc.tag != InitTag || !HasIdentity(doc) ==> r == Err(ResponseError(InvalidXml, doc))
    ensures doc.tag == InitTag && HasIdentity(doc) && expected.Some? && expected.value != doc.attrs["idekey"]
            ==> r == Err(WrongIdeKey(expected.value, doc.attrs["idekey"]))
  {
    if doc.tag != InitTag || !HasIdentity(doc) then
      Err(ResponseError(InvalidXml, doc))
    else
      var id := Identity(doc.attrs["language"], doc.attrs["interface_version"], doc.attrs["idekey"]);
      if expected.Some? && expected.value != id.ideKey then Err(WrongIdeKey(expected.value, id.ideKey))
      else Ok(id)
  }

  /** The handshake as the session performs it: one message is received, and an
      empty stream means the engine went away. */
  function ReceiveHandshake(inbox: seq<Document>, expected: Option<string>): (r: Result<Identity>)
    ensures r == Err(Disconnected) <==> inbox == []
    ensures inbox != [] ==> r == ParseInit(inbox[0], expected)
  {
    if inbox == [] then Err(Disconnected) else ParseInit(inbox[0], expected)
  }

  /** With no key required, any well-formed handshake is accepted, whatever its key. */
  lemma AnyKeyWithoutExpectation(doc: Document)
    requires doc.tag == InitTag && HasIdentity(doc)
    ensures ParseInit(doc, None).Ok?
    ensures ParseInit(doc, None).value.ideKey == doc.attrs["idekey"]
  {
  }

  /** The key the caller expects never changes what a successful handshake yields. */
  lemma ExpectationOnlyFilters(doc: Document, key: string)
    requires ParseInit(doc, Some(key)).Ok?
    ensures ParseInit(doc, None) == ParseInit(doc, Some(key))
    ensures ParseInit(doc, Some(key)).value.ideKey == key
  {
  }
}
