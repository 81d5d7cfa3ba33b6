/** Values exchanged with the debugger engine, as the session layer sees them
    once the transport has delimited a message and the XML reader has parsed it. */
module Wire {

  /** One parsed XML message: the local name of its root element, the root
      element's attributes and the text (CDATA) of its body. */
  datatype Document = Document(tag: string, attrs: map<string, string>, body: string)

  /** The two typed failures the session layer raises, and the end of the stream. */
  datatype Error =
    | ResponseError(message: string, doc: Document)   // malformed or unexpected wire content
    | WrongIdeKey(expected: string, received: string) // handshake names another IDE
    | Disconnected                                    // no message left to receive

  datatype Option<+T> = None | Some(value: T)

  datatype Result<+T> = Ok(value: T) | Err(error: Error)

  /** The text every ResponseError raised by this layer carries. */
  const InvalidXml: string := "Invalid XML response from debugger"
}
