/** Replies from the engine: a standard `<response>` shows its status, a
    `feature_get` reply shows its body and says whether the feature is supported. */
module Response {
  import opened Wire

  /** Which reply class a command expects. */
  datatype ReplyKind = StandardReply | FeatureReply

  /** A standard reply keeps the whole document it came from; a feature reply
      also carries the feature's name and its decoded support flag. */
  datatype Reply =
    | Standard(doc: Document)
    | Feature(featureName: string, supported: bool, doc: Document)

  /** Python's str() of a reply: the status of a standard reply, the body of a
      feature reply. A standard reply without a status has no string form. */
  function Display(r: Reply): (o: Result<string>)
    ensures o.Ok? <==> r.Feature? || "status" in r.doc.attrs
    ensures r.Standard? && "status" in r.doc.attrs ==> o == Ok(r.doc.attrs["status"])
    ensures r.Feature? ==> o == Ok(r.doc.body)
    ensures o.Err? ==> o.error == ResponseError(InvalidXml, r.doc)
  {
    match r
    case Standard(doc) =>
      if "status" in doc.attrs then Ok(doc.attrs["status"]) else Err(ResponseError(InvalidXml, doc))
    case Feature(_, _, doc) => Ok(doc.body)
  }

  /** is_supported() of a feature reply: 1 when the engine supports the feature, else 0. */
  function IsSupported(r: Reply): (n: nat)
    requires r.Feature?
    ensures n <= 1
  {
    if r.supported then 1 else 0
  }

  /** Looks up an attribute of the reply's root element; None when it is absent. */
  function Attribute(r: Reply, name: string): Option<string>
  {
    if name in r.doc.attrs then Some(r.doc.attrs[name]) else None
  }

  /** Builds the reply of an ordinary command. Any document is accepted; its
      string form is its status, whatever that status is. */
  function ParseStandard(doc: Document): (r: Reply)
    ensures Display(r).Ok? <==> "status" in doc.attrs
    ensures Display(r).Ok? ==> Display(r).value == doc.attrs["status"]
    ensures Display(r).Err? ==> Display(r).error == ResponseError(InvalidXml, doc)
  {
    Standard(doc)
  }

  predicate SupportedFlag(v: string) { v == "0" || v == "1" }

  /** Builds the reply of feature_get; it must name the feature and carry a 0/1 flag. */
  function ParseFeature(doc: Document): (r: Result<Reply>)
    ensures r.Ok? <==> "feature_name" in doc.attrs && "supported" in doc.attrs
                       && SupportedFlag(doc.attrs["supported"])
    ensures r.Ok? ==> r.value.Feature? && Display(r.value) == Ok(doc.body)
                      && r.value.featureName == doc.attrs["feature_name"]
                      && (IsSupported(r.value) == 1 <==> doc.attrs["supported"] == "1")
    ensures r.Err? ==> r.error == ResponseError(InvalidXml, doc)
  {
    if "feature_name" in doc.attrs && "supported" in doc.attrs
       && SupportedFlag(doc.attrs["supported"])
    then Ok(Feature(doc.attrs["feature_name"], doc.attrs["supported"] == "1", doc))
    else Err(ResponseError(InvalidXml, doc))
  }

  function ParseReply(kind: ReplyKind, doc: Document): Result<Reply>
  {
    match kind
    case StandardReply => Ok(ParseStandard(doc))
    case FeatureReply => ParseFeature(doc)
  }

  /** The reply's attributes stay readable through the parsed value. */
  lemma AttributesPreserved(kind: ReplyKind, doc: Document, name: string)
    requires ParseReply(kind, doc).Ok?
    ensures Attribute(ParseReply(kind, doc).value, name)
         == (if name in doc.attrs then Some(doc.attrs[name]) else None)
  {
  }
}
