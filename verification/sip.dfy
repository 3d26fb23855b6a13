/** The parts of a parsed SIP message that the dialog layer and the
    non-INVITE server transaction read. Parsing, header grammar, Via
    handling and the transport are collaborators outside this model. */
module Sip {
  import opened Wrappers

  /** A From or To header: the address part that from_compare looks at, and
      the optional "tag" parameter. */
  datatype NameAddr = NameAddr(address: string, tag: Option<string>)

  /** from_compare: two headers name the same party when their addresses
      agree. Tags are compared separately by the dialog matchers. */
  predicate SameParty(a: NameAddr, b: NameAddr)
  {
    a.address == b.address
  }

  /** One Contact header (the peer's preferred target). */
  datatype Contact = Contact(uri: string)

  /** One Record-Route header, kept in a dialog's route set. */
  datatype RouteEntry = RouteEntry(uri: string)

  /** The start line: a request carries a method, a response a status code. */
  datatype StartLine = RequestLine(methodName: string) | StatusLine(code: int)

  /** A parsed message. `callId` is the Call-ID rendered as a string
      (call_id_2char) and `cseqNumber` the CSeq number already converted to
      an integer (satoi). */
  datatype SipMessage = SipMessage(
    startLine: StartLine,
    callId: string,
    from: NameAddr,
    to: NameAddr,
    cseqNumber: int,
    contacts: seq<Contact>,
    recordRoutes: seq<RouteEntry>)

  /** MSG_IS_<METHOD>: the message is a request for the given method. */
  predicate IsRequestFor(m: SipMessage, name: string)
  {
    m.startLine.RequestLine? && m.startLine.methodName == name
  }

  /** MSG_IS_STATUS_<c>XX: the message is a response whose status code lies
      in the class whose first digit is `c`. */
  predicate InStatusClass(m: SipMessage, c: int)
  {
    m.startLine.StatusLine? && c * 100 <= m.startLine.code < c * 100 + 100
  }

  /** The first Contact header of a list, if any. */
  function FirstContact(contacts: seq<Contact>): (r: Option<Contact>)
    ensures r.None? <==> |contacts| == 0
    ensures r.Some? ==> r.value == contacts[0]
  {
    if |contacts| == 0 then None else Some(contacts[0])
  }
}
