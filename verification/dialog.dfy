/** The SIP dialog entity (dialog_t) and its operations: creation as caller
    or callee (sections 12.1.1 and 12.1.2 of RFC 3261, as drafted in
    rfc2543bis-09), the remote-target and CSeq updates, late adoption of the
    remote tag, and the two matchers that decide whether an incoming response
    or request belongs to a dialog. */
module Dialogs {
  import opened Wrappers
  import opened Sip

  /** dlg_type_t: which side initiated the call. */
  datatype DialogType = Caller | Callee

  /** The lifecycle stage of a dialog. */
  datatype DialogState = Early | Confirmed | Closed

  /** dialog_t. The dialog identity is implied by the triple
      (callId, localTag, remoteTag). */
  datatype Dialog = Dialog(
    callId: string,
    localTag: string,
    remoteTag: Option<string>,
    routeSet: seq<RouteEntry>,
    localCseq: int,
    remoteCseq: int,
    remoteUri: NameAddr,
    localUri: NameAddr,
    remoteContactUri: Option<Contact>,
    secure: int,
    dlgType: DialogType,
    state: DialogState)

  /** The CSeq counter value of a direction in which nothing was seen yet. */
  const UnsetCseq: int := -1

  /** The value of `secure` for a dialog that is not secure. */
  const NotSecure: int := -1

  /** The allocations and copies that can fail while a dialog is built or
      updated. A set of these steps is the failure oracle the operations
      take in place of the allocator. */
  datatype CopyStep =
    | AllocDialog
    | CopyCallId
    | CopyRecordRoute(pos: nat)
    | CopyRemoteUri
    | CopyLocalUri
    | CopyContact

  /** Why dialog creation failed (the C code returns -1 for all of them). */
  datatype InitError = OutOfMemory(step: CopyStep) | MissingLocalTag

  /** Every Record-Route header of `routes` can be copied. */
  predicate RouteSetCopies(routes: seq<RouteEntry>, failing: set<CopyStep>)
  {
    forall p: nat :: p < |routes| ==> CopyRecordRoute(p) !in failing
  }

  /** The copy loop over the Record-Route headers, from position `pos` on:
      either every header is copied, in order, or the first position whose
      copy fails is reported. */
  function CopyRouteSet(routes: seq<RouteEntry>, failing: set<CopyStep>, pos: nat): (r: Result<seq<RouteEntry>, nat>)
    requires pos <= |routes|
    ensures r.Success? <==> forall p: nat :: pos <= p < |routes| ==> CopyRecordRoute(p) !in failing
    ensures r.Success? ==> r.value == routes[pos..]
    ensures r.Failure? ==> pos <= r.error < |routes| && CopyRecordRoute(r.error) in failing
    ensures r.Failure? ==> forall p: nat :: pos <= p < r.error ==> CopyRecordRoute(p) !in failing
    decreases |routes| - pos
  {
    if pos == |routes| then Success([])
    else if CopyRecordRoute(pos) in failing then Failure(pos)
    else
      match CopyRouteSet(routes, failing, pos + 1)
      case Success(rest) => Success([routes[pos]] + rest)
      case Failure(p) => Failure(p)
  }

  /** All steps of a construction succeed: the dialog record, the Call-ID
      and every copy can be allocated and the local tag is present. */
  predicate CanEstablish(localTag: Option<string>, routes: seq<RouteEntry>, contacts: seq<Contact>, failing: set<CopyStep>)
  {
    && AllocDialog !in failing
    && CopyCallId !in failing
    && localTag.Some?
    && RouteSetCopies(routes, failing)
    && CopyRemoteUri !in failing
    && CopyLocalUri !in failing
    && (|contacts| > 0 ==> CopyContact !in failing)
  }

  /** The construction shared by both roles, in the order of the C code;
      any failing step abandons the whole dialog. */
  function Establish(
    dlgType: DialogType, response: SipMessage, localHeader: NameAddr, remoteHeader: NameAddr,
    localCseq: int, remoteCseq: int, contacts: seq<Contact>, failing: set<CopyStep>): (r: Result<Dialog, InitError>)
    ensures r.Success? <==> CanEstablish(localHeader.tag, response.recordRoutes, contacts, failing)
    ensures r.Success? ==>
      && r.value.dlgType == dlgType
      && r.value.callId == response.callId
      && r.value.localTag == localHeader.tag.value
      && r.value.remoteTag == remoteHeader.tag
      && r.value.routeSet == response.recordRoutes
      && r.value.localCseq == localCseq
      && r.value.remoteCseq == remoteCseq
      && r.value.localUri == localHeader
      && r.value.remoteUri == remoteHeader
      && r.value.remoteContactUri == FirstContact(contacts)
      && r.value.secure == NotSecure
      && (r.value.state == Confirmed <==> InStatusClass(response, 2))
      && (r.value.state == Early <==> !InStatusClass(response, 2))
  {
    if AllocDialog in failing then Failure(OutOfMemory(AllocDialog))
    else if CopyCallId in failing then Failure(OutOfMemory(CopyCallId))
    else if localHeader.tag.None? then Failure(MissingLocalTag)
    else
      match CopyRouteSet(response.recordRoutes, failing, 0)
      case Failure(pos) => Failure(OutOfMemory(CopyRecordRoute(pos)))
      case Success(routeSet) =>
        if CopyRemoteUri in failing then Failure(OutOfMemory(CopyRemoteUri))
        else if CopyLocalUri in failing then Failure(OutOfMemory(CopyLocalUri))
        else if |contacts| > 0 && CopyContact in failing then Failure(OutOfMemory(CopyContact))
        else
          Success(Dialog(
            callId := response.callId,
            localTag := localHeader.tag.value,
            remoteTag := remoteHeader.tag,
            routeSet := routeSet,
            localCseq := localCseq,
            remoteCseq := remoteCseq,
            remoteUri := remoteHeader,
            localUri := localHeader,
            remoteContactUri := FirstContact(contacts),
            secure := NotSecure,
            dlgType := dlgType,
            state := if InStatusClass(response, 2) then Confirmed else Early))
  }

  /** dialog_init_as_uac: the caller builds a dialog from a response to its
      INVITE. The From tag is its own and mandatory; a missing To tag is
      tolerated (RFC 2543 peers). */
  function InitAsUac(response: SipMessage, failing: set<CopyStep>): (r: Result<Dialog, InitError>)
    ensures r.Success? <==> CanEstablish(response.from.tag, response.recordRoutes, response.contacts, failing)
    ensures response.from.tag.None? ==> r.Failure?
    ensures r.Success? ==>
      && r.value.dlgType == Caller
      && r.value.callId == response.callId
      && Some(r.value.localTag) == response.from.tag
      && r.value.remoteTag == response.to.tag
      && r.value.routeSet == response.recordRoutes
      && r.value.localCseq == response.cseqNumber
      && r.value.remoteCseq == UnsetCseq
      && r.value.localUri == response.from
      && r.value.remoteUri == response.to
      && r.value.remoteContactUri == FirstContact(response.contacts)
      && r.value.secure == NotSecure
      && (r.value.state == Confirmed <==> InStatusClass(response, 2))
      && (r.value.state == Early <==> !InStatusClass(response, 2))
  {
    Establish(Caller, response, response.from, response.to,
              response.cseqNumber, UnsetCseq, response.contacts, failing)
  }

  /** dialog_init_as_uas: the callee builds a dialog from the INVITE it
      received and the response it is about to send. The To tag of the
      response is its own and mandatory; a missing From tag is tolerated.
      The remote target comes from the INVITE's Contact. */
  function InitAsUas(invite: SipMessage, response: SipMessage, failing: set<CopyStep>): (r: Result<Dialog, InitError>)
    ensures r.Success? <==> CanEstablish(response.to.tag, response.recordRoutes, invite.contacts, failing)
    ensures response.to.tag.None? ==> r.Failure?
    ensures r.Success? ==>
      && r.value.dlgType == Callee
      && r.value.callId == response.callId
      && Some(r.value.localTag) == response.to.tag
      && r.value.remoteTag == response.from.tag
      && r.value.routeSet == response.recordRoutes
      && r.value.localCseq == UnsetCseq
      && r.value.remoteCseq == response.cseqNumber
      && r.value.localUri == response.to
      && r.value.remoteUri == response.from
      && r.value.remoteContactUri == FirstContact(invite.contacts)
      && r.value.secure == NotSecure
      && (r.value.state == Confirmed <==> InStatusClass(response, 2))
      && (r.value.state == Early <==> !InStatusClass(response, 2))
  {
    Establish(Callee, response, response.to, response.from,
              UnsetCseq, response.cseqNumber, invite.contacts, failing)
  }

  /** dialog_set_state: only the state changes. */
  function SetState(d: Dialog, s: DialogState): (r: Dialog)
    ensures r.state == s
    ensures r.(state := d.state) == d
  {
    d.(state := s)
  }

  /** The dialog after an update, and whether the update reported success
      (0 in the C code) or failure (-1). */
  datatype Updated = Updated(dialog: Dialog, ok: bool)

  /** The remote-target replacement shared by both route-set updates: the
      old contact is discarded first, then the first Contact, if any, is
      copied. A failed copy leaves no contact. */
  function ReplaceRemoteContact(d: Dialog, contacts: seq<Contact>, failing: set<CopyStep>): (r: Updated)
    ensures r.dialog.(remoteContactUri := d.remoteContactUri) == d
    ensures r.ok <==> !(|contacts| > 0 && CopyContact in failing)
    ensures r.ok ==> r.dialog.remoteContactUri == FirstContact(contacts)
    ensures !r.ok ==> r.dialog.remoteContactUri.None?
  {
    if |contacts| == 0 then Updated(d.(remoteContactUri := None), true)
    else if CopyContact in failing then Updated(d.(remoteContactUri := None), false)
    else Updated(d.(remoteContactUri := Some(contacts[0])), true)
  }

  /** dialog_update_route_set_as_uas: despite its name only the remote
      target changes, to the first Contact of the incoming request; the
      route set itself is never touched. */
  function UpdateRouteSetAsUas(d: Dialog, request: SipMessage, failing: set<CopyStep>): (r: Updated)
    ensures r.dialog.(remoteContactUri := d.remoteContactUri) == d
    ensures r.dialog.routeSet == d.routeSet
    ensures r.ok <==> !(|request.contacts| > 0 && CopyContact in failing)
    ensures r.ok ==> r.dialog.remoteContactUri == FirstContact(request.contacts)
    ensures !r.ok ==> r.dialog.remoteContactUri.None?
  {
    ReplaceRemoteContact(d, request.contacts, failing)
  }

  /** dialog_update_route_set_as_uac: the caller's mirror of the above,
      reading the Contact of an incoming response. */
  function UpdateRouteSetAsUac(d: Dialog, response: SipMessage, failing: set<CopyStep>): (r: Updated)
    ensures r.dialog.(remoteContactUri := d.remoteContactUri) == d
    ensures r.dialog.routeSet == d.routeSet
    ensures r.ok <==> !(|response.contacts| > 0 && CopyContact in failing)
    ensures r.ok ==> r.dialog.remoteContactUri == FirstContact(response.contacts)
    ensures !r.ok ==> r.dialog.remoteContactUri.None?
  {
    ReplaceRemoteContact(d, response.contacts, failing)
  }

  /** dialog_update_cseq_as_uas: the remote CSeq becomes the CSeq of the
      incoming request, with no monotonicity check; nothing else changes. */
  function UpdateCseqAsUas(d: Dialog, request: SipMessage): (r: Dialog)
    ensures r.remoteCseq == request.cseqNumber
    ensures r.(remoteCseq := d.remoteCseq) == d
  {
    d.(remoteCseq := request.cseqNumber)
  }

  /** dialog_update_tag_as_uac: the remote tag becomes the To tag of the
      response, or none when the response carries no To tag. */
  function UpdateTagAsUac(d: Dialog, response: SipMessage): (r: Dialog)
    ensures r.remoteTag == response.to.tag
    ensures r.(remoteTag := d.remoteTag) == d
  {
    d.(remoteTag := response.to.tag)
  }

  /** The tag of the message that both matchers compare with the remote
      tag: the To tag for a caller's dialog, the From tag for a callee's. */
  function PeerTag(d: Dialog, m: SipMessage): Option<string>
  {
    if d.dlgType == Caller then m.to.tag else m.from.tag
  }

  /** The URI pair agrees in the orientation implied by the dialog's role:
      for a caller To is the remote party and From the local one; for a
      callee the other way round. */
  predicate RolePairAgrees(d: Dialog, m: SipMessage)
  {
    if d.dlgType == Caller then SameParty(d.remoteUri, m.to) && SameParty(d.localUri, m.from)
    else SameParty(d.localUri, m.to) && SameParty(d.remoteUri, m.from)
  }

  /** The URI pair agrees in at least one of the two orientations. */
  predicate EitherPairAgrees(d: Dialog, m: SipMessage)
  {
    || (SameParty(d.remoteUri, m.to) && SameParty(d.localUri, m.from))
    || (SameParty(d.localUri, m.to) && SameParty(d.remoteUri, m.from))
  }

  /** dialog_match_as_uac: does an incoming response belong to the dialog?
      (true stands for the C return value 0). */
  function MatchAsUac(d: Dialog, answer: SipMessage): (matched: bool)
    ensures d.callId != answer.callId ==> !matched
    ensures matched ==> (PeerTag(d, answer).None? <==> d.remoteTag.None?)
    ensures matched && d.remoteTag.None? ==> RolePairAgrees(d, answer)
    ensures matched && d.remoteTag.Some? ==> PeerTag(d, answer) == d.remoteTag && EitherPairAgrees(d, answer)
  {
    if d.callId != answer.callId then false
    else
      var tag := if d.dlgType == Caller then answer.to.tag else answer.from.tag;
      if tag.None? then
        if d.remoteTag.Some? then false
        else if d.dlgType == Caller then
          SameParty(d.remoteUri, answer.to) && SameParty(d.localUri, answer.from)
        else
          SameParty(d.localUri, answer.to) && SameParty(d.remoteUri, answer.from)
      else if d.remoteTag.None? then false
      else if !(SameParty(d.remoteUri, answer.to) && SameParty(d.localUri, answer.from))
           && !(SameParty(d.localUri, answer.to) && SameParty(d.remoteUri, answer.from)) then false
      else tag.value == d.remoteTag.value
  }

  /** dialog_match_as_uas: does an incoming request belong to the dialog?
      (true stands for the C return value 0). */
  function MatchAsUas(d: Dialog, request: SipMessage): (matched: bool)
    ensures d.callId != request.callId ==> !matched
    ensures matched ==> (PeerTag(d, request).None? <==> d.remoteTag.None?)
    ensures matched && d.remoteTag.None? ==> RolePairAgrees(d, request)
    ensures matched && d.remoteTag.Some? ==> PeerTag(d, request) == d.remoteTag && EitherPairAgrees(d, request)
  {
    if d.callId != request.callId then false
    else
      var tag := if d.dlgType == Callee then request.from.tag else request.to.tag;
      if tag.None? then
        if d.remoteTag.Some? then false
        else if d.dlgType == Callee then
          SameParty(d.localUri, request.to) && SameParty(d.remoteUri, request.from)
        else
          SameParty(d.remoteUri, request.to) && SameParty(d.localUri, request.from)
      else if d.remoteTag.None? then false
      else if !(SameParty(d.localUri, request.to) && SameParty(d.remoteUri, request.from))
           && !(SameParty(d.remoteUri, request.to) && SameParty(d.localUri, request.from)) then false
      else tag.value == d.remoteTag.value
  }
}
