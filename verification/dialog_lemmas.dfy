/** Properties of the dialog model: what the matchers accept, how they
    relate to construction and to the updates, and the documented
    limitation of the RFC 2543 fallback. */
module DialogLemmas {
  import opened Wrappers
  import opened Sip
  import opened Dialogs

  /** Reference reading of "message m belongs to dialog d": the Call-IDs
      agree and either neither side has a remote tag and the URIs agree in
      the role's orientation, or both have it, the tags are equal and the
      URIs agree in some orientation. */
  ghost predicate BelongsTo(m: SipMessage, d: Dialog)
  {
    && d.callId == m.callId
    && (|| (PeerTag(d, m).None? && d.remoteTag.None? && RolePairAgrees(d, m))
        || (PeerTag(d, m).Some? && PeerTag(d, m) == d.remoteTag && EitherPairAgrees(d, m)))
  }

  lemma MatchAsUacExactly(d: Dialog, answer: SipMessage)
    ensures MatchAsUac(d, answer) <==> BelongsTo(answer, d)
  {
  }

  lemma MatchAsUasExactly(d: Dialog, request: SipMessage)
    ensures MatchAsUas(d, request) <==> BelongsTo(request, d)
  {
  }

  /** The two matchers select the same tag and accept the same URI pairs:
      they agree on every dialog and message. */
  lemma MatchersCoincide(d: Dialog, m: SipMessage)
    ensures MatchAsUac(d, m) == MatchAsUas(d, m)
  {
    MatchAsUacExactly(d, m);
    MatchAsUasExactly(d, m);
  }

  /** Matching reads only the Call-ID, the role, the remote tag and the
      addresses of the two URIs: in particular neither the local tag, the
      route set, the CSeq counters, the contact nor the state. */
  lemma MatchDependsOnlyOnIdentity(d1: Dialog, d2: Dialog, m: SipMessage)
    requires d1.callId == d2.callId && d1.remoteTag == d2.remoteTag && d1.dlgType == d2.dlgType
    requires d1.localUri.address == d2.localUri.address && d1.remoteUri.address == d2.remoteUri.address
    ensures MatchAsUac(d1, m) == MatchAsUac(d2, m)
    ensures MatchAsUas(d1, m) == MatchAsUas(d2, m)
  {
  }

  /** The updates that leave the identity alone never change which
      messages a dialog matches. */
  lemma UpdatesPreserveMatching(d: Dialog, msg: SipMessage, m: SipMessage, s: DialogState, failing: set<CopyStep>)
    ensures MatchAsUac(SetState(d, s), m) == MatchAsUac(d, m)
    ensures MatchAsUac(UpdateCseqAsUas(d, msg), m) == MatchAsUac(d, m)
    ensures MatchAsUac(UpdateRouteSetAsUas(d, msg, failing).dialog, m) == MatchAsUac(d, m)
    ensures MatchAsUac(UpdateRouteSetAsUac(d, msg, failing).dialog, m) == MatchAsUac(d, m)
    ensures MatchAsUas(SetState(d, s), m) == MatchAsUas(d, m)
    ensures MatchAsUas(UpdateCseqAsUas(d, msg), m) == MatchAsUas(d, m)
    ensures MatchAsUas(UpdateRouteSetAsUas(d, msg, failing).dialog, m) == MatchAsUas(d, m)
    ensures MatchAsUas(UpdateRouteSetAsUac(d, msg, failing).dialog, m) == MatchAsUas(d, m)
  {
    MatchDependsOnlyOnIdentity(SetState(d, s), d, m);
    MatchDependsOnlyOnIdentity(UpdateCseqAsUas(d, msg), d, m);
    MatchDependsOnlyOnIdentity(UpdateRouteSetAsUas(d, msg, failing).dialog, d, m);
    MatchDependsOnlyOnIdentity(UpdateRouteSetAsUac(d, msg, failing).dialog, d, m);
  }

  /** A caller's dialog matches the very response it was created from. */
  lemma InitAsUacMatchesItsResponse(response: SipMessage, failing: set<CopyStep>)
    requires InitAsUac(response, failing).Success?
    ensures MatchAsUac(InitAsUac(response, failing).value, response)
  {
  }

  /** A callee's dialog matches the INVITE it was created from, provided the
      response was built from that INVITE: same Call-ID, From copied, and To
      naming the same party (with the callee's tag added). */
  lemma InitAsUasMatchesItsInvite(invite: SipMessage, response: SipMessage, failing: set<CopyStep>)
    requires InitAsUas(invite, response, failing).Success?
    requires response.callId == invite.callId
    requires response.from == invite.from
    requires SameParty(response.to, invite.to)
    ensures MatchAsUas(InitAsUas(invite, response, failing).value, invite)
  {
  }

  /** Dialogs of another call never match, under either matcher, whether
      they were created as caller or as callee. */
  lemma OtherCallsNeverMatch(invite: SipMessage, response: SipMessage, failing: set<CopyStep>, m: SipMessage)
    requires m.callId != response.callId
    ensures InitAsUac(response, failing).Success? ==>
      !MatchAsUac(InitAsUac(response, failing).value, m) && !MatchAsUas(InitAsUac(response, failing).value, m)
    ensures InitAsUas(invite, response, failing).Success? ==>
      !MatchAsUac(InitAsUas(invite, response, failing).value, m) && !MatchAsUas(InitAsUas(invite, response, failing).value, m)
  {
  }

  /** The tag is chosen by role, not by direction: a caller's dialog, built
      from a response tagged on both sides, rejects an in-dialog request
      that the callee sends with the tags the other way round, under either
      matcher. */
  lemma CallerRejectsCalleeRequest(response: SipMessage, failing: set<CopyStep>, request: SipMessage)
    requires InitAsUac(response, failing).Success?
    requires response.to.tag.Some? && response.to.tag != response.from.tag
    requires request.callId == response.callId
    requires request.from == response.to && request.to == response.from
    ensures !MatchAsUas(InitAsUac(response, failing).value, request)
    ensures !MatchAsUac(InitAsUac(response, failing).value, request)
  {
  }

  /** The mirror case: a callee's dialog rejects the answer to a request the
      callee itself sent, whose From carries the callee's tag and whose To
      carries the caller's. */
  lemma CalleeRejectsAnswerToOwnRequest(invite: SipMessage, response: SipMessage, failing: set<CopyStep>, answer: SipMessage)
    requires InitAsUas(invite, response, failing).Success?
    requires response.from.tag.Some? && response.to.tag != response.from.tag
    requires answer.callId == response.callId
    requires answer.from == response.to && answer.to == response.from
    ensures !MatchAsUac(InitAsUas(invite, response, failing).value, answer)
    ensures !MatchAsUas(InitAsUas(invite, response, failing).value, answer)
  {
  }

  /** An early dialog created from a provisional response without a To tag
      does not match the later 2xx that carries one; after adopting that
      tag with UpdateTagAsUac it does. */
  lemma LateTagAdoption(provisional: SipMessage, final: SipMessage, failing: set<CopyStep>)
    requires InitAsUac(provisional, failing).Success?
    requires provisional.to.tag.None? && final.to.tag.Some?
    requires final.callId == provisional.callId
    requires SameParty(final.to, provisional.to) && SameParty(final.from, provisional.from)
    ensures !MatchAsUac(InitAsUac(provisional, failing).value, final)
    ensures MatchAsUac(UpdateTagAsUac(InitAsUac(provisional, failing).value, final), final)
  {
  }

  /** The documented limitation: two answers without a peer tag, from
      different user agents but with the same Call-ID and the same From and
      To addresses, cannot be told apart by the matcher. */
  lemma UntaggedAnswersIndistinguishable(d: Dialog, a1: SipMessage, a2: SipMessage)
    requires PeerTag(d, a1).None? && PeerTag(d, a2).None?
    requires a1.callId == a2.callId
    requires SameParty(a1.to, a2.to) && SameParty(a1.from, a2.from)
    ensures MatchAsUac(d, a1) == MatchAsUac(d, a2)
    ensures MatchAsUas(d, a1) == MatchAsUas(d, a2)
  {
  }

  /** A concrete instance of the limitation: one caller's dialog, two
      different 200 OK answers from two RFC 2543 user agents (different
      Contacts), both accepted. */
  lemma ForkedUntaggedAnswersShareDialog()
    ensures exists d: Dialog, a1: SipMessage, a2: SipMessage ::
      a1 != a2 && MatchAsUac(d, a1) && MatchAsUac(d, a2)
  {
    var caller := NameAddr("sip:alice@a.example", Some("1234"));
    var callee := NameAddr("sip:bob@b.example", None);
    var a1 := SipMessage(StatusLine(200), "c1", caller, callee, 1, [Contact("sip:bob@ua1")], []);
    var a2 := a1.(contacts := [Contact("sip:bob@ua2")]);
    assert a1.contacts != a2.contacts;
    var d := InitAsUac(a1, {}).value;
    assert MatchAsUac(d, a1) && MatchAsUac(d, a2);
  }

  /** For the responses that may create a dialog (101 to 299), the dialog
      is early exactly for a provisional response and confirmed exactly for
      a 2xx; it is never closed. */
  lemma InitStateForDialogCodes(response: SipMessage, invite: SipMessage, failing: set<CopyStep>)
    requires response.startLine.StatusLine? && 101 <= response.startLine.code <= 299
    ensures InitAsUac(response, failing).Success? ==>
      var d := InitAsUac(response, failing).value;
      (d.state == Early <==> response.startLine.code <= 199) && (d.state == Confirmed <==> 200 <= response.startLine.code)
    ensures InitAsUas(invite, response, failing).Success? ==>
      var d := InitAsUas(invite, response, failing).value;
      (d.state == Early <==> response.startLine.code <= 199) && (d.state == Confirmed <==> 200 <= response.startLine.code)
  {
  }

  /** Creation is all-or-nothing: a single failing copy of a Record-Route
      header yields no dialog at all. */
  lemma RouteCopyFailureAborts(response: SipMessage, invite: SipMessage, failing: set<CopyStep>, p: nat)
    requires p < |response.recordRoutes| && CopyRecordRoute(p) in failing
    ensures InitAsUac(response, failing).Failure?
    ensures InitAsUas(invite, response, failing).Failure?
  {
  }

  /** The callee's remote target follows the latest Contact: created from
      an INVITE with Contact a, then updated by a request with Contact b, the
      dialog targets b. */
  lemma CalleeContactReplaced(invite: SipMessage, response: SipMessage, request: SipMessage, a: Contact, b: Contact, failing: set<CopyStep>)
    requires invite.contacts == [a] && request.contacts == [b]
    requires response.to.tag == Some("xyz")
    requires CopyContact !in failing
    requires InitAsUas(invite, response, failing).Success?
    ensures InitAsUas(invite, response, failing).value.remoteContactUri == Some(a)
    ensures UpdateRouteSetAsUas(InitAsUas(invite, response, failing).value, request, failing).dialog.remoteContactUri == Some(b)
  {
  }

  /** One of the operations that change an existing dialog. */
  datatype DialogUpdate =
    | RouteSetAsUas(request: SipMessage, failing: set<CopyStep>)
    | RouteSetAsUac(response: SipMessage, failing: set<CopyStep>)
    | CseqAsUas(request: SipMessage)
    | TagAsUac(response: SipMessage)
    | NewState(state: DialogState)

  function Apply(d: Dialog, u: DialogUpdate): Dialog
  {
    match u
    case RouteSetAsUas(request, failing) => UpdateRouteSetAsUas(d, request, failing).dialog
    case RouteSetAsUac(response, failing) => UpdateRouteSetAsUac(d, response, failing).dialog
    case CseqAsUas(request) => UpdateCseqAsUas(d, request)
    case TagAsUac(response) => UpdateTagAsUac(d, response)
    case NewState(state) => SetState(d, state)
  }

  function ApplyAll(d: Dialog, updates: seq<DialogUpdate>): Dialog
    decreases |updates|
  {
    if |updates| == 0 then d else ApplyAll(Apply(d, updates[0]), updates[1..])
  }

  /** What no update ever changes: the Call-ID, the local tag, the route
      set captured at creation, the two URIs, the role and the local CSeq. */
  ghost predicate SameFixedPart(d: Dialog, e: Dialog)
  {
    && e.callId == d.callId
    && e.localTag == d.localTag
    && e.routeSet == d.routeSet
    && e.localUri == d.localUri
    && e.remoteUri == d.remoteUri
    && e.dlgType == d.dlgType
    && e.localCseq == d.localCseq
  }

  /** The route set keeps the length and order it had at creation, and the
      rest of the fixed part is never touched, whatever updates follow. */
  lemma {:induction false} FixedPartSurvivesUpdates(d: Dialog, updates: seq<DialogUpdate>)
    ensures SameFixedPart(d, ApplyAll(d, updates))
    decreases |updates|
  {
    if |updates| > 0 {
      FixedPartSurvivesUpdates(Apply(d, updates[0]), updates[1..]);
    }
  }

  /** The remote CSeq after a series of incoming requests is that of the
      last one, whatever order the numbers came in. */
  lemma {:induction false} RemoteCseqFollowsLastRequest(d: Dialog, requests: seq<SipMessage>)
    requires |requests| > 0
    ensures ApplyAll(d, CseqUpdates(requests)).remoteCseq == requests[|requests| - 1].cseqNumber
    decreases |requests|
  {
    var first := Apply(d, CseqAsUas(requests[0]));
    assert CseqUpdates(requests)[1..] == CseqUpdates(requests[1..]);
    if |requests| > 1 {
      RemoteCseqFollowsLastRequest(first, requests[1..]);
    }
  }

  /** One CSeq update per request, in order. */
  function CseqUpdates(requests: seq<SipMessage>): (us: seq<DialogUpdate>)
    ensures |us| == |requests|
    ensures forall i :: 0 <= i < |requests| ==> us[i] == CseqAsUas(requests[i])
  {
    seq(|requests|, i requires 0 <= i < |requests| => CseqAsUas(requests[i]))
  }
}
