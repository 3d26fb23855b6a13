# oSIP session layer: dialogs and the non-INVITE server transaction

A Dafny model of two sequential pieces of the oSIP SIP stack, with proofs of
their properties.

1. **The SIP dialog** (`dialog_t` and the operations in `fsm/dialog.c`).
   The model covers creation as caller (UAC) or callee (UAS), following
   sections 12.1.1 and 12.1.2 of RFC 3261 in the form of the rfc2543bis-09
   draft. It also covers the remote-target ("route-set") and CSeq updates,
   late adoption of the remote tag, and the two matchers that decide whether
   an incoming response or request belongs to a dialog. The matchers include
   the RFC 2543 fallback for peers that send no tag. They recognise only
   messages oriented like the INVITE that created the dialog (see below).
2. **The non-INVITE server transaction (NIST)** (`fsm/nist_fsm.c`, section
   17.2.2 of RFC 3261). This part covers the ten-entry transition table, the
   generic first-match lookup that dispatches on it, and the four handlers. A
   handler turns a transaction, an event and the environment's answers into
   three things: the next transaction, the messages handed to the transport,
   and the application notifications, in order.

Files and modules:

| file | module | contents |
|---|---|---|
| `wrappers.dfy` | `Wrappers` | `Option` and `Result` |
| `sip.dfy` | `Sip` | the parts of a parsed SIP message that the core reads |
| `dialog.dfy` | `Dialogs` | `Dialog`, creation, updates, matchers |
| `dialog_lemmas.dfy` | `DialogLemmas` | matching, construction and update properties |
| `fsm.dfy` | `Fsm` | generic transition tables and their first-match lookup |
| `nist.dfy` | `Nist` | NIST table, handlers, step function |
| `nist_lemmas.dfy` | `NistLemmas` | table shape, properties over every event sequence, scenarios |

Modelling choices:

- **Headers are abstract values.** A From/To header is a `NameAddr`: an
  address plus an optional tag. `from_compare` becomes `SameParty`, which is
  equality of the addresses; the matchers compare tags separately. The
  Call-ID is its string form (`call_id_2char`). The CSeq number is an integer
  that has already been converted (`satoi`).
- **Allocation and copy failures are an oracle.** Creation and the route-set
  updates take a `failing: set<CopyStep>`, which lists the allocations and
  copies that fail. A failing Record-Route copy is named by its position.
  Every failure gives `Failure(...)` and no dialog, so creation is
  all-or-nothing.
- **Return codes become values.** A C return of 0/-1 becomes `true`/`false`
  for the matchers, `Result` for creation, and `Updated.ok` for the
  route-set updates. The updates return the changed dialog even when they
  fail, because the C code has already discarded the old contact by then.
- **The NIST environment is a parameter of each step.** It is the current
  time (`time(NULL)`, read when Timer J is armed) and the transport's answer
  to a send (0 means success; any other value is the error code passed to the
  transport-error callback). Whether the optional retransmission callback
  `cb_nist_request_received2` is registered is a `Config` flag.
- **Callbacks are trace entries.** Application callbacks become
  `Notification` values appended to a trace. The messages handed to
  `cb_send_message` are collected separately in `sent`.
- **The matchers select the tag by role, not by message direction.** Both
  matchers compare the remote tag with the To tag for a caller's dialog and
  with the From tag for a callee's dialog. They accept the same URI pairings,
  so they compute one and the same predicate (`MatchersCoincide`).

Where the code and its documentation differ, the model follows the code:

- Creation does not check the status code. A 2xx gives a confirmed dialog;
  every other code gives an early one, including 100 and error responses.
  The rule that only 101 to 299 create dialogs is an obligation on the
  caller (`InitStateForDialogCodes`).
- `dialog_set_state` declares its parameter as a `dlg_type_t`, and its
  documentation speaks of the dialog type. It actually writes the `state`
  field, and `SetState` does the same.
- `secure` is an integer set to -1 ("non secure"), not a boolean.
- `dialog_update_tag_as_uac` clears an existing remote tag when the response
  carries no To tag.
- On a retransmission, `nist_rcv_request` announces the resent response
  through the 1xx-sent callback even when that response is final.
- The comment in `dialog_match_as_uas` says that for a UAS the remote tag is
  in the From header (fsm/dialog.c:177). The code reads the To tag when the
  dialog is a caller's (fsm/dialog.c:178-181). `dialog_match_as_uac` reads the
  From tag when the dialog is a callee's (fsm/dialog.c:124-128). Both
  untagged branches also compare the URIs in the INVITE's orientation.
  - A caller's dialog therefore rejects every properly tagged request from
    the callee, such as a BYE with From and To swapped
    (`CallerRejectsCalleeRequest`).
  - A callee's dialog rejects the response to a request it sent itself
    (`CalleeRejectsAnswerToOwnRequest`).
  - Messages oriented like the INVITE are matched
    (`InitAsUacMatchesItsResponse`, `InitAsUasMatchesItsInvite`).

## Model

| member | source | states |
|---|---|---|
| `Dialogs.InitAsUac` | fsm/dialog.c:216-310 | Creation succeeds exactly when the dialog allocation, the Call-ID copy, every Record-Route copy, both URI copies and (if a Contact is present) the contact copy succeed and the From tag is present. A missing From tag always fails; a missing To tag is accepted and gives no remote tag. On success the dialog is a Caller dialog. Its route set equals the Record-Route list in length and order. Its local CSeq is the response's CSeq and its remote CSeq is -1. Its remote target is the first Contact or none, and it is marked not secure (-1). It is Confirmed iff the response is 2xx, otherwise Early |
| `Dialogs.InitAsUas` | fsm/dialog.c:312-406 | The mirror of creation as caller. The response's To tag is mandatory and its From tag optional. The local URI is the response's To and the remote URI its From. The local CSeq is -1 and the remote CSeq the response's CSeq. The remote target is the first Contact of the INVITE, not of the response. It is marked not secure (-1). It is Confirmed iff the response is 2xx |
| `Dialogs.CopyRouteSet` | fsm/dialog.c:252-262 | The Record-Route copy loop either copies every header in order or reports the first position whose copy fails |
| `Dialogs.SetState` | fsm/dialog.c:26-30 | The state becomes the given one and no other field changes |
| `Dialogs.ReplaceRemoteContact` | fsm/dialog.c:73-92 | The old contact is discarded first. The result is the first Contact of the list, or none if the list is empty or the copy fails. It fails exactly when a Contact exists and its copy fails. Only the contact changes |
| `Dialogs.UpdateRouteSetAsUas` | fsm/dialog.c:32-56 | Only the remote contact changes, to the first Contact of the request (none if absent). The route set and every other field are unchanged. It reports failure exactly when the contact copy fails |
| `Dialogs.UpdateRouteSetAsUac` | fsm/dialog.c:65-93 | The same for an incoming response: only the remote contact is replaced and the route set is left alone |
| `Dialogs.UpdateCseqAsUas` | fsm/dialog.c:58-63 | The remote CSeq becomes the request's CSeq, with no monotonicity check. Nothing else changes |
| `Dialogs.UpdateTagAsUac` | fsm/dialog.c:95-109 | The remote tag becomes the response's To tag, or none if it has no To tag. Nothing else changes |
| `Dialogs.MatchAsUac` | fsm/dialog.c:111-162 | No match when the Call-IDs differ. A match requires the message's peer tag to be present exactly when the dialog's remote tag is. An untagged match needs the URI pair to agree in the role's orientation. A tagged match needs equal tags and URI agreement in some orientation |
| `Dialogs.MatchAsUas` | fsm/dialog.c:164-214 | The same guarantees for incoming requests |
| `DialogLemmas.MatchAsUacExactly` | fsm/dialog.c:117-161 | The converse as well: a response matches iff the Call-IDs agree and either both sides lack a tag and the role-oriented URI pair agrees, or both carry equal tags and the URI pair agrees in at least one orientation |
| `DialogLemmas.MatchAsUasExactly` | fsm/dialog.c:170-213 | The same if-and-only-if characterisation for requests |
| `DialogLemmas.MatchersCoincide` | fsm/dialog.c:111-214 | The two matchers give the same answer for every dialog and message |
| `DialogLemmas.MatchDependsOnlyOnIdentity` | osip/dialog.h:116-132 | Matching reads only the Call-ID, the remote tag, the role and the addresses of the two URIs. The local tag of the implied identity triple, the route set, the CSeqs, the contact and the state never influence it |
| `DialogLemmas.UpdatesPreserveMatching` | osip/dialog.h:170-187 | Setting the state, updating the CSeq or updating the route set never changes which messages a dialog matches |
| `DialogLemmas.InitAsUacMatchesItsResponse` | fsm/dialog.c:216-290 | A caller's dialog matches the response it was created from |
| `DialogLemmas.InitAsUasMatchesItsInvite` | fsm/dialog.c:312-386 | A callee's dialog matches its INVITE when the response was built from it: same Call-ID, same From, To naming the same party |
| `DialogLemmas.OtherCallsNeverMatch` | fsm/dialog.c:117-122 | A dialog created from one call, as caller or as callee, never matches a message with another Call-ID, under either matcher |
| `DialogLemmas.CallerRejectsCalleeRequest` | fsm/dialog.c:177-181 | A caller's dialog, created from a response whose two tags differ, rejects under both matchers a request with the same Call-ID whose From and To are the response's To and From. That is an in-dialog request from the callee |
| `DialogLemmas.CalleeRejectsAnswerToOwnRequest` | fsm/dialog.c:124-128 | A callee's dialog, created from a response whose two tags differ, rejects under both matchers an answer with the same Call-ID whose From and To are the response's To and From. That is the answer to a request the callee sent |
| `DialogLemmas.LateTagAdoption` | osip/dialog.h:195-201 | An early dialog made from a provisional response without a To tag does not match the later tagged 2xx. After `UpdateTagAsUac` with that 2xx, it does |
| `DialogLemmas.UntaggedAnswersIndistinguishable` | osip/dialog.h:78-84 | Two answers without a peer tag, with the same Call-ID and the same From/To addresses, get the same verdict from both matchers, however much they differ otherwise |
| `DialogLemmas.ForkedUntaggedAnswersShareDialog` | osip/dialog.h:140-143 | There is a dialog that two different untagged 200 answers, from user agents with different Contacts, both match |
| `DialogLemmas.InitStateForDialogCodes` | osip/dialog.h:44-46 | For the codes that may create a dialog (101-299), the dialog is Early iff the code is at most 199 and Confirmed iff it is at least 200, in both roles |
| `DialogLemmas.RouteCopyFailureAborts` | fsm/dialog.c:252-262 | One failing Record-Route copy makes creation fail in both roles, with no dialog returned |
| `DialogLemmas.CalleeContactReplaced` | fsm/dialog.c:369-383 | A callee's dialog made from an INVITE with Contact a targets a. After a request with Contact b, it targets b |
| `DialogLemmas.FixedPartSurvivesUpdates` | osip/dialog.h:170-174 | After any sequence of updates, the following are exactly as they were: the Call-ID, the local tag, the route set (length and order), both URIs, the role and the local CSeq |
| `DialogLemmas.RemoteCseqFollowsLastRequest` | osip/dialog.h:181-187 | After any non-empty series of incoming requests, the remote CSeq is that of the last request, in whatever order the numbers came |
| `Fsm.Lookup` | fsm/nist_fsm.c:32-110 | The engine consults the table that `nist_load_fsm` builds. No handler is found exactly when no entry binds the (state, event kind) pair, so the event is ignored. Otherwise the handler is that of the first entry, in insertion order, that binds the pair |
| `Fsm.LookupAsMap` | fsm/nist_fsm.c:32-110 | When no two entries share a pair, the lookup finds handler h exactly when the table holds the entry (s, k, h), so entry order does not matter |
| `Nist.TableIsBinding` | fsm/nist_fsm.c:32-110 | The lookup over the ten-entry table agrees with the transition list of section 17.2.2 of RFC 3261, as bound here, for every state and event kind |
| `Nist.Classify` | fsm/nist_fsm.c:118-151 | A named kind is chosen only for a request of that method. "Unknown" is chosen exactly when the message is not a request for any of the seven methods |
| `Nist.FinalClassOf` | fsm/nist_fsm.c:244-253 | A 2xx event is announced as 2xx by its kind, whatever its code. Otherwise a 3xx, 4xx or 5xx status selects exactly that class, and every other status falls back to 6xx. A class other than 6xx is chosen only when the status lies in it |
| `Nist.AbortOnSendFailure` | fsm/nist_fsm.c:203-210 | After a failed send, the transaction is Terminated and the trace is the notifications already emitted, then one transport error, then one kill request. Nothing else is announced. When the earlier notifications hold no error or kill, each occurs exactly once, error before kill. New-request announcements are neither added nor removed |
| `Nist.ReceiveRequest` | fsm/nist_fsm.c:112-184 | In PreTrying, exactly one method-specific new-request notification is emitted, nothing is sent, and the state becomes Trying. On a retransmission, the trace starts with the duplicate-request notice exactly when that callback is registered. Then the stored last response is resent if there is one. With none, nothing else happens. A successful resend is announced once through the 1xx-sent callback and the transaction is unchanged. A failed resend emits only the transport error and kill, and terminates |
| `Nist.SendProvisional` | fsm/nist_fsm.c:186-215 | The response replaces the last response and is sent. On success the trace is exactly one 1xx-sent notification and the state becomes Proceeding. On failure the trace is exactly one transport error and one kill request, and the state is Terminated |
| `Nist.SendFinal` | fsm/nist_fsm.c:217-260 | The response replaces the last response and is sent. On success the trace is exactly one notification of the class `FinalClassOf` selects, and the state becomes Completed. The Timer J start becomes the current time unless the transaction was already Completed. On failure the trace is exactly one transport error and one kill request, the state is Terminated, and the timer is untouched |
| `Nist.TimerJFired` | fsm/nist_fsm.c:263-273 | The Timer J start and length become -1, the state Terminated, nothing is sent, and one kill request is emitted |
| `Nist.RunCounts` | fsm/nist_fsm.c:112-273 | From any live state, each of the four handlers requests destruction exactly when it leaves the transaction Terminated. A new request is announced only by the request handler in PreTrying, and then exactly once |
| `Nist.Step` | fsm/nist_fsm.c:32-110 | A bound event runs exactly the handler the transition list names for its state and kind. An unbound event changes nothing, so every event in Terminated is a no-op. The state never moves backwards and the original request is kept. At most one message is sent. A kill request is emitted exactly when the step terminates a live transaction. A new-request notification is emitted exactly when the step leaves PreTrying |
| `NistLemmas.TableShape` | fsm/nist_fsm.c:41-108 | The table has ten entries and none starts in Terminated. (Trying, RcvRequest) is unbound, and TimeoutJ is bound only in Completed |
| `NistLemmas.TableKeysUnique` | fsm/nist_fsm.c:41-108 | No two entries bind the same (state, event kind) pair |
| `NistLemmas.TerminatedIgnoresEverything` | fsm/nist_fsm.c:41-108 | In Terminated no event is bound and a step changes nothing |
| `NistLemmas.RunFromTerminated` | fsm/nist_fsm.c:41-108 | From Terminated, any sequence of events changes nothing and emits nothing |
| `NistLemmas.RunMovesForward` | fsm/nist_fsm.c:112-273 | Over any event sequence the state only moves forward: PreTrying, Trying, Proceeding, Completed, Terminated |
| `NistLemmas.KilledExactlyOnce` | fsm/nist_fsm.c:112-273 | Over any event sequence, destruction is requested exactly once if a live transaction ends Terminated, and never otherwise |
| `NistLemmas.NewRequestAnnouncedOnce` | fsm/nist_fsm.c:118-183 | Over any event sequence, the new-request notification is emitted exactly once if the transaction leaves PreTrying, and never otherwise. Retransmissions are never announced as new requests |
| `NistLemmas.ClassifyByMethod` | fsm/nist_fsm.c:118-151 | A request for one of the seven named methods selects that method's callback |
| `NistLemmas.FinalClassFollowsStatus` | fsm/nist_fsm.c:244-253 | When the event kind agrees with a three-digit status code, the callback's class digit is the code's first digit |
| `NistLemmas.FinalResponseIsRetransmitted` | fsm/nist_fsm.c:153-180 | From Trying, a successfully sent 2xx leads to Completed, arms Timer J with the current time and is announced once. A retransmitted request then gets that same response, the transaction is unchanged, and no new request is announced |
| `NistLemmas.SuccessfulLifecycle` | fsm/nist_fsm.c:112-273 | A fresh transaction that receives a request, sends a 2xx and then sees Timer J ends Terminated. It has sent exactly that response, and its trace is the new-request announcement, the 2xx-sent notice and one kill request, in that order |
| `NistLemmas.SecondTimerJIgnored` | fsm/nist_fsm.c:263-273 | Timer J in Completed clears the timer, terminates and requests destruction once. A second Timer J is unbound and changes nothing |
| `NistLemmas.FailedFinalSendInProceeding` | fsm/nist_fsm.c:234-240 | In Proceeding, a final response whose send fails emits exactly a transport error and a kill request, terminates, and leaves Timer J unarmed |

## Left out

- `dialog_free` and all memory management (`smalloc`, `sfree`, `msg_free`, ownership of the freed retransmission): values are immutable, so there is nothing to release. Allocation failures are the `failing` oracle.
- `dialog_is_originator` and `dialog_is_callee`: declared in `osip/dialog.h` but their bodies are not part of this model.
- Header internals (`from_compare`, `to_get_tag`, `contact_clone`, `call_id_2char`, `satoi`): their source is not part of this model. They are abstracted as address equality, `Option` tags, a copy that can only fail through the oracle, and given strings and integers. `sgetcopy` of a tag and the allocation of the route-set list (fsm/dialog.c:249, 345) are assumed not to fail. The code checks neither, so they have no error path to model.
- `MSG_IS_STATUS_*`, `MSG_IS_<METHOD>` and `EVT_IS_SND_STATUS_2XX` are macros of `osip.h`, which is not part of this model. They are modelled as a status-range test and exact method-name equality.
- Dialogs.ReplaceRemoteContact: when `contact_clone` fails, the model assumes it leaves no contact behind. `contact_clone` is outside this model, so this is an assumption.
- Dialogs.UpdateRouteSetAsUas: relies on the same assumption about a failed `contact_clone`, through `ReplaceRemoteContact`.
- Dialogs.UpdateRouteSetAsUac: relies on the same assumption about a failed `contact_clone`, through `ReplaceRemoteContact`.
- Transport: `cb_send_message`, sockets, and the host and port taken from the first Via (`atoi(via->port)`). The send outcome is the `sendResult` input, and the messages handed over are recorded in `sent`.
- The source of the generic FSM engine (the table walk in `fsm_callmethod`) is not part of this model. `Fsm.Lookup` is its assumed first-match scan over the transition list.
- The generic FSM engine's locking and its global table (`nist_get_fsm` returns the table built by `nist_load_fsm`). Dispatch is modelled only as the sequential first-match `Fsm.Lookup`, and the table is the constant `Nist.Table`.
- `time(NULL)` and the scheduler that fires Timer J: the time is the `now` input, and the TimeoutJ event arrives from outside. The Timer J length is configuration set elsewhere; only its reset to -1 is modelled.
- Concurrency, and TRACE logging of warnings and errors.
