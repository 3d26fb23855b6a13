/** The non-INVITE server transaction (NIST) of section 17.2.2 of RFC 3261:
    its transition table and its four handlers, as a pure step function from
    a transaction and an event to the next transaction, the messages sent and
    the application notifications emitted, in order. */
module Nist {
  import opened Wrappers
  import opened Sip
  import opened Fsm

  datatype State = PreTrying | Trying | Proceeding | Completed | Terminated

  /** The position of a state along PreTrying, Trying, Proceeding,
      Completed, Terminated. */
  function Rank(s: State): nat
  {
    match s
    case PreTrying => 0
    case Trying => 1
    case Proceeding => 2
    case Completed => 3
    case Terminated => 4
  }

  /** The event kinds a NIST can receive. */
  datatype EventKind = RcvRequest | SndStatus1xx | SndStatus2xx | SndStatus3456xx | TimeoutJ

  /** sipevent_t: the kind and the message it carries (unused by TimeoutJ). */
  datatype Event = Event(kind: EventKind, sip: SipMessage)

  /** The four handlers the table binds. */
  datatype Handler = OnRcvRequest | OnSnd1xx | OnSnd23456xx | OnTimeoutJ

  /** nist_load_fsm: the ten bindings, in the order they are added.
      (Trying, RcvRequest) is deliberately not bound. */
  const Table: seq<Transition<State, EventKind, Handler>> := [
    Transition(PreTrying, RcvRequest, OnRcvRequest),
    Transition(Trying, SndStatus1xx, OnSnd1xx),
    Transition(Trying, SndStatus2xx, OnSnd23456xx),
    Transition(Trying, SndStatus3456xx, OnSnd23456xx),
    Transition(Proceeding, SndStatus1xx, OnSnd1xx),
    Transition(Proceeding, SndStatus2xx, OnSnd23456xx),
    Transition(Proceeding, SndStatus3456xx, OnSnd23456xx),
    Transition(Proceeding, RcvRequest, OnRcvRequest),
    Transition(Completed, TimeoutJ, OnTimeoutJ),
    Transition(Completed, RcvRequest, OnRcvRequest)
  ]

  /** The transitions of section 17.2.2 of RFC 3261 as this implementation
      binds them, written as a decision on the state and the event kind. */
  function Binding(s: State, k: EventKind): Option<Handler>
  {
    match (s, k)
    case (PreTrying, RcvRequest) => Some(OnRcvRequest)
    case (Trying, SndStatus1xx) => Some(OnSnd1xx)
    case (Trying, SndStatus2xx) => Some(OnSnd23456xx)
    case (Trying, SndStatus3456xx) => Some(OnSnd23456xx)
    case (Proceeding, SndStatus1xx) => Some(OnSnd1xx)
    case (Proceeding, SndStatus2xx) => Some(OnSnd23456xx)
    case (Proceeding, SndStatus3456xx) => Some(OnSnd23456xx)
    case (Proceeding, RcvRequest) => Some(OnRcvRequest)
    case (Completed, TimeoutJ) => Some(OnTimeoutJ)
    case (Completed, RcvRequest) => Some(OnRcvRequest)
    case _ => None
  }

  /** The table lookup agrees with the reference decision for every state
      and event kind. */
  lemma TableIsBinding(s: State, k: EventKind)
    ensures Lookup(Table, s, k) == Binding(s, k)
  {
  }

  /** The value of a Timer J field that is not armed. */
  const TimerUnset: int := -1

  /** The part of transaction_t a NIST handler reads and writes. */
  datatype Transaction = Transaction(
    state: State,
    origRequest: SipMessage,
    lastResponse: Option<SipMessage>,
    timerJStart: int,
    timerJLength: int)

  /** Whether the application registered the optional callback announcing
      a retransmitted request (cb_nist_request_received2). */
  datatype Config = Config(retransmitCallback: bool)

  /** What the outside world supplies to one step: the current time, read
      when Timer J is armed, and the transport's answer to a send (0 for
      success, any other value is the error code). */
  datatype Env = Env(now: int, sendResult: int)

  /** Which "new request" callback announces a request. */
  datatype RequestKind = Register | Bye | Options | Info | Cancel | Notify | Subscribe | Unknown

  /** Which "final response sent" callback announces a response. */
  datatype FinalClass = Class2xx | Class3xx | Class4xx | Class5xx | Class6xx

  /** The application callbacks, as entries of an output trace. */
  datatype Notification =
    | NewRequest(kind: RequestKind, request: SipMessage)
    | RequestRetransmitted(request: SipMessage)
    | Status1xxSent(response: SipMessage)
    | FinalSent(cls: FinalClass, response: SipMessage)
    | TransportError(code: int)
    | KillTransaction

  /** The effect of one event: the next transaction, the messages handed to
      the transport and the notifications emitted. */
  datatype StepResult = StepResult(tx: Transaction, sent: seq<SipMessage>, notes: seq<Notification>)

  predicate IsKill(n: Notification) { n.KillTransaction? }
  predicate IsNewRequest(n: Notification) { n.NewRequest? }
  predicate IsTransportError(n: Notification) { n.TransportError? }

  /** The number of notifications in `notes` satisfying `p`. */
  function Count(notes: seq<Notification>, p: Notification -> bool): nat
  {
    if |notes| == 0 then 0 else (if p(notes[0]) then 1 else 0) + Count(notes[1..], p)
  }

  lemma {:induction false} CountAppend(a: seq<Notification>, b: seq<Notification>, p: Notification -> bool)
    ensures Count(a + b, p) == Count(a, p) + Count(b, p)
  {
    if |a| == 0 {
      assert a + b == b;
    } else {
      assert (a + b)[1..] == a[1..] + b;
      CountAppend(a[1..], b, p);
    }
  }

  lemma CountSingle(n: Notification, p: Notification -> bool)
    ensures Count([n], p) == (if p(n) then 1 else 0)
  {
    assert [n][1..] == [];
  }

  /** The method name that selects each "new request" callback. */
  function MethodName(k: RequestKind): string
    requires k != Unknown
  {
    match k
    case Register => "REGISTER"
    case Bye => "BYE"
    case Options => "OPTIONS"
    case Info => "INFO"
    case Cancel => "CANCEL"
    case Notify => "NOTIFY"
    case Subscribe => "SUBSCRIBE"
  }

  /** The method test cascade of nist_rcv_request. */
  function Classify(request: SipMessage): (k: RequestKind)
    ensures k != Unknown ==> IsRequestFor(request, MethodName(k))
    ensures k == Unknown <==> forall k': RequestKind :: k' != Unknown ==> !IsRequestFor(request, MethodName(k'))
  {
    if IsRequestFor(request, "REGISTER") then Register
    else if IsRequestFor(request, "BYE") then Bye
    else if IsRequestFor(request, "OPTIONS") then Options
    else if IsRequestFor(request, "INFO") then Info
    else if IsRequestFor(request, "CANCEL") then Cancel
    else if IsRequestFor(request, "NOTIFY") then Notify
    else if IsRequestFor(request, "SUBSCRIBE") then Subscribe
    else Unknown
  }

  /** The first digit of the status codes of a class. */
  function ClassDigit(c: FinalClass): int
  {
    match c
    case Class2xx => 2
    case Class3xx => 3
    case Class4xx => 4
    case Class5xx => 5
    case Class6xx => 6
  }

  /** The callback selection of nist_snd_23456xx: a 2xx event by its kind,
      otherwise by the status code of the response, 6xx being the fallback. */
  function FinalClassOf(evt: Event): (c: FinalClass)
    ensures evt.kind == SndStatus2xx ==> c == Class2xx
    ensures evt.kind != SndStatus2xx && c != Class6xx ==> InStatusClass(evt.sip, ClassDigit(c))
    ensures evt.kind != SndStatus2xx ==>
      && (InStatusClass(evt.sip, 3) ==> c == Class3xx)
      && (InStatusClass(evt.sip, 4) ==> c == Class4xx)
      && (InStatusClass(evt.sip, 5) ==> c == Class5xx)
      && (!InStatusClass(evt.sip, 3) && !InStatusClass(evt.sip, 4) && !InStatusClass(evt.sip, 5) ==> c == Class6xx)
  {
    if evt.kind == SndStatus2xx then Class2xx
    else if InStatusClass(evt.sip, 3) then Class3xx
    else if InStatusClass(evt.sip, 4) then Class4xx
    else if InStatusClass(evt.sip, 5) then Class5xx
    else Class6xx
  }

  /** A send failed with `code` after the notifications `before`: the
      transaction is terminated, and the trace is `before` followed by
      exactly one transport error and then the kill request. */
  predicate AbortedBySendFailure(r: StepResult, before: seq<Notification>, code: int)
  {
    && r.tx.state == Terminated
    && r.notes == before + [TransportError(code), KillTransaction]
  }

  /** The tail shared by the three sending handlers when the send fails:
      nothing is announced but the transport error, and no notification
      already emitted is a transport error or a kill, so each occurs once. */
  function AbortOnSendFailure(tx: Transaction, sent: seq<SipMessage>, before: seq<Notification>, code: int): (r: StepResult)
    ensures AbortedBySendFailure(r, before, code)
    ensures r.tx == tx.(state := Terminated) && r.sent == sent
    ensures Count(before, IsKill) == 0 && Count(before, IsTransportError) == 0 ==>
      && Count(r.notes, IsKill) == 1
      && Count(r.notes, IsTransportError) == 1
      && r.notes[|r.notes| - 2].TransportError? && r.notes[|r.notes| - 1].KillTransaction?
    ensures Count(r.notes, IsNewRequest) == Count(before, IsNewRequest)
  {
    FailureTailCounts(before, code);
    StepResult(tx.(state := Terminated), sent, before + [TransportError(code), KillTransaction])
  }

  /** What each kind of notification adds to the counts of a trace ending
      in a failed send. */
  lemma FailureTailCounts(before: seq<Notification>, code: int)
    ensures Count(before + [TransportError(code), KillTransaction], IsKill) == Count(before, IsKill) + 1
    ensures Count(before + [TransportError(code), KillTransaction], IsTransportError) == Count(before, IsTransportError) + 1
    ensures Count(before + [TransportError(code), KillTransaction], IsNewRequest) == Count(before, IsNewRequest)
  {
    var tail := [TransportError(code), KillTransaction];
    assert tail == [TransportError(code)] + [KillTransaction];
    CountSingle(TransportError(code), IsKill);
    CountSingle(TransportError(code), IsTransportError);
    CountSingle(TransportError(code), IsNewRequest);
    CountSingle(KillTransaction, IsKill);
    CountSingle(KillTransaction, IsTransportError);
    CountSingle(KillTransaction, IsNewRequest);
    CountAppend([TransportError(code)], [KillTransaction], IsKill);
    CountAppend([TransportError(code)], [KillTransaction], IsTransportError);
    CountAppend([TransportError(code)], [KillTransaction], IsNewRequest);
    CountAppend(before, tail, IsKill);
    CountAppend(before, tail, IsTransportError);
    CountAppend(before, tail, IsNewRequest);
  }

  /** The duplicate-request notice, emitted first on a retransmission when
      the application registered cb_nist_request_received2. */
  function RetransmitNotice(cfg: Config, tx: Transaction): seq<Notification>
  {
    if cfg.retransmitCallback then [RequestRetransmitted(tx.origRequest)] else []
  }

  /** nist_rcv_request. In PreTrying the request is announced once, by
      method, and the transaction moves to Trying. Otherwise it is a
      retransmission: the optional duplicate notice fires, then the last
      response, if any, is sent again and announced once, and the state is
      kept, unless that send fails. */
  function ReceiveRequest(cfg: Config, tx: Transaction, evt: Event, env: Env): (r: StepResult)
    ensures tx.state == PreTrying ==>
      && r.tx == tx.(state := Trying)
      && r.sent == []
      && r.notes == [NewRequest(Classify(evt.sip), tx.origRequest)]
    ensures tx.state != PreTrying ==>
      && r.sent == OptionToSeq(tx.lastResponse)
      && r.tx.(state := tx.state) == tx
      && (|r.notes| >= 1 && r.notes[0].RequestRetransmitted? <==> cfg.retransmitCallback)
    ensures tx.state != PreTrying && tx.lastResponse.None? ==>
      r.tx == tx && r.notes == RetransmitNotice(cfg, tx)
    ensures tx.state != PreTrying && tx.lastResponse.Some? && env.sendResult == 0 ==>
      r.tx == tx && r.notes == RetransmitNotice(cfg, tx) + [Status1xxSent(tx.lastResponse.value)]
    ensures tx.state != PreTrying && tx.lastResponse.Some? && env.sendResult != 0 ==>
      AbortedBySendFailure(r, RetransmitNotice(cfg, tx), env.sendResult)
  {
    if tx.state == PreTrying then
      StepResult(tx.(state := Trying), [], [NewRequest(Classify(evt.sip), tx.origRequest)])
    else
      var notice := RetransmitNotice(cfg, tx);
      match tx.lastResponse
      case None => StepResult(tx, [], notice)
      case Some(response) =>
        if env.sendResult != 0 then AbortOnSendFailure(tx, [response], notice, env.sendResult)
        else StepResult(tx, [response], notice + [Status1xxSent(response)])
  }

  /** nist_snd_1xx: the provisional response replaces the last response and
      is sent; on success it is announced once and the transaction is
      Proceeding, on failure nothing but the transport error is announced. */
  function SendProvisional(tx: Transaction, evt: Event, env: Env): (r: StepResult)
    ensures r.tx == tx.(lastResponse := Some(evt.sip), state := r.tx.state)
    ensures r.sent == [evt.sip]
    ensures env.sendResult == 0 ==> r.tx.state == Proceeding && r.notes == [Status1xxSent(evt.sip)]
    ensures env.sendResult != 0 ==> AbortedBySendFailure(r, [], env.sendResult)
  {
    var stored := tx.(lastResponse := Some(evt.sip));
    if env.sendResult != 0 then AbortOnSendFailure(stored, [evt.sip], [], env.sendResult)
    else StepResult(stored.(state := Proceeding), [evt.sip], [Status1xxSent(evt.sip)])
  }

  /** nist_snd_23456xx: the final response replaces the last response and is
      sent; on success the class-specific callback fires, Timer J is armed
      unless the transaction was already Completed, and it becomes Completed.
      A failed send announces nothing but the transport error and arms
      nothing. */
  function SendFinal(tx: Transaction, evt: Event, env: Env): (r: StepResult)
    ensures r.tx == tx.(lastResponse := Some(evt.sip), state := r.tx.state, timerJStart := r.tx.timerJStart)
    ensures r.sent == [evt.sip]
    ensures env.sendResult == 0 ==>
      && r.tx.state == Completed
      && r.notes == [FinalSent(FinalClassOf(evt), evt.sip)]
      && r.tx.timerJStart == (if tx.state == Completed then tx.timerJStart else env.now)
    ensures env.sendResult != 0 ==> AbortedBySendFailure(r, [], env.sendResult) && r.tx.timerJStart == tx.timerJStart
  {
    var stored := tx.(lastResponse := Some(evt.sip));
    if env.sendResult != 0 then AbortOnSendFailure(stored, [evt.sip], [], env.sendResult)
    else
      var armed := if tx.state != Completed then stored.(timerJStart := env.now) else stored;
      StepResult(armed.(state := Completed), [evt.sip], [FinalSent(FinalClassOf(evt), evt.sip)])
  }

  /** nist_timeout_j_event: Timer J is cleared, the transaction terminates and
      its destruction is requested; nothing is sent. */
  function TimerJFired(tx: Transaction): (r: StepResult)
    ensures r.tx.state == Terminated && r.tx.timerJStart == TimerUnset && r.tx.timerJLength == TimerUnset
    ensures r.tx.(state := tx.state, timerJStart := tx.timerJStart, timerJLength := tx.timerJLength) == tx
    ensures r.sent == [] && r.notes == [KillTransaction]
  {
    StepResult(tx.(timerJLength := TimerUnset, timerJStart := TimerUnset, state := Terminated), [], [KillTransaction])
  }

  /** Invoke one handler. */
  function Run(h: Handler, cfg: Config, tx: Transaction, evt: Event, env: Env): StepResult
  {
    match h
    case OnRcvRequest() => ReceiveRequest(cfg, tx, evt, env)
    case OnSnd1xx() => SendProvisional(tx, evt, env)
    case OnSnd23456xx() => SendFinal(tx, evt, env)
    case OnTimeoutJ() => TimerJFired(tx)
  }

  /** From a live state, a handler requests destruction exactly when it
      terminates the transaction, and only the request handler in PreTrying
      announces a new request. */
  lemma RunCounts(h: Handler, cfg: Config, tx: Transaction, evt: Event, env: Env)
    requires tx.state != Terminated
    ensures var r := Run(h, cfg, tx, evt, env);
      && Count(r.notes, IsKill) == (if r.tx.state == Terminated then 1 else 0)
      && Count(r.notes, IsNewRequest) == (if h == OnRcvRequest && tx.state == PreTrying then 1 else 0)
  {
    var r := Run(h, cfg, tx, evt, env);
    var notice := RetransmitNotice(cfg, tx);
    assert Count(notice, IsKill) == 0 && Count(notice, IsTransportError) == 0 && Count(notice, IsNewRequest) == 0 by {
      if cfg.retransmitCallback {
        CountSingle(RequestRetransmitted(tx.origRequest), IsKill);
        CountSingle(RequestRetransmitted(tx.origRequest), IsTransportError);
        CountSingle(RequestRetransmitted(tx.origRequest), IsNewRequest);
      }
    }
    match h
    case OnRcvRequest() =>
      if tx.state == PreTrying {
        CountSingle(NewRequest(Classify(evt.sip), tx.origRequest), IsKill);
        CountSingle(NewRequest(Classify(evt.sip), tx.origRequest), IsNewRequest);
      } else if tx.lastResponse.Some? && env.sendResult == 0 {
        var response := tx.lastResponse.value;
        CountSingle(Status1xxSent(response), IsKill);
        CountSingle(Status1xxSent(response), IsNewRequest);
        CountAppend(notice, [Status1xxSent(response)], IsKill);
        CountAppend(notice, [Status1xxSent(response)], IsNewRequest);
      } else if tx.lastResponse.Some? {
        FailureTailCounts(notice, env.sendResult);
      }
    case OnSnd1xx() =>
      if env.sendResult == 0 {
        CountSingle(Status1xxSent(evt.sip), IsKill);
        CountSingle(Status1xxSent(evt.sip), IsNewRequest);
      } else {
        FailureTailCounts([], env.sendResult);
      }
    case OnSnd23456xx() =>
      if env.sendResult == 0 {
        CountSingle(FinalSent(FinalClassOf(evt), evt.sip), IsKill);
        CountSingle(FinalSent(FinalClassOf(evt), evt.sip), IsNewRequest);
      } else {
        FailureTailCounts([], env.sendResult);
      }
    case OnTimeoutJ() =>
      CountSingle(KillTransaction, IsKill);
      CountSingle(KillTransaction, IsNewRequest);
  }

  /** The engine applied to the NIST table: look up the handler bound to the
      event in the current state and run it; an unbound event is ignored. */
  function Step(cfg: Config, tx: Transaction, evt: Event, env: Env): (r: StepResult)
    ensures Lookup(Table, tx.state, evt.kind).None? ==> r == StepResult(tx, [], [])
    ensures Binding(tx.state, evt.kind).Some? ==> r == Run(Binding(tx.state, evt.kind).value, cfg, tx, evt, env)
    ensures tx.state == Terminated ==> r == StepResult(tx, [], [])
    ensures Rank(tx.state) <= Rank(r.tx.state)
    ensures r.tx.origRequest == tx.origRequest
    ensures |r.sent| <= 1
    ensures Count(r.notes, IsKill) == (if tx.state != Terminated && r.tx.state == Terminated then 1 else 0)
    ensures Count(r.notes, IsNewRequest) == (if tx.state == PreTrying && r.tx.state != PreTrying then 1 else 0)
  {
    TableIsBinding(tx.state, evt.kind);
    match Lookup(Table, tx.state, evt.kind)
    case None => StepResult(tx, [], [])
    case Some(h) =>
      RunCounts(h, cfg, tx, evt, env);
      Run(h, cfg, tx, evt, env)
  }
}
