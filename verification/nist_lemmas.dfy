/** Properties of the NIST model: the shape of its transition table and
    safety facts that hold over every sequence of events. */
module NistLemmas {
  import opened Wrappers
  import opened Sip
  import opened Fsm
  import opened Nist

  /** One event together with what the environment answers while it is
      handled. */
  datatype Input = Input(evt: Event, env: Env)

  /** Feed a sequence of events to a transaction, one at a time, collecting
      everything sent and every notification in order. */
  function RunAll(cfg: Config, tx: Transaction, inputs: seq<Input>): StepResult
    decreases |inputs|
  {
    if |inputs| == 0 then StepResult(tx, [], [])
    else
      var first := Step(cfg, tx, inputs[0].evt, inputs[0].env);
      var rest := RunAll(cfg, first.tx, inputs[1..]);
      StepResult(rest.tx, first.sent + rest.sent, first.notes + rest.notes)
  }

  /** The table has ten entries, none leaving Terminated, no two for the
      same pair, (Trying, RcvRequest) unbound, and TimeoutJ bound only in
      Completed. */
  lemma TableShape(s: State)
    ensures |Table| == 10
    ensures forall i :: 0 <= i < |Table| ==> Table[i].state != Terminated
    ensures Lookup(Table, Trying, RcvRequest).None?
    ensures Lookup(Table, s, TimeoutJ).Some? <==> s == Completed
  {
    forall i | 0 <= i < |Table|
      ensures Table[i].state != Terminated
    {
      assert Table[i].state != Terminated;
    }
    assert Lookup(Table, Trying, RcvRequest).None? by {
      TableIsBinding(Trying, RcvRequest);
    }
    assert Lookup(Table, s, TimeoutJ).Some? <==> s == Completed by {
      TableIsBinding(s, TimeoutJ);
    }
  }

  /** No two entries bind the same pair, so the first-match scan behaves as
      a map keyed by (state, event kind). */
  lemma TableKeysUnique()
    ensures KeysUnique(Table)
  {
    forall i, j | 0 <= i < j < |Table|
      ensures !Binds(Table[j], Table[i].state, Table[i].kind)
    {
      assert Table[i].state != Table[j].state || Table[i].kind != Table[j].kind;
    }
  }

  /** Every event is ignored once the transaction is terminated. */
  lemma TerminatedIgnoresEverything(cfg: Config, tx: Transaction, evt: Event, env: Env)
    requires tx.state == Terminated
    ensures Lookup(Table, tx.state, evt.kind).None?
    ensures Step(cfg, tx, evt, env) == StepResult(tx, [], [])
  {
    TableIsBinding(tx.state, evt.kind);
  }

  lemma {:induction false} RunFromTerminated(cfg: Config, tx: Transaction, inputs: seq<Input>)
    requires tx.state == Terminated
    ensures RunAll(cfg, tx, inputs) == StepResult(tx, [], [])
    decreases |inputs|
  {
    if |inputs| > 0 {
      RunFromTerminated(cfg, tx, inputs[1..]);
    }
  }

  /** States only move forward along PreTrying, Trying, Proceeding,
      Completed, Terminated. */
  lemma {:induction false} RunMovesForward(cfg: Config, tx: Transaction, inputs: seq<Input>)
    ensures Rank(tx.state) <= Rank(RunAll(cfg, tx, inputs).tx.state)
    decreases |inputs|
  {
    if |inputs| > 0 {
      var first := Step(cfg, tx, inputs[0].evt, inputs[0].env);
      RunMovesForward(cfg, first.tx, inputs[1..]);
    }
  }

  /** Over any sequence of events the destruction of the transaction is
      requested exactly once if it ends terminated having started alive, and
      never otherwise. */
  lemma {:induction false} KilledExactlyOnce(cfg: Config, tx: Transaction, inputs: seq<Input>)
    ensures var r := RunAll(cfg, tx, inputs);
      Count(r.notes, IsKill) == (if tx.state != Terminated && r.tx.state == Terminated then 1 else 0)
    decreases |inputs|
  {
    if |inputs| > 0 {
      var first := Step(cfg, tx, inputs[0].evt, inputs[0].env);
      var rest := RunAll(cfg, first.tx, inputs[1..]);
      CountAppend(first.notes, rest.notes, IsKill);
      if first.tx.state == Terminated {
        RunFromTerminated(cfg, first.tx, inputs[1..]);
      } else {
        KilledExactlyOnce(cfg, first.tx, inputs[1..]);
      }
    }
  }

  /** Over any sequence of events the application hears of the new request
      exactly once if the transaction leaves PreTrying, and never otherwise:
      retransmissions are never announced as new requests. */
  lemma {:induction false} NewRequestAnnouncedOnce(cfg: Config, tx: Transaction, inputs: seq<Input>)
    ensures var r := RunAll(cfg, tx, inputs);
      Count(r.notes, IsNewRequest) == (if tx.state == PreTrying && r.tx.state != PreTrying then 1 else 0)
    decreases |inputs|
  {
    if |inputs| > 0 {
      var first := Step(cfg, tx, inputs[0].evt, inputs[0].env);
      var rest := RunAll(cfg, first.tx, inputs[1..]);
      CountAppend(first.notes, rest.notes, IsNewRequest);
      NewRequestAnnouncedOnce(cfg, first.tx, inputs[1..]);
      RunMovesForward(cfg, first.tx, inputs[1..]);
    }
  }

  /** Every named method selects its own callback; any other method, and
      anything that is not a request, selects the "unknown" one. */
  lemma ClassifyByMethod(request: SipMessage, k: RequestKind)
    requires k != Unknown && IsRequestFor(request, MethodName(k))
    ensures Classify(request) == k
  {
  }

  /** The final-response callback follows the status class whenever the
      event kind agrees with the status code of a three-digit response. */
  lemma FinalClassFollowsStatus(evt: Event)
    requires evt.sip.startLine.StatusLine? && 200 <= evt.sip.startLine.code <= 699
    requires evt.kind == SndStatus2xx <==> evt.sip.startLine.code < 300
    ensures ClassDigit(FinalClassOf(evt)) == evt.sip.startLine.code / 100
  {
  }

  /** From Trying, a 2xx that is sent completes the transaction, arms
      Timer J with the current time and is announced once; a retransmitted
      request then gets that very response again and no new-request notice. */
  lemma FinalResponseIsRetransmitted(cfg: Config, tx: Transaction, response: SipMessage, dup: SipMessage, t1: int, t2: int)
    requires tx.state == Trying
    ensures var done := Step(cfg, tx, Event(SndStatus2xx, response), Env(t1, 0));
      && done.tx.state == Completed
      && done.tx.timerJStart == t1
      && done.notes == [FinalSent(Class2xx, response)]
      && var again := Step(cfg, done.tx, Event(RcvRequest, dup), Env(t2, 0));
         && again.tx == done.tx
         && again.sent == [response]
         && Count(again.notes, IsNewRequest) == 0
  {
    var evt := Event(SndStatus2xx, response);
    TableIsBinding(Trying, SndStatus2xx);
    var done := Step(cfg, tx, evt, Env(t1, 0));
    assert done == SendFinal(tx, evt, Env(t1, 0));
    TableIsBinding(Completed, RcvRequest);
    var again := Step(cfg, done.tx, Event(RcvRequest, dup), Env(t2, 0));
    assert again == ReceiveRequest(cfg, done.tx, Event(RcvRequest, dup), Env(t2, 0));
  }

  /** A whole successful life: a first request, a 2xx sent and Timer J take
      a fresh transaction to Terminated, announcing the request, the final
      response and the destruction, in that order. */
  lemma {:induction false} SuccessfulLifecycle(cfg: Config, tx: Transaction, request: SipMessage, response: SipMessage, t0: int, t1: int, t2: int)
    requires tx.state == PreTrying
    ensures var r := RunAll(cfg, tx, [Input(Event(RcvRequest, request), Env(t0, 0)),
                                      Input(Event(SndStatus2xx, response), Env(t1, 0)),
                                      Input(Event(TimeoutJ, response), Env(t2, 0))]);
      && r.tx.state == Terminated
      && r.tx.lastResponse == Some(response)
      && r.sent == [response]
      && r.notes == [NewRequest(Classify(request), tx.origRequest), FinalSent(Class2xx, response), KillTransaction]
  {
    var inputs := [Input(Event(RcvRequest, request), Env(t0, 0)),
                   Input(Event(SndStatus2xx, response), Env(t1, 0)),
                   Input(Event(TimeoutJ, response), Env(t2, 0))];
    TableIsBinding(PreTrying, RcvRequest);
    var s1 := Step(cfg, tx, inputs[0].evt, inputs[0].env);
    assert s1.tx == tx.(state := Trying) && s1.notes == [NewRequest(Classify(request), tx.origRequest)];
    TableIsBinding(Trying, SndStatus2xx);
    var s2 := Step(cfg, s1.tx, inputs[1].evt, inputs[1].env);
    assert s2.tx.state == Completed && s2.sent == [response] && s2.notes == [FinalSent(Class2xx, response)];
    TableIsBinding(Completed, TimeoutJ);
    var s3 := Step(cfg, s2.tx, inputs[2].evt, inputs[2].env);
    assert s3.tx.state == Terminated && s3.sent == [] && s3.notes == [KillTransaction];
    assert inputs[1..][1..][1..] == [];
    var r3 := RunAll(cfg, s3.tx, []);
    var r2 := RunAll(cfg, s2.tx, inputs[1..][1..]);
    assert r2 == StepResult(s3.tx, s3.sent + r3.sent, s3.notes + r3.notes);
    var r1 := RunAll(cfg, s1.tx, inputs[1..]);
    assert r1 == StepResult(r2.tx, s2.sent + r2.sent, s2.notes + r2.notes);
  }

  /** Timer J terminates a completed transaction and requests its
      destruction once; a second firing is not bound and changes nothing. */
  lemma SecondTimerJIgnored(cfg: Config, tx: Transaction, evt: Event, env1: Env, env2: Env)
    requires tx.state == Completed && evt.kind == TimeoutJ
    ensures var fired := Step(cfg, tx, evt, env1);
      && fired.tx.state == Terminated
      && fired.tx.timerJStart == TimerUnset && fired.tx.timerJLength == TimerUnset
      && fired.notes == [KillTransaction]
      && Step(cfg, fired.tx, evt, env2) == StepResult(fired.tx, [], [])
  {
    TableIsBinding(Completed, TimeoutJ);
  }

  /** In Proceeding, a final response whose send fails reports one transport
      error, terminates, requests destruction and leaves Timer J unarmed. */
  lemma FailedFinalSendInProceeding(cfg: Config, tx: Transaction, response: SipMessage, env: Env)
    requires tx.state == Proceeding && env.sendResult != 0
    ensures var r := Step(cfg, tx, Event(SndStatus3456xx, response), env);
      && r.tx.state == Terminated
      && r.notes == [TransportError(env.sendResult), KillTransaction]
      && r.tx.timerJStart == tx.timerJStart
  {
    TableIsBinding(Proceeding, SndStatus3456xx);
  }
}
