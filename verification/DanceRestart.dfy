/** Without timeliness the dance can start again on the NET it has just failed with: when an answer
    overtakes the message about its own request, when the daemon is shutting down as the request
    is to be made, and when there is no memory for its record, the status is left good and nobody
    dances. */
module DanceRestart {
  import opened Collections
  import opened SeqNo
  import Decimal
  import X = Exchange
  import opened Dance
  import DanceOnce

  ghost predicate Reachable(n: nat, m: nat, s: State) {
    exists acts :: Legal(Init(n, m), acts) && Run(Init(n, m), acts) == s
  }

  lemma {:induction false} RunAppend(s: State, acts: seq<Action>, a: Action)
    requires Legal(s, acts) && Enabled(Run(s, acts), a)
    ensures Legal(s, acts + [a]) && Run(s, acts + [a]) == Apply(Run(s, acts), a)
    decreases |acts|
  {
    if acts == [] {
      assert [] + [a] == [a] && [a][1..] == [];
    } else {
      assert (acts + [a])[1..] == acts[1..] + [a];
      RunAppend(Apply(s, acts[0]), acts[1..], a);
    }
  }

  lemma ReachStep(n: nat, m: nat, s: State, a: Action)
    requires Reachable(n, m, s) && Enabled(s, a)
    ensures Reachable(n, m, Apply(s, a))
  {
    var acts :| Legal(Init(n, m), acts) && Run(Init(n, m), acts) == s;
    RunAppend(Init(n, m), acts, a);
  }

  const SOME_NET: Net := Net(1, true, Some("initial"), Some("redirect"), Some(7), Some(4), NoWhen)
  const SOME_KEY: Key := Key(1, 0)
  const PULLER: nat := 7

  function Plain(): Choice { Choice(true, true, 0, 0, true, Missing, Granted(SOME_KEY)) }

  /** Where threads 0 and 1 are, with the NET installed and the lock free. */
  ghost predicate Scene(s: State, pc0: Pc, pc1: Pc, dancing: bool, log: seq<Event>) {
    && |s.pcs| >= 2 && |s.x.hands| == |s.pcs|
    && s.pcs[0] == pc0 && s.pcs[1] == pc1
    && s.running && s.sh.lock == None && s.sh.net == Some(SOME_NET) && s.sh.dancing == dancing
    && s.log == log
  }

  /** The exchange is empty and its first worker idle. */
  ghost predicate Empty(x: X.State) {
    && x.waiting == [] && x.out == [] && x.pulls == []
    && |x.workers| > 0 && x.workers[0] == X.Idle && |x.hands| >= 2 && x.hands[0].Free? && x.hands[1].Free?
    && SOME_KEY !in x.hist.accepted && PULLER !in x.hist.closed
  }

  lemma ReachRest(n: nat, m: nat) returns (s: State)
    requires n > 0 && m > 1
    ensures Reachable(n, m, s) && Empty(s.x) && s.sh.current.status == Ok
    ensures Scene(s, Idle, Idle, false, [Installed(SOME_NET)])
  {
    s := Init(n, m);
    assert Run(s, []) == s;
    ReachStep(n, m, s, SetNet(0, SOME_NET));
    s := Apply(s, SetNet(0, SOME_NET));
    assert s.pcs[0] == Describe(SOME_NET);
    s := FinishSetting(n, m, s);
  }

  lemma FinishSetting(n: nat, m: nat, s0: State) returns (s: State)
    requires Reachable(n, m, s0) && Empty(s0.x) && |s0.pcs| >= 2 && |s0.x.hands| == |s0.pcs|
    requires s0.pcs[0] == Describe(SOME_NET) && s0.pcs[1] == Idle && s0.running && !s0.sh.dancing
    requires s0.sh.net == Some(SOME_NET) && s0.log == [Installed(SOME_NET)]
    ensures Reachable(n, m, s) && Empty(s.x) && s.sh.current.status == Ok
    ensures Scene(s, Idle, Idle, false, [Installed(SOME_NET)])
  {
    ReachStep(n, m, s0, NetStep(0, Plain()));
    var s1 := Apply(s0, NetStep(0, Plain()));
    assert s1.pcs[0] == Ready(SOME_NET) && s1.x == s0.x;
    s := FinishReady(n, m, s1);
  }

  lemma FinishReady(n: nat, m: nat, s0: State) returns (s: State)
    requires Reachable(n, m, s0) && Empty(s0.x) && |s0.pcs| >= 2 && |s0.x.hands| == |s0.pcs|
    requires s0.pcs[0] == Ready(SOME_NET) && s0.pcs[1] == Idle && s0.running && !s0.sh.dancing
    requires s0.sh.net == Some(SOME_NET) && s0.log == [Installed(SOME_NET)]
    ensures Reachable(n, m, s) && Empty(s.x) && s.sh.current.status == Ok
    ensures Scene(s, Idle, Idle, false, [Installed(SOME_NET)])
  {
    ReachStep(n, m, s0, NetStep(0, Plain()));
    s := Apply(s0, NetStep(0, Plain()));
    assert s.pcs[0] == Release(SOME_NET);
    ReachStep(n, m, s, NetStep(0, Plain()));
    s := Apply(s, NetStep(0, Plain()));
  }

  /** A step of thread 0 that does not touch the exchange. */
  lemma ThreadZeroSteps(n: nat, m: nat, s0: State, pc0: Pc, pc1: Pc, dancing: bool, log: seq<Event>) returns (s: State)
    requires Reachable(n, m, s0) && Scene(s0, pc0, pc1, dancing, log)
    requires Stepping(pc0, Some(SOME_NET)) && !pc0.Ask?
    ensures var e := Next(pc0, Plain(), true, Some(SOME_NET));
            && Reachable(n, m, s) && s.x == s0.x
            && Scene(s, e.pc, pc1, dancing && !Leaving(pc0), if e.event.Some? then log + [e.event.value] else log)
            && (e.note == None ==> s.sh.current == s0.sh.current)
            && (e.note == Some(Good(Starting)) || e.note == Some(Good(RequestSent(Initial))) ==>
                  s.sh.current.status == Ok)
  {
    ReachStep(n, m, s0, Step(0, Plain()));
    s := Apply(s0, Step(0, Plain()));
  }

  const STARTED: seq<Event> := [Installed(SOME_NET), Started(SOME_NET)]

  lemma ReachStarted(n: nat, m: nat) returns (s: State)
    requires n > 0 && m > 1
    ensures Reachable(n, m, s) && Empty(s.x) && Scene(s, CheckTime, Idle, true, STARTED)
  {
    s := ReachRest(n, m);
    ReachStep(n, m, s, Poll(0));
    s := Apply(s, Poll(0));
  }

  lemma ReachAnnounce(n: nat, m: nat) returns (s: State)
    requires n > 0 && m > 1
    ensures Reachable(n, m, s) && Empty(s.x) && Scene(s, Announce, Idle, true, STARTED)
  {
    s := ReachStarted(n, m);
    s := ThreadZeroSteps(n, m, s, CheckTime, Idle, true, STARTED);
  }

  lemma ReachGateway(n: nat, m: nat) returns (s: State)
    requires n > 0 && m > 1
    ensures Reachable(n, m, s) && Empty(s.x) && Scene(s, Gateway(Initial, true), Idle, true, STARTED)
    ensures s.sh.current.status == Ok
  {
    s := ReachAnnounce(n, m);
    s := ThreadZeroSteps(n, m, s, Announce, Idle, true, STARTED);
  }

  lemma ReachAsk(n: nat, m: nat) returns (s: State)
    requires n > 0 && m > 1
    ensures Reachable(n, m, s) && Empty(s.x)
    ensures Scene(s, Ask(Initial, "initial", true), Idle, true, STARTED) && s.sh.current.status == Ok
  {
    s := ReachGateway(n, m);
    s := ThreadZeroSteps(n, m, s, Gateway(Initial, true), Idle, true, STARTED);
  }

  const ASKED: seq<Event> := [Installed(SOME_NET), Started(SOME_NET), Asked(Initial, "initial")]

  /** Thread 0 has put the initial request into the exchange and not yet said so. */
  lemma ReachSent(n: nat, m: nat) returns (s: State)
    requires n > 0 && m > 1
    ensures Reachable(n, m, s) && Scene(s, Sent(Initial, true), Idle, true, ASKED)
    ensures s.x.waiting == [X.Req(SOME_KEY, X.InitialAnswer, 0)] && s.x.out == [] && s.x.pulls == []
    ensures |s.x.workers| > 0 && s.x.workers[0] == X.Idle && s.x.hands[1].Free? && PULLER !in s.x.hist.closed
  {
    s := ReachAsk(n, m);
    ReachStep(n, m, s, Step(0, Plain()));
    s := Apply(s, Step(0, Plain()));
  }

  /** An exchange step that leaves the threads alone. */
  lemma ExchangeSteps(n: nat, m: nat, s0: State, a: X.Action) returns (s: State)
    requires Reachable(n, m, s0) && X.Enabled(s0.x, a)
    requires a.Pull? || a.Dequeue? || a.Pair? || a.Publish?
    ensures Reachable(n, m, s) && s.x == X.Apply(s0.x, a) && s.pcs == s0.pcs && s.sh == s0.sh
    ensures s.running == s0.running && s.log == s0.log
  {
    ReachStep(n, m, s0, Other(a));
    s := Apply(s0, Other(a));
  }

  lemma ReachForwarded(n: nat, m: nat) returns (s: State)
    requires n > 0 && m > 1
    ensures Reachable(n, m, s) && Scene(s, Sent(Initial, true), Idle, true, ASKED)
    ensures s.x.out == [X.Req(SOME_KEY, X.InitialAnswer, PULLER)] && s.x.hands[1].Free?
  {
    s := ReachSent(n, m);
    s := ExchangeSteps(n, m, s, X.Pull(PULLER));
    s := ExchangeSteps(n, m, s, X.Dequeue(0));
    s := ExchangeSteps(n, m, s, X.Pair(0));
    s := ExchangeSteps(n, m, s, X.Publish(0));
  }

  lemma EchoIsFound(r: X.Req, code: string, text: string)
    requires code != "" && text != "" && r.key.id < BOUND && r.key.reqid < BOUND
    ensures X.Find([r], X.Push(code, text, PrintSeqNo(r.key))) == X.Found(0)
  {
    SeqNoRoundTrip(r.key);
  }

  lemma NoNumber()
    ensures Decimal.Atoi("x") == 0
  {
    assert Decimal.Run("x") == 0;
  }

  lemma FailedPush() returns (push: X.Push)
    ensures X.Find([X.Req(SOME_KEY, X.InitialAnswer, PULLER)], push) == X.Found(0)
    ensures Decimal.Atoi(push.httpcode) != 200
  {
    push := X.Push("x", "error", PrintSeqNo(SOME_KEY));
    EchoIsFound(X.Req(SOME_KEY, X.InitialAnswer, PULLER), "x", "error");
    NoNumber();
  }

  lemma ReachAnswered(n: nat, m: nat) returns (s: State, code: int, text: string)
    requires n > 0 && m > 1
    ensures Reachable(n, m, s) && Scene(s, Sent(Initial, true), Answered(Initial, code, text), true, ASKED)
    ensures code != 200 && s.x.hands[1].Pushing?
  {
    s := ReachForwarded(n, m);
    var push := FailedPush();
    ReachStep(n, m, s, TakeAnswer(1, push));
    s := Apply(s, TakeAnswer(1, push));
    code, text := Decimal.Atoi(push.httpcode), push.httptext;
  }

  const SAT_DOWN: seq<Event> := ASKED + [Ended]

  lemma ReachLeaving(n: nat, m: nat) returns (s: State)
    requires n > 0 && m > 1
    ensures Reachable(n, m, s) && Scene(s, Sent(Initial, true), Leave(false), true, ASKED)
    ensures s.x.hands[1].Pushing?
  {
    var code, text;
    s, code, text := ReachAnswered(n, m);
    ReachStep(n, m, s, Step(1, Plain()));
    s := Apply(s, Step(1, Plain()));
  }

  /** Thread 1 has answered with a failure and sat down; thread 0 is still about to report. */
  lemma ReachSatDown(n: nat, m: nat) returns (s: State)
    requires n > 0 && m > 1
    ensures Reachable(n, m, s) && Scene(s, Sent(Initial, true), Return, false, SAT_DOWN)
    ensures s.x.hands[1].Pushing?
  {
    s := ReachLeaving(n, m);
    ReachStep(n, m, s, Step(1, Plain()));
    s := Apply(s, Step(1, Plain()));
  }

  /** Now it reports, and the status is good again. */
  lemma ReachGoodStatus(n: nat, m: nat) returns (s: State)
    requires n > 0 && m > 1
    ensures Reachable(n, m, s) && Scene(s, Reply, Idle, false, SAT_DOWN)
    ensures s.x.hands[1].Free? && s.sh.current.status == Ok
  {
    s := ReachSatDown(n, m);
    s := ThreadZeroSteps(n, m, s, Sent(Initial, true), Return, false, SAT_DOWN);
    ReachStep(n, m, s, EndPush(1));
    s := Apply(s, EndPush(1));
  }

  lemma TwoStarts(log: seq<Event>)
    requires log == SAT_DOWN + [Started(SOME_NET)]
    ensures !DanceOnce.Separated(log)
  {
    assert log[1].Started? && log[4].Started?;
    assert !log[2].Installed? && !log[3].Installed?;
  }

  /** The dance has started twice on one NET. */
  lemma OvertakingAnswerRestarts(n: nat, m: nat)
    requires n > 0 && m > 1
    ensures exists s ::
              && Reachable(n, m, s)
              && s.log == [Installed(SOME_NET), Started(SOME_NET), Asked(Initial, "initial"), Ended, Started(SOME_NET)]
              && !DanceOnce.Separated(s.log)
  {
    var s := ReachGoodStatus(n, m);
    ReachStep(n, m, s, Poll(1));
    s := Apply(s, Poll(1));
    TwoStarts(s.log);
  }

  // ---------------------------------------------------------------- the two other ways

  const NOT_ASKED: seq<Event> := STARTED + [Ended]

  /** Nobody dances, the status is good, and thread 1 is free to poll. */
  ghost predicate Over(s: State) {
    && |s.pcs| >= 2 && |s.x.hands| == |s.pcs| && s.pcs[1] == Idle && s.x.hands[1].Free?
    && s.sh.lock == None && s.sh.net == Some(SOME_NET) && !s.sh.dancing && s.sh.current.status == Ok
    && s.log == NOT_ASKED
  }

  lemma PollAgain(n: nat, m: nat, s0: State) returns (s: State)
    requires Reachable(n, m, s0) && Over(s0)
    ensures Reachable(n, m, s) && s.log == NOT_ASKED + [Started(SOME_NET)] && !DanceOnce.Separated(s.log)
    ensures s.running == s0.running
  {
    ReachStep(n, m, s0, Poll(1));
    s := Apply(s0, Poll(1));
    assert s.log[1].Started? && s.log[3].Started?;
    assert !s.log[2].Installed?;
  }

  lemma ReachSlipLeave(n: nat, m: nat) returns (s: State)
    requires n > 0 && m > 1
    ensures Reachable(n, m, s) && |s.pcs| >= 2 && |s.x.hands| == |s.pcs|
    ensures s.pcs[0] == SlipLeave(Initial, true) && s.pcs[1] == Idle && s.x.hands[1].Free?
    ensures s.sh.lock == None && s.sh.net == Some(SOME_NET) && s.log == STARTED && !s.running
  {
    var s0 := ReachAsk(n, m);
    ReachStep(n, m, s0, Stop);
    var s1 := Apply(s0, Stop);
    ReachStep(n, m, s1, Step(0, Plain()));
    s := Apply(s1, Step(0, Plain()));
  }

  lemma ReachSlipped(n: nat, m: nat) returns (s: State)
    requires n > 0 && m > 1
    ensures Reachable(n, m, s) && Over(s) && !s.running
  {
    var s0 := ReachSlipLeave(n, m);
    ReachStep(n, m, s0, Step(0, Plain()));
    var s1 := Apply(s0, Step(0, Plain()));
    assert s1.pcs[0] == Sent(Initial, true) && s1.log == NOT_ASKED;
    ReachStep(n, m, s1, Step(0, Plain()));
    s := Apply(s1, Step(0, Plain()));
  }

  /** The daemon is shutting down when the initial request is to be made: the dance ends, the
      request is reported as sent, and the next poll starts again on the same NET. */
  lemma ShutdownRestarts(n: nat, m: nat)
    requires n > 0 && m > 1
    ensures exists s ::
              && Reachable(n, m, s)
              && s.log == [Installed(SOME_NET), Started(SOME_NET), Ended, Started(SOME_NET)]
              && !s.running && !DanceOnce.Separated(s.log)
  {
    var s0 := ReachSlipped(n, m);
    var s := PollAgain(n, m, s0);
    assert s.log == [Installed(SOME_NET), Started(SOME_NET), Ended, Started(SOME_NET)];
  }

  lemma ReachUnrecorded(n: nat, m: nat) returns (s: State)
    requires n > 0 && m > 1
    ensures Reachable(n, m, s) && Over(s) && s.running
  {
    var s0 := ReachAsk(n, m);
    var c := Plain().(grant := RecordFailed);
    ReachStep(n, m, s0, Step(0, c));
    var s1 := Apply(s0, Step(0, c));
    assert s1.pcs[0] == Leave(true) && s1.sh == s0.sh;
    ReachStep(n, m, s1, Step(0, Plain()));
    s := Apply(s1, Step(0, Plain()));
  }

  /** There is no memory for the record of the initial request: the dance ends without a message,
      and the next poll starts again on the same NET. */
  lemma LostRecordRestarts(n: nat, m: nat)
    requires n > 0 && m > 1
    ensures exists s ::
              && Reachable(n, m, s)
              && s.log == [Installed(SOME_NET), Started(SOME_NET), Ended, Started(SOME_NET)]
              && s.running && !DanceOnce.Separated(s.log)
  {
    var s0 := ReachUnrecorded(n, m);
    var s := PollAgain(n, m, s0);
    assert s.log == [Installed(SOME_NET), Started(SOME_NET), Ended, Started(SOME_NET)];
  }
}
