/** The three ways in which a dance starts again on the NET it has just failed with, and that they
    are all: from any state that a timely run reaches, a step opens the way to a second start
    exactly when it is not timely. */
module DanceExact {
  import opened Collections
  import X = Exchange
  import opened Dance
  import opened DanceSafety
  import opened DancePhases
  import opened DanceOnce

  /** The last dance was started, and no NET installed since. */
  predicate StartedSince(log: seq<Event>) {
    log != []
    && var last := log[|log| - 1];
       last.Started? || (!last.Installed? && StartedSince(log[..|log| - 1]))
  }

  lemma StartedAppend(log: seq<Event>, e: Event)
    ensures StartedSince(log + [e]) == (e.Started? || (!e.Installed? && StartedSince(log)))
  {
    assert (log + [e])[..|log|] == log;
  }

  /** While a dance is on, its start was the last such event. */
  lemma {:induction false} DancingMeansStarted(log: seq<Event>)
    requires !StageOf(log).Broken? && !StageOf(log).Resting?
    ensures StartedSince(log)
    decreases |log|
  {
    var front, e := log[..|log| - 1], log[|log| - 1];
    if !e.Started? {
      assert !StageOf(front).Broken? && !StageOf(front).Resting?;
      DancingMeansStarted(front);
    }
  }

  lemma {:induction false} StartedWithout(log: seq<Event>) returns (i: nat)
    requires StartedSince(log)
    ensures i < |log| && log[i].Started? && forall k :: i < k < |log| ==> !log[k].Installed?
    decreases |log|
  {
    var last := |log| - 1;
    if log[last].Started? {
      i := last;
    } else {
      i := StartedWithout(log[..last]);
      assert forall k :: i < k < last ==> log[k] == log[..last][k];
    }
  }

  lemma SecondStart(log: seq<Event>, e: Event)
    requires StartedSince(log) && e.Started?
    ensures !Separated(log + [e])
  {
    var i := StartedWithout(log);
    var more := log + [e];
    assert more[i].Started? && more[|log|].Started?;
    assert forall k :: i < k < |log| ==> more[k] == log[k];
    assert !InstalledBetween(more, i, |log|);
  }

  // ---------------------------------------------------------------- what can follow

  /** Timely steps can lead from here to a second start on the same NET. */
  ghost predicate Restartable(s: State) {
    exists more :: Legal(s, more) && TimelyRun(s, more) && !Separated(Run(s, more).log)
  }

  lemma Before(s: State, a: Action)
    requires Enabled(s, a) && Timely(s, a) && Restartable(Apply(s, a))
    ensures Restartable(s)
  {
    var more :| Legal(Apply(s, a), more) && TimelyRun(Apply(s, a), more) && !Separated(Run(Apply(s, a), more).log);
    var longer := [a] + more;
    assert longer[1..] == more;
    assert Legal(s, longer) && TimelyRun(s, longer) && Run(s, longer) == Run(Apply(s, a), more);
  }

  /** Nobody dances, the status is good, and the NET is the one of the last start. */
  predicate Ripe(s: State) {
    && !s.sh.dancing && s.sh.lock == None && s.sh.current.status == Ok && s.sh.net.Some?
    && StartedSince(s.log)
  }

  lemma PollRestarts(s: State, t: nat)
    requires Ripe(s) && Available(s, t)
    ensures Restartable(s)
  {
    var s' := Apply(s, Poll(t));
    SecondStart(s.log, Started(s.sh.net.value));
    assert s'.log == s.log + [Started(s.sh.net.value)];
    assert Run(s', []) == s' && Legal(s', []) && TimelyRun(s', []);
    Before(s, Poll(t));
  }

  lemma ReplyRestarts(s: State, t: nat)
    requires Ripe(s) && t < |s.pcs| && t < |s.x.hands| && s.x.hands[t].Free?
    requires s.pcs[t] == Reply || s.pcs[t] == Waiting
    ensures Restartable(s)
    decreases s.pcs[t] == Reply
  {
    var s' := Apply(s, GiveReply(t));
    if s'.pcs[t] == Idle {
      PollRestarts(s', t);
    } else {
      ReplyRestarts(s', t);
    }
    Before(s, GiveReply(t));
  }

  lemma ReturnRestarts(s: State, t: nat)
    requires Ripe(s) && t < |s.pcs| && t < |s.x.hands| && s.x.hands[t].Pushing? && s.pcs[t] == Return
    ensures Restartable(s)
  {
    HandsAfter(s.x, X.PushDone(t, true));
    PollRestarts(Apply(s, EndPush(t)), t);
    Before(s, EndPush(t));
  }

  /** A thread at the end of its function, as it holds a request or not. */
  predicate AtEnd(s: State, t: nat, polling: bool) {
    && t < |s.pcs| && t < |s.x.hands| && s.pcs[t] == Back(polling)
    && if polling then s.x.hands[t].Free? else s.x.hands[t].Pushing?
  }

  lemma EndRestarts(s: State, t: nat, polling: bool)
    requires Ripe(s) && AtEnd(s, t, polling)
    ensures Restartable(s)
  {
    if polling {
      ReplyRestarts(s, t);
    } else {
      ReturnRestarts(s, t);
    }
  }

  function Quick(): Choice { Choice(true, true, 0, 0, true, Missing, ClientFailed) }

  /** A thread that dances on: its hand, and the log behind it. */
  predicate OnStage(s: State, t: nat, polling: bool) {
    && t < |s.pcs| && t < |s.x.hands| && s.sh.lock == None && s.sh.net.Some? && StartedSince(s.log)
    && if polling then s.x.hands[t].Free? else s.x.hands[t].Pushing?
  }

  /** Sitting down without a word leaves the status as it was. */
  lemma LeaveRestarts(s: State, t: nat, polling: bool)
    requires OnStage(s, t, polling) && s.pcs[t] == Leave(polling) && s.sh.current.status == Ok
    ensures Restartable(s)
  {
    var s' := Apply(s, Step(t, Quick()));
    StartedAppend(s.log, Ended);
    EndRestarts(s', t, polling);
    Before(s, Step(t, Quick()));
  }

  /** Saying that a request was sent when nobody dances. */
  lemma SentRestarts(s: State, t: nat, polling: bool)
    requires OnStage(s, t, polling) && s.pcs[t].Sent? && s.pcs[t].polling == polling && !s.sh.dancing
    ensures Restartable(s)
  {
    var s' := Apply(s, Step(t, Quick()));
    EndRestarts(s', t, polling);
    Before(s, Step(t, Quick()));
  }

  lemma SlipRestarts(s: State, t: nat, polling: bool)
    requires OnStage(s, t, polling) && s.pcs[t].SlipLeave? && s.pcs[t].polling == polling
    ensures Restartable(s)
  {
    var s' := Apply(s, Step(t, Quick()));
    StartedAppend(s.log, Ended);
    SentRestarts(s', t, polling);
    Before(s, Step(t, Quick()));
  }

  /** One thread sits down on a failure while another has yet to say that the request was sent. */
  lemma OvertakenRestarts(s: State, t: nat, u: nat)
    requires OnStage(s, t, false) && s.pcs[t] == Leave(false) && u < |s.pcs| && u != t && s.pcs[u].Sent?
    ensures Restartable(s)
  {
    var s1 := Apply(s, Step(t, Quick()));
    StartedAppend(s.log, Ended);
    assert s1.pcs[u] == s.pcs[u] && !s1.sh.dancing;
    var s2 := Apply(s1, Step(u, Quick()));
    assert s2.pcs[t] == Return && s2.x == s.x && s2.log == s1.log;
    EndRestarts(s2, t, false);
    Before(s1, Step(u, Quick()));
    Before(s, Step(t, Quick()));
  }

  lemma CheckedRestarts(s: State, t: nat, u: nat)
    requires OnStage(s, t, false) && s.pcs[t] == CheckRunning && u < |s.pcs| && u != t && s.pcs[u].Sent?
    ensures Restartable(s)
  {
    var s1 := Apply(s, Stop);
    var s2 := Apply(s1, Step(t, Quick()));
    assert s2.pcs[t] == Leave(false) && s2.pcs[u] == s.pcs[u] && s2.log == s.log && s2.x == s.x;
    OvertakenRestarts(s2, t, u);
    Before(s1, Step(t, Quick()));
    Before(s, Stop);
  }

  lemma AnsweredRestarts(s: State, t: nat, u: nat)
    requires OnStage(s, t, false) && s.pcs[t].Answered? && u < |s.pcs| && u != t && s.pcs[u].Sent?
    ensures Restartable(s)
  {
    var s' := Apply(s, Step(t, Quick()));
    assert s'.pcs[u] == s.pcs[u] && s'.x == s.x && s'.sh.lock == None && s'.sh.net == s.sh.net;
    if s'.pcs[t].Leave? {
      assert s'.log == s.log;
      OvertakenRestarts(s', t, u);
    } else {
      StartedAppend(s.log, Answer200(Initial));
      CheckedRestarts(s', t, u);
    }
    Before(s, Step(t, Quick()));
  }

  // ---------------------------------------------------------------- the three untimely steps

  /** What holds of a thread with the token. */
  lemma TokenOnStage(s: State, t: nat)
    requires OnCourse(s) && t < |s.pcs| && Token(s.pcs[t]) == 1
    ensures s.sh.dancing && s.sh.lock == None && s.sh.net.Some? && StartedSince(s.log)
  {
    TokenMeansDancing(s, t);
    DancingMeansStarted(s.log);
  }

  /** An answer is taken while some thread has yet to report its request as sent. */
  lemma TakeWhileSentRestarts(s: State, t: nat, push: X.Push, u: nat)
    requires OnCourse(s) && Settled(s) && Enabled(s, TakeAnswer(t, push)) && u < |s.pcs| && s.pcs[u].Sent?
    ensures Restartable(Apply(s, TakeAnswer(t, push)))
  {
    var s' := ApplyTake(s, t, push);
    DancingMeansStarted(s.log);
    HandsAfter(s.x, X.PushTake(t, push));
    assert s'.pcs[u] == s.pcs[u] && s'.pcs[t].Answered? && s'.x.hands[t].Pushing?;
    AnsweredRestarts(s', t, u);
  }

  /** A request is made when the daemon is shutting down. */
  lemma AskWhenStoppedRestarts(s: State, t: nat, c: Choice)
    requires OnCourse(s) && Enabled(s, Step(t, c)) && s.pcs[t].Ask? && !s.running
    ensures Restartable(Apply(s, Step(t, c)))
  {
    TokenOnStage(s, t);
    var s' := Apply(s, Step(t, c));
    assert s'.pcs[t] == SlipLeave(s.pcs[t].ph, s.pcs[t].polling) && s'.x == s.x && s'.log == s.log;
    assert HandFits(s.pcs[t], s.x.hands[t]);
    SlipRestarts(s', t, s.pcs[t].polling);
  }

  /** The record of a request cannot be allocated while the status is good. */
  lemma UnrecordedAskRestarts(s: State, t: nat, c: Choice)
    requires OnCourse(s) && Enabled(s, Step(t, c)) && s.pcs[t].Ask? && s.running
    requires c.grant == RecordFailed && s.sh.current.status == Ok
    ensures Restartable(Apply(s, Step(t, c)))
  {
    TokenOnStage(s, t);
    var s' := Apply(s, Step(t, c));
    assert s'.pcs[t] == Leave(s.pcs[t].polling) && s'.x == s.x && s'.log == s.log && s'.sh == s.sh;
    assert HandFits(s.pcs[t], s.x.hands[t]);
    LeaveRestarts(s', t, s.pcs[t].polling);
  }

  lemma UntimelyRestarts(s: State, a: Action)
    requires Enabled(s, a) && OnCourse(s) && Settled(s) && !Timely(s, a)
    ensures Restartable(Apply(s, a))
  {
    match a
    case TakeAnswer(t, push) =>
      var u :| 0 <= u < |s.pcs| && s.pcs[u].Sent?;
      TakeWhileSentRestarts(s, t, push, u);
    case Step(t, c) =>
      if s.running {
        UnrecordedAskRestarts(s, t, c);
      } else {
        AskWhenStoppedRestarts(s, t, c);
      }
  }

  /** A step is timely exactly when no timely continuation starts a second dance on the NET. */
  lemma TimelyExactly(s: State, a: Action)
    requires Enabled(s, a) && OnCourse(s) && Settled(s)
    ensures Timely(s, a) <==> !Restartable(Apply(s, a))
  {
    if Timely(s, a) {
      StepSettles(s, a);
      StepKeepsSound(s, a);
      forall more | Legal(Apply(s, a), more) && TimelyRun(Apply(s, a), more)
        ensures Separated(Run(Apply(s, a), more).log)
      {
        RunSettles(Apply(s, a), more);
      }
    } else {
      UntimelyRestarts(s, a);
    }
  }

  lemma TimelyRunsLead(n: nat, m: nat, acts: seq<Action>)
    requires Legal(Init(n, m), acts) && TimelyRun(Init(n, m), acts)
    ensures OnCourse(Run(Init(n, m), acts)) && Settled(Run(Init(n, m), acts))
  {
    InitOnCourse(n, m);
    InitSettled(n, m);
    RunOnCourse(Init(n, m), acts);
    RunSettles(Init(n, m), acts);
  }

  /** So it is after every timely run: the next step makes a second dance on the same NET possible
      if and only if it is one of the three untimely ones. */
  lemma NextStepExactly(n: nat, m: nat, acts: seq<Action>, a: Action)
    requires Legal(Init(n, m), acts) && TimelyRun(Init(n, m), acts) && Enabled(Run(Init(n, m), acts), a)
    ensures Timely(Run(Init(n, m), acts), a) <==> !Restartable(Apply(Run(Init(n, m), acts), a))
  {
    TimelyRunsLead(n, m, acts);
    TimelyExactly(Run(Init(n, m), acts), a);
  }
}
