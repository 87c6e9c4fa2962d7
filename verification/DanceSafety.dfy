/** The dancing flag stands for exactly one token, the NET does not change under a dance, and the
    dance goes through its phases in order: in every run, whatever the threads do. */
module DanceSafety {
  import opened Collections
  import X = Exchange
  import XS = ExchangeSafety
  import opened Dance

  // ---------------------------------------------------------------- the token

  /** A thread that carries the dance: from its start until it asks the exchange or sits down. */
  function Token(pc: Pc): nat {
    match pc
    case CheckTime => 1
    case Announce => 1
    case Gateway(_, _) => 1
    case Ask(_, _, _) => 1
    case SlipLeave(_, _) => 1
    case Leave(_) => 1
    case Answered(_, _, _) => 1
    case CheckRunning => 1
    case Walk => 1
    case Sleeping(_) => 1
    case CheckAgain => 1
    case Parse(_) => 1
    case Finish => 1
    case PutBack => 1
    case _ => 0
  }

  /** The daemon's own requests in the exchange, not counting one whose callback is running. */
  function InExchange(s: State): nat {
    Pending(s, X.InitialAnswer) + Pending(s, X.RedirectAnswer)
  }

  function Pending(s: State, callback: X.Callback): nat {
    XS.Count(s.x, XS.For(callback), false)
  }

  function Tokens(s: State): nat {
    Total(s.pcs, Token) + InExchange(s)
  }

  /** The flag is set for exactly one token, or for one that was lost. */
  ghost predicate OneToken(s: State) {
    Tokens(s) + s.stuck == if s.sh.dancing then 1 else 0
  }

  // ---------------------------------------------------------------- threads and their records

  predicate InCallback(pc: Pc) {
    match pc
    case Gateway(_, polling) => !polling
    case Ask(_, _, polling) => !polling
    case Sent(_, polling) => !polling
    case SlipLeave(_, polling) => !polling
    case Leave(polling) => !polling
    case Answered(_, _, _) => true
    case CheckRunning => true
    case Walk => true
    case Sleeping(_) => true
    case CheckAgain => true
    case Parse(_) => true
    case Finish => true
    case Return => true
    case PutBack => true
    case _ => false
  }

  /** A thread holds one of the daemon's own requests exactly while it runs its callback. */
  predicate HandFits(pc: Pc, h: X.Hand) {
    if InCallback(pc) then
      && h.Pushing? && h.r.callback != X.NoCallback
      && (pc.Answered? ==> h.r.callback == CallbackOf(pc.ph))
      && (pc.PutBack? ==> h.r.callback == X.RedirectAnswer)
    else if pc == Idle then h.Pushing? ==> h.r.callback == X.NoCallback
    else h.Free?
  }

  ghost predicate Coupled(s: State) {
    && |s.pcs| == |s.x.hands|
    && forall t :: 0 <= t < |s.pcs| ==> HandFits(s.pcs[t], s.x.hands[t])
  }

  predicate HoldsLock(pc: Pc) {
    pc.Describe? || pc.Ready? || pc.NetBad?
  }

  ghost predicate Locked(s: State) {
    && (forall t :: 0 <= t < |s.pcs| && HoldsLock(s.pcs[t]) ==> s.sh.lock == Some(t))
    && (s.sh.lock.Some? ==>
          !s.sh.dancing && s.sh.lock.value < |s.pcs| && HoldsLock(s.pcs[s.sh.lock.value]))
  }

  lemma NextKeepsHand(pc: Pc, c: Choice, running: bool, net: Option<Net>, h: X.Hand)
    requires Stepping(pc, net) && HandFits(pc, h)
    ensures HandFits(Next(pc, c, running, net).pc, h) && !HoldsLock(Next(pc, c, running, net).pc)
  {
  }

  /** Which hands an exchange step touches. */
  lemma HandsAfter(x: X.State, a: X.Action)
    requires X.Enabled(x, a)
    ensures var y := X.Apply(x, a);
            && |y.hands| == |x.hands|
            && (a.PushPutBack? || a.PushDone? || a.ClosePut? ==> y.hands == x.hands[a.h := X.Free])
            && (a.CloseTake? ==> y.hands == x.hands[a.h := y.hands[a.h]] && !y.hands[a.h].Pushing?)
            && (a.PushTake? ==>
                  match X.Find(x.out, a.push)
                  case Refused(_) => y == x
                  case Found(i) => y.hands == x.hands[a.h := X.Pushing(x.out[i], a.push.seqno)])
            && (!(a.PushPutBack? || a.PushDone? || a.ClosePut? || a.CloseTake? || a.PushTake?) ==> y.hands == x.hands)
  {
  }

  lemma AskKeepsHands(s: State, t: nat, c: Choice)
    requires Enabled(s, Step(t, c))
    ensures Exchanged(s, s.pcs[t], c).hands == s.x.hands
  {
    if Asking(s.pcs[t], c, s.running) {
      HandsAfter(s.x, X.Accept(c.grant.key, CallbackOf(s.pcs[t].ph)));
    }
  }

  /** One thread moves, and only its own hand changes. */
  lemma MoveKeepsCoupled(s: State, s': State, t: nat)
    requires Coupled(s) && t < |s.pcs| && |s'.pcs| == |s.pcs| && |s'.x.hands| == |s.x.hands|
    requires forall u :: 0 <= u < |s.pcs| && u != t ==> s'.pcs[u] == s.pcs[u] && s'.x.hands[u] == s.x.hands[u]
    requires HandFits(s'.pcs[t], s'.x.hands[t])
    ensures Coupled(s')
  {
  }

  lemma OtherKeepsCoupled(s: State, b: X.Action)
    requires Foreign(s, b) && Coupled(s)
    ensures Coupled(ApplyOther(s, b))
  {
    HandsAfter(s.x, b);
    var s' := ApplyOther(s, b);
    if b.PushDone? || b.ClosePut? || b.CloseTake? || b.PushTake? {
      assert HandFits(s.pcs[b.h], s.x.hands[b.h]);
      assert s.pcs[b.h] == Idle;
      MoveKeepsCoupled(s, s', b.h);
    }
  }

  /** A thread outside the dance moves on: its hand stays empty, and neither the exchange nor the
      flag changes. */
  ghost predicate Aside(s: State, s': State, t: nat) {
    && t < |s.pcs| && |s'.pcs| == |s.pcs| && s'.pcs == s.pcs[t := s'.pcs[t]]
    && s'.x == s.x && s'.sh.dancing == s.sh.dancing && s'.stuck == s.stuck
    && !InCallback(s'.pcs[t]) && Token(s'.pcs[t]) == 0 && Token(s.pcs[t]) == 0
    && s'.sh.lock == (if HoldsLock(s'.pcs[t]) then Some(t) else if HoldsLock(s.pcs[t]) then None else s.sh.lock)
    && (HoldsLock(s'.pcs[t]) && !HoldsLock(s.pcs[t]) ==> !s.sh.dancing && s.sh.lock == None)
  }

  lemma ReplyIsAside(s: State, t: nat)
    requires Enabled(s, GiveReply(t))
    ensures Aside(s, ApplyReply(s, t), t)
  {
  }

  lemma SetNetIsAside(s: State, t: nat, net: Net)
    requires Enabled(s, SetNet(t, net))
    ensures Aside(s, ApplySetNet(s, t, net), t)
  {
  }

  lemma ResetIsAside(s: State, t: nat)
    requires Enabled(s, ResetNet(t))
    ensures Aside(s, ApplyReset(s, t), t)
  {
    assert s.pcs == s.pcs[t := s.pcs[t]];
  }

  lemma DescribeIsAside(s: State, t: nat, c: Choice)
    requires Enabled(s, NetStep(t, c)) && s.pcs[t].Describe? && s.sh.lock == Some(t)
    ensures Aside(s, ApplyNetStep(s, t, c), t)
  {
  }

  lemma UnlockIsAside(s: State, t: nat, c: Choice)
    requires Enabled(s, NetStep(t, c)) && (s.pcs[t].Ready? || s.pcs[t].NetBad?) && s.sh.lock == Some(t)
    ensures Aside(s, ApplyNetStep(s, t, c), t)
  {
  }

  lemma LockStepIsAside(s: State, t: nat, c: Choice)
    requires Enabled(s, NetStep(t, c)) && Locked(s) && HoldsLock(s.pcs[t])
    ensures Aside(s, ApplyNetStep(s, t, c), t)
  {
    if s.pcs[t].Describe? {
      DescribeIsAside(s, t, c);
    } else {
      UnlockIsAside(s, t, c);
    }
  }

  lemma NetStepIsAside(s: State, t: nat, c: Choice)
    requires Enabled(s, NetStep(t, c)) && Locked(s)
    ensures Aside(s, ApplyNetStep(s, t, c), t)
  {
    if HoldsLock(s.pcs[t]) {
      LockStepIsAside(s, t, c);
    }
  }

  predicate SteppingAside(a: Action) {
    a.GiveReply? || a.SetNet? || a.ResetNet? || a.NetStep?
  }

  lemma StepsAside(s: State, a: Action)
    requires Enabled(s, a) && SteppingAside(a) && Locked(s)
    ensures Aside(s, Apply(s, a), a.t)
  {
    match a
    case GiveReply(t) => ReplyIsAside(s, t);
    case SetNet(t, net) => SetNetIsAside(s, t, net);
    case ResetNet(t) => ResetIsAside(s, t);
    case NetStep(t, c) => NetStepIsAside(s, t, c);
  }

  lemma AsideKeepsCoupled(s: State, s': State, t: nat)
    requires Coupled(s) && Aside(s, s', t)
    requires !InCallback(s.pcs[t]) && (s.pcs[t] == Idle ==> s.x.hands[t].Free?)
    ensures Coupled(s')
  {
    assert HandFits(s.pcs[t], s.x.hands[t]);
    MoveKeepsCoupled(s, s', t);
  }

  lemma ThreadStepKeepsCoupled(s: State, t: nat, c: Choice)
    requires Enabled(s, Step(t, c)) && Coupled(s)
    ensures Coupled(Apply(s, Step(t, c)))
  {
    var e := Next(s.pcs[t], c, s.running, s.sh.net);
    AskKeepsHands(s, t, c);
    NextKeepsHand(s.pcs[t], c, s.running, s.sh.net, s.x.hands[t]);
    MoveKeepsCoupled(s, Perform(s, t, c, e), t);
  }

  lemma TakeKeepsCoupled(s: State, t: nat, push: X.Push)
    requires Enabled(s, TakeAnswer(t, push)) && Coupled(s)
    ensures Coupled(ApplyTake(s, t, push))
  {
    HandsAfter(s.x, X.PushTake(t, push));
    MoveKeepsCoupled(s, ApplyTake(s, t, push), t);
  }

  lemma PushStepKeepsCoupled(s: State, a: Action)
    requires Enabled(s, a) && Coupled(s) && (a.TakeAnswer? || a.EndPush? || a.RetryPush?)
    ensures Coupled(Apply(s, a))
  {
    match a
    case TakeAnswer(t, push) => TakeKeepsCoupled(s, t, push);
    case EndPush(t) =>
      HandsAfter(s.x, X.PushDone(t, true));
      MoveKeepsCoupled(s, Apply(s, a), t);
    case RetryPush(t) =>
      HandsAfter(s.x, X.PushPutBack(t));
      MoveKeepsCoupled(s, Apply(s, a), t);
  }

  lemma PollKeepsCoupled(s: State, t: nat)
    requires Enabled(s, Poll(t)) && Coupled(s)
    ensures Coupled(ApplyPoll(s, t))
  {
    MoveKeepsCoupled(s, ApplyPoll(s, t), t);
  }

  lemma StepKeepsCoupled(s: State, a: Action)
    requires Enabled(s, a) && Coupled(s) && Locked(s)
    ensures Coupled(Apply(s, a))
  {
    if a.Other? {
      OtherKeepsCoupled(s, a.a);
    } else if a.Step? {
      ThreadStepKeepsCoupled(s, a.t, a.c);
    } else if a.Poll? {
      PollKeepsCoupled(s, a.t);
    } else if SteppingAside(a) {
      StepsAside(s, a);
      AsideKeepsCoupled(s, Apply(s, a), a.t);
    } else if !a.Stop? {
      PushStepKeepsCoupled(s, a);
    }
  }

  lemma MoveKeepsLocked(s: State, s': State, t: nat)
    requires Locked(s) && t < |s.pcs| == |s'.pcs| && s'.pcs == s.pcs[t := s'.pcs[t]]
    requires !HoldsLock(s.pcs[t]) && !HoldsLock(s'.pcs[t]) && s'.sh.lock == s.sh.lock
    requires s'.sh.dancing ==> s.sh.dancing || s.sh.lock == None
    ensures Locked(s')
  {
  }

  lemma AsideKeepsLocked(s: State, s': State, t: nat)
    requires Locked(s) && Aside(s, s', t)
    ensures Locked(s')
  {
  }

  lemma ThreadStepKeepsLocked(s: State, t: nat, c: Choice)
    requires Enabled(s, Step(t, c)) && Locked(s)
    ensures Locked(Apply(s, Step(t, c)))
  {
    var e := Next(s.pcs[t], c, s.running, s.sh.net);
    assert !HoldsLock(s.pcs[t]) && !HoldsLock(e.pc);
    MoveKeepsLocked(s, Perform(s, t, c, e), t);
  }

  lemma PollKeepsLocked(s: State, t: nat)
    requires Enabled(s, Poll(t)) && Locked(s)
    ensures Locked(ApplyPoll(s, t))
  {
    MoveKeepsLocked(s, ApplyPoll(s, t), t);
  }

  lemma TakeKeepsLocked(s: State, t: nat, push: X.Push)
    requires Enabled(s, TakeAnswer(t, push)) && Locked(s)
    ensures Locked(ApplyTake(s, t, push))
  {
    MoveKeepsLocked(s, ApplyTake(s, t, push), t);
  }

  lemma PushEndKeepsLocked(s: State, a: Action)
    requires Enabled(s, a) && Locked(s) && (a.EndPush? || a.RetryPush?)
    ensures Locked(Apply(s, a))
  {
    MoveKeepsLocked(s, Apply(s, a), a.t);
  }

  lemma StepKeepsLocked(s: State, a: Action)
    requires Enabled(s, a) && Locked(s)
    ensures Locked(Apply(s, a))
  {
    if SteppingAside(a) {
      StepsAside(s, a);
      AsideKeepsLocked(s, Apply(s, a), a.t);
    } else if a.Step? {
      ThreadStepKeepsLocked(s, a.t, a.c);
    } else if a.Poll? {
      PollKeepsLocked(s, a.t);
    } else if a.TakeAnswer? {
      TakeKeepsLocked(s, a.t, a.push);
    } else if a.EndPush? || a.RetryPush? {
      PushEndKeepsLocked(s, a);
    }
  }

  // ---------------------------------------------------------------- one token

  /** A thread's own step moves its token, gives it to the exchange, puts it down, or loses it. */
  lemma NextMovesToken(pc: Pc, c: Choice, running: bool, net: Option<Net>)
    requires Stepping(pc, net)
    ensures var e := Next(pc, c, running, net);
            Token(e.pc) + (if Asking(pc, c, running) then 1 else 0) + (if e.stuck then 1 else 0)
            + (if Leaving(pc) then 1 else 0) == Token(pc)
    ensures Leaving(pc) ==> Token(pc) == 1
  {
  }

  lemma TokenMeansDancing(s: State, t: nat)
    requires OneToken(s) && t < |s.pcs| && Token(s.pcs[t]) == 1
    ensures s.sh.dancing && s.stuck == 0 && InExchange(s) == 0
    ensures forall u :: 0 <= u < |s.pcs| && u != t ==> Token(s.pcs[u]) == 0
  {
    TotalRemove(s.pcs, t, Token);
    var rest := RemoveAt(s.pcs, t);
    TotalZero(rest, Token);
    forall u | 0 <= u < |s.pcs| && u != t ensures Token(s.pcs[u]) == 0 {
      assert rest[if u < t then u else u - 1] == s.pcs[u];
    }
  }

  /** When thread `t` moves to `pc`, what the thread, the exchange and the losses give up and
      gain has to match the change of the flag. */
  lemma Balance(s: State, s': State, t: nat, pc: Pc)
    requires OneToken(s) && t < |s.pcs| && s'.pcs == s.pcs[t := pc]
    requires Token(pc) + InExchange(s') + s'.stuck + (if s.sh.dancing then 1 else 0)
             == Token(s.pcs[t]) + InExchange(s) + s.stuck + (if s'.sh.dancing then 1 else 0)
    ensures OneToken(s')
  {
    TotalUpdate(s.pcs, t, pc, Token);
  }

  lemma CountOwn(x: X.State, a: X.Action)
    requires X.Enabled(x, a)
    ensures var y := X.Apply(x, a);
            && XS.Count(y, XS.For(X.InitialAnswer), false)
               == XS.Count(x, XS.For(X.InitialAnswer), false) + XS.Change(x, a, XS.For(X.InitialAnswer), false)
            && XS.Count(y, XS.For(X.RedirectAnswer), false)
               == XS.Count(x, XS.For(X.RedirectAnswer), false) + XS.Change(x, a, XS.For(X.RedirectAnswer), false)
  {
    XS.StepCount(x, a, XS.For(X.InitialAnswer), false);
    XS.StepCount(x, a, XS.For(X.RedirectAnswer), false);
  }

  lemma ThreadStepKeepsToken(s: State, t: nat, c: Choice)
    requires Enabled(s, Step(t, c)) && OneToken(s)
    ensures OneToken(Apply(s, Step(t, c)))
  {
    var pc := s.pcs[t];
    var e := Next(pc, c, s.running, s.sh.net);
    NextMovesToken(pc, c, s.running, s.sh.net);
    if Token(pc) == 1 {
      TokenMeansDancing(s, t);
    }
    if Asking(pc, c, s.running) {
      CountOwn(s.x, X.Accept(c.grant.key, CallbackOf(pc.ph)));
    }
    Balance(s, Perform(s, t, c, e), t, e.pc);
  }

  lemma OtherKeepsToken(s: State, b: X.Action)
    requires Foreign(s, b) && OneToken(s)
    ensures OneToken(ApplyOther(s, b))
  {
    CountOwn(s.x, b);
  }

  /** A push takes one of the daemon's own requests out of the exchange. */
  lemma TakeCounts(x: X.State, t: nat, push: X.Push)
    requires X.Enabled(x, X.PushTake(t, push)) && X.Find(x.out, push).Found?
    requires x.out[X.Find(x.out, push).index].callback != X.NoCallback
    ensures var y := X.Apply(x, X.PushTake(t, push));
            XS.Count(y, XS.For(X.InitialAnswer), false) + XS.Count(y, XS.For(X.RedirectAnswer), false) + 1
            == XS.Count(x, XS.For(X.InitialAnswer), false) + XS.Count(x, XS.For(X.RedirectAnswer), false)
  {
    CountOwn(x, X.PushTake(t, push));
  }

  /** The token passes from the exchange to the thread. */
  lemma TakeEffect(s: State, t: nat, push: X.Push)
    requires Enabled(s, TakeAnswer(t, push))
    ensures var s' := ApplyTake(s, t, push);
            && s'.pcs == s.pcs[t := s'.pcs[t]] && Token(s'.pcs[t]) == 1 && Token(s.pcs[t]) == 0
            && s'.sh == s.sh && s'.stuck == s.stuck && InExchange(s') + 1 == InExchange(s)
  {
    TakeCounts(s.x, t, push);
  }

  lemma TakeKeepsToken(s: State, t: nat, push: X.Push)
    requires Enabled(s, TakeAnswer(t, push)) && OneToken(s)
    ensures OneToken(ApplyTake(s, t, push))
  {
    var s' := ApplyTake(s, t, push);
    TakeEffect(s, t, push);
    Balance(s, s', t, s'.pcs[t]);
  }

  lemma PushEndKeepsToken(s: State, a: Action)
    requires Enabled(s, a) && Coupled(s) && OneToken(s) && (a.EndPush? || a.RetryPush?)
    ensures OneToken(Apply(s, a))
  {
    assert HandFits(s.pcs[a.t], s.x.hands[a.t]);
    var b := if a.EndPush? then X.PushDone(a.t, true) else X.PushPutBack(a.t);
    CountOwn(s.x, b);
    Balance(s, Apply(s, a), a.t, Idle);
  }

  lemma PollKeepsToken(s: State, t: nat)
    requires Enabled(s, Poll(t)) && OneToken(s)
    ensures OneToken(ApplyPoll(s, t))
  {
    var s' := ApplyPoll(s, t);
    Balance(s, s', t, s'.pcs[t]);
  }

  lemma AsideKeepsToken(s: State, s': State, t: nat)
    requires OneToken(s) && Aside(s, s', t)
    ensures OneToken(s')
  {
    Balance(s, s', t, s'.pcs[t]);
  }

  lemma StepKeepsToken(s: State, a: Action)
    requires Enabled(s, a) && Coupled(s) && Locked(s) && OneToken(s)
    ensures OneToken(Apply(s, a))
  {
    match a
    case Other(b) => OtherKeepsToken(s, b);
    case TakeAnswer(t, push) => TakeKeepsToken(s, t, push);
    case Step(t, c) => ThreadStepKeepsToken(s, t, c);
    case EndPush(_) => PushEndKeepsToken(s, a);
    case RetryPush(_) => PushEndKeepsToken(s, a);
    case Poll(t) => PollKeepsToken(s, t);
    case Stop =>
    case _ =>
      StepsAside(s, a);
      AsideKeepsToken(s, Apply(s, a), a.t);
  }

  ghost predicate Sound(s: State) {
    Coupled(s) && Locked(s) && OneToken(s)
  }

  lemma NothingPending(n: nat, m: nat, callback: X.Callback)
    ensures Pending(Init(n, m), callback) == 0
  {
    XS.TotalOfNothing(n, X.Idle, XS.OfWorker(XS.For(callback)));
    XS.TotalOfNothing(m, X.Free, XS.OfHand(XS.For(callback), false));
  }

  lemma InitSound(n: nat, m: nat)
    ensures Sound(Init(n, m))
  {
    TotalZero(Init(n, m).pcs, Token);
    NothingPending(n, m, X.InitialAnswer);
    NothingPending(n, m, X.RedirectAnswer);
  }

  lemma StepKeepsSound(s: State, a: Action)
    requires Enabled(s, a) && Sound(s)
    ensures Sound(Apply(s, a))
  {
    StepKeepsCoupled(s, a);
    StepKeepsLocked(s, a);
    StepKeepsToken(s, a);
  }

  lemma {:induction false} RunKeepsSound(s: State, acts: seq<Action>)
    requires Legal(s, acts) && Sound(s)
    ensures Sound(Run(s, acts))
    decreases |acts|
  {
    if acts != [] {
      StepKeepsSound(s, acts[0]);
      RunKeepsSound(Apply(s, acts[0]), acts[1..]);
    }
  }

  /** In every run: while nothing was lost or aborted the flag is set exactly when one token
      exists, and otherwise it stays set with no token; in particular at most one of the
      daemon's own requests is in the exchange. */
  lemma ExactlyOneToken(n: nat, m: nat, acts: seq<Action>)
    requires Legal(Init(n, m), acts)
    ensures var s := Run(Init(n, m), acts);
            && (s.stuck == 0 ==> Tokens(s) == if s.sh.dancing then 1 else 0)
            && (s.stuck > 0 ==> s.sh.dancing && Tokens(s) == 0)
            && InExchange(s) <= 1
  {
    InitSound(n, m);
    RunKeepsSound(Init(n, m), acts);
  }

  /** The token is lost by exactly two kinds of step: an aborted moonwalk, and the exchange
      losing one of the daemon's own requests. */
  lemma TokenLostOnlyBy(s: State, a: Action)
    requires Enabled(s, a)
    ensures Apply(s, a).stuck != s.stuck <==>
              || (a.Step? && s.pcs[a.t].Sleeping? && !a.c.slept)
              || (a.Other? && LosesOwn(s.x, a.a))
    ensures Apply(s, a).stuck >= s.stuck
  {
  }
}
