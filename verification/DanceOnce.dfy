/** After a dance has ended, none starts until a new NET is installed, provided that an answer
    never overtakes the status message about its own request, that no request is made when the
    daemon is shutting down, and that none is dropped for lack of memory while the status is good.
    Module DanceExact shows that each of the three is needed. */
module DanceOnce {
  import opened Collections
  import X = Exchange
  import opened Dance
  import opened DanceSafety

  /** A NET was installed since the last start. */
  predicate Armed(log: seq<Event>) {
    if log == [] then false
    else if log[|log| - 1].Installed? then true
    else if log[|log| - 1].Started? then false
    else Armed(log[..|log| - 1])
  }

  /** Between any two starts a NET was installed. */
  ghost predicate Separated(log: seq<Event>) {
    forall i, j :: 0 <= i < j < |log| && log[i].Started? && log[j].Started? ==> InstalledBetween(log, i, j)
  }

  ghost predicate InstalledBetween(log: seq<Event>, i: nat, j: nat)
    requires j <= |log|
  {
    exists k :: i < k < j && log[k].Installed?
  }

  lemma {:induction false} ArmedMeansInstalled(log: seq<Event>, i: nat)
    requires Armed(log) && i < |log| && log[i].Started?
    ensures InstalledBetween(log, i, |log|)
    decreases |log|
  {
    var last := |log| - 1;
    if log[last].Installed? {
      assert i < last;
    } else {
      ArmedMeansInstalled(log[..last], i);
      var k :| i < k < last && log[..last][k].Installed?;
      assert log[k].Installed?;
    }
  }

  lemma ArmedAppend(log: seq<Event>, e: Event)
    ensures Armed(log + [e]) == (e.Installed? || (!e.Started? && Armed(log)))
  {
    assert (log + [e])[..|log|] == log;
  }

  lemma SeparatedAppend(log: seq<Event>, e: Event)
    requires Separated(log) && (e.Started? ==> Armed(log))
    ensures Separated(log + [e])
  {
    var more := log + [e];
    forall i, j | 0 <= i < j < |more| && more[i].Started? && more[j].Started?
      ensures InstalledBetween(more, i, j)
    {
      if j == |log| {
        ArmedMeansInstalled(log, i);
      } else {
        assert InstalledBetween(log, i, j);
      }
      var k :| i < k < j && log[k].Installed?;
      assert more[k].Installed?;
    }
  }

  // ---------------------------------------------------------------- timely steps

  /** No answer is taken while a thread has yet to report its request as sent; no request is made
      when the daemon is shutting down, where the code reports success; and no record for one fails
      to be allocated, which the code does not report, while the status is good. */
  predicate Timely(s: State, a: Action) {
    match a
    case TakeAnswer(_, _) => forall t :: 0 <= t < |s.pcs| ==> !s.pcs[t].Sent?
    case Step(t, c) =>
      t < |s.pcs| && s.pcs[t].Ask? ==> s.running && (c.grant == RecordFailed ==> s.sh.current.status != Ok)
    case _ => true
  }

  predicate TimelyRun(s: State, acts: seq<Action>)
    requires Legal(s, acts)
    decreases |acts|
  {
    acts == [] || (Timely(s, acts[0]) && TimelyRun(Apply(s, acts[0]), acts[1..]))
  }

  predicate TellsOfNet(pc: Pc) { pc.Describe? || pc.Ready? }

  /** What keeps a finished dance from starting again. */
  ghost predicate Settled(s: State) {
    && (!s.sh.dancing && s.sh.lock == None && s.sh.current.status == Ok && s.sh.net.Some? ==> Armed(s.log))
    && (forall t :: 0 <= t < |s.pcs| && s.pcs[t].Sent? ==>
          s.sh.dancing && forall u :: 0 <= u < |s.pcs| ==> Token(s.pcs[u]) == 0)
    && (forall t :: 0 <= t < |s.pcs| && s.pcs[t].Leave? ==> s.sh.current.status != Ok)
    && (forall t :: 0 <= t < |s.pcs| ==> !s.pcs[t].SlipLeave?)
    && (forall t :: 0 <= t < |s.pcs| && TellsOfNet(s.pcs[t]) ==> Armed(s.log))
    && Separated(s.log)
  }

  /** A timely step that leads to sitting down has reported something other than success. */
  lemma NextSettles(pc: Pc, c: Choice, running: bool, net: Option<Net>)
    requires Stepping(pc, net) && !pc.SlipLeave? && (pc.Ask? ==> running)
    ensures var e := Next(pc, c, running, net);
            && (e.pc.Leave? ==> if e.note.Some? then e.note.value.status != Ok else pc.Ask? && c.grant == RecordFailed)
            && (e.pc.Sent? ==> Asking(pc, c, running))
            && !e.pc.SlipLeave? && !TellsOfNet(e.pc)
            && (Leaving(pc) ==> e.note == None)
            && (Token(pc) == 0 ==> e.event == None && Token(e.pc) == 0
                                   && (pc.Sent? || (e.note.Some? && e.note.value.status == Err)))
            && (e.event.Some? ==> !e.event.value.Installed? && !e.event.value.Started?)
  {
  }

  lemma LogKeeps(log: seq<Event>, e: Option<Event>)
    requires Separated(log) && (e.Some? ==> !e.value.Installed? && !e.value.Started?)
    ensures var more := if e.Some? then log + [e.value] else log;
            Separated(more) && Armed(more) == Armed(log)
  {
    if e.Some? {
      ArmedAppend(log, e.value);
      SeparatedAppend(log, e.value);
    }
  }

  lemma TokenStepSettles(s: State, t: nat, c: Choice, e: Effect)
    requires Enabled(s, Step(t, c)) && Sound(s) && Settled(s) && Token(s.pcs[t]) == 1
    requires e.pc.Leave? ==> if e.note.Some? then e.note.value.status != Ok else s.sh.current.status != Ok
    requires e.pc.Sent? ==> Asking(s.pcs[t], c, s.running)
    requires !e.pc.SlipLeave? && !TellsOfNet(e.pc) && (Leaving(s.pcs[t]) ==> e.note == None)
    requires Token(e.pc) == 1 ==> !Asking(s.pcs[t], c, s.running)
    requires Leaving(s.pcs[t]) ==> !e.pc.Sent? && !e.pc.Leave?
    requires e.event.Some? ==> !e.event.value.Installed? && !e.event.value.Started?
    ensures Settled(Perform(s, t, c, e))
  {
    TokenMeansDancing(s, t);
    LogKeeps(s.log, e.event);
    assert forall u :: 0 <= u < |s.pcs| ==> !s.pcs[u].Sent?;
    assert forall u :: 0 <= u < |s.pcs| && u != t ==> !s.pcs[u].Leave?;
    assert forall u :: 0 <= u < |s.pcs| ==> !HoldsLock(s.pcs[u]);
  }

  lemma IdleStepSettles(s: State, t: nat, c: Choice, e: Effect)
    requires Enabled(s, Step(t, c)) && Sound(s) && Settled(s) && Token(s.pcs[t]) == 0
    requires e.event == None && Token(e.pc) == 0 && !TellsOfNet(e.pc) && !e.pc.Sent?
    requires !s.pcs[t].Ask? && !Leaving(s.pcs[t])
    requires s.pcs[t].Sent? || (e.note.Some? && e.note.value.status == Err)
    ensures Settled(Perform(s, t, c, e))
  {
    LogKeeps(s.log, None);
  }

  lemma ThreadStepSettles(s: State, t: nat, c: Choice)
    requires Enabled(s, Step(t, c)) && Timely(s, Step(t, c)) && Sound(s) && Settled(s)
    ensures Settled(Apply(s, Step(t, c)))
  {
    var pc := s.pcs[t];
    var e := Next(pc, c, s.running, s.sh.net);
    NextSettles(pc, c, s.running, s.sh.net);
    NextMovesToken(pc, c, s.running, s.sh.net);
    if Token(pc) == 1 {
      TokenStepSettles(s, t, c, e);
    } else {
      IdleStepSettles(s, t, c, e);
    }
  }

  /** A thread that moves without reporting or logging anything. */
  lemma MoveSettles(s: State, s': State, t: nat)
    requires Settled(s) && t < |s.pcs| == |s'.pcs| && s'.pcs == s.pcs[t := s'.pcs[t]]
    requires s'.log == s.log && s'.sh.dancing == s.sh.dancing && s'.sh.net == s.sh.net
    requires s'.sh.lock == s.sh.lock && s'.sh.current == s.sh.current
    requires var pc := s'.pcs[t]; !pc.Sent? && !pc.Leave? && !pc.SlipLeave? && !TellsOfNet(pc)
    requires Token(s'.pcs[t]) == 1 ==> forall u :: 0 <= u < |s.pcs| ==> !s.pcs[u].Sent?
    ensures Settled(s')
  {
  }

  lemma TakeSettles(s: State, t: nat, push: X.Push)
    requires Enabled(s, TakeAnswer(t, push)) && Timely(s, TakeAnswer(t, push)) && Settled(s)
    ensures Settled(ApplyTake(s, t, push))
  {
    MoveSettles(s, ApplyTake(s, t, push), t);
  }

  lemma PushEndSettles(s: State, a: Action)
    requires Enabled(s, a) && Settled(s) && (a.EndPush? || a.RetryPush?)
    ensures Settled(Apply(s, a))
  {
    MoveSettles(s, Apply(s, a), a.t);
  }

  lemma ReplySettles(s: State, t: nat)
    requires Enabled(s, GiveReply(t)) && Settled(s)
    ensures Settled(ApplyReply(s, t))
  {
    MoveSettles(s, ApplyReply(s, t), t);
  }

  lemma PollSettles(s: State, t: nat)
    requires Enabled(s, Poll(t)) && Sound(s) && Settled(s)
    ensures Settled(ApplyPoll(s, t))
  {
    if !s.sh.dancing && s.sh.current.status == Ok && s.sh.net.Some? {
      SeparatedAppend(s.log, Started(s.sh.net.value));
      assert forall u :: 0 <= u < |s.pcs| ==> !s.pcs[u].Sent? && !HoldsLock(s.pcs[u]);
    }
  }

  lemma SetNetSettles(s: State, t: nat, net: Net)
    requires Enabled(s, SetNet(t, net)) && Sound(s) && Settled(s)
    ensures Settled(ApplySetNet(s, t, net))
  {
    if !s.sh.dancing {
      if net.isObject {
        ArmedAppend(s.log, Installed(net));
        SeparatedAppend(s.log, Installed(net));
      }
    }
  }

  lemma ResetSettles(s: State, t: nat)
    requires Enabled(s, ResetNet(t)) && Sound(s) && Settled(s)
    ensures Settled(ApplyReset(s, t))
  {
  }

  lemma LockStepSettles(s: State, t: nat, c: Choice)
    requires Enabled(s, NetStep(t, c)) && Sound(s) && Settled(s) && HoldsLock(s.pcs[t])
    ensures Settled(ApplyNetStep(s, t, c))
  {
    assert s.sh.lock == Some(t) && !s.sh.dancing;
    forall u | 0 <= u < |s.pcs| ensures !s.pcs[u].Sent? && (u != t ==> !HoldsLock(s.pcs[u])) {
    }
    assert forall u :: 0 <= u < |s.pcs| ==> !s.pcs[u].Leave? by { NoLeaveWhileResting(s); }
  }

  lemma NoLeaveWhileResting(s: State)
    requires OneToken(s) && !s.sh.dancing
    ensures forall u :: 0 <= u < |s.pcs| ==> !s.pcs[u].Leave?
  {
    TotalZero(s.pcs, Token);
    forall u | 0 <= u < |s.pcs| ensures !s.pcs[u].Leave? {
      assert Token(s.pcs[u]) == 0;
    }
  }

  lemma FreeStepSettles(s: State, t: nat, c: Choice)
    requires Enabled(s, NetStep(t, c)) && Settled(s) && !HoldsLock(s.pcs[t])
    ensures Settled(ApplyNetStep(s, t, c))
  {
    if s.pcs[t].Release? {
      MoveSettles(s, ApplyNetStep(s, t, c), t);
    }
  }

  lemma OtherSettles(s: State, b: X.Action)
    requires Foreign(s, b) && Settled(s)
    ensures Settled(ApplyOther(s, b))
  {
  }

  lemma AsideSettles(s: State, a: Action)
    requires Enabled(s, a) && SteppingAside(a) && Sound(s) && Settled(s)
    ensures Settled(Apply(s, a))
  {
    match a
    case GiveReply(t) => ReplySettles(s, t);
    case SetNet(t, net) => SetNetSettles(s, t, net);
    case ResetNet(t) => ResetSettles(s, t);
    case NetStep(t, c) => if HoldsLock(s.pcs[t]) { LockStepSettles(s, t, c); } else { FreeStepSettles(s, t, c); }
  }

  lemma StepSettles(s: State, a: Action)
    requires Enabled(s, a) && Timely(s, a) && Sound(s) && Settled(s)
    ensures Settled(Apply(s, a))
  {
    match a
    case Other(b) => OtherSettles(s, b);
    case TakeAnswer(t, push) => TakeSettles(s, t, push);
    case Step(t, c) => ThreadStepSettles(s, t, c);
    case EndPush(_) => PushEndSettles(s, a);
    case RetryPush(_) => PushEndSettles(s, a);
    case Poll(t) => PollSettles(s, t);
    case Stop =>
    case _ => AsideSettles(s, a);
  }

  lemma {:induction false} RunSettles(s: State, acts: seq<Action>)
    requires Legal(s, acts) && TimelyRun(s, acts) && Sound(s) && Settled(s)
    ensures Settled(Run(s, acts))
    decreases |acts|
  {
    if acts != [] {
      StepSettles(s, acts[0]);
      StepKeepsSound(s, acts[0]);
      RunSettles(Apply(s, acts[0]), acts[1..]);
    }
  }

  lemma InitSettled(n: nat, m: nat)
    ensures Settled(Init(n, m))
  {
    assert forall t :: 0 <= t < m ==> Init(n, m).pcs[t] == Idle;
    assert Init(n, m).sh.net == None && Init(n, m).log == [];
  }

  /** In every timely run a NET was installed between any two starts of the dance. */
  lemma NoSecondDanceWithoutNewNet(n: nat, m: nat, acts: seq<Action>)
    requires Legal(Init(n, m), acts) && TimelyRun(Init(n, m), acts)
    ensures Separated(Run(Init(n, m), acts).log)
  {
    InitSound(n, m);
    InitSettled(n, m);
    RunSettles(Init(n, m), acts);
  }
}
