/** The order of a dance: what was logged in any run is a sequence of dances, each going through
    its phases in order on one NET that nobody replaces meanwhile. */
module DancePhases {
  import opened Collections
  import X = Exchange
  import opened Dance
  import opened DanceSafety

  /** How far the current dance has come. */
  datatype Stage =
    | Resting
    | Begun(net: Net)
    | InitialAsked(net: Net)
    | InitialDone(net: Net)
    | Rested(net: Net, w: nat)
    | RedirectAsked(net: Net, w: nat)
    | RedirectDone(net: Net, w: nat)
    | Bridged(net: Net, w: nat)
    | Finished(net: Net, w: nat)
    | Broken

  /** A waiting time that the NET's window and wait can produce. */
  ghost predicate Produced(n: Net, w: nat) {
    && n.wait.Some? && n.window.Some? && n.window.value > 0
    && exists r: nat :: w == WalkTime(n.wait.value, n.window.value, r)
  }

  /** The only order of events that is not broken. */
  ghost function Follow(st: Stage, e: Event): Stage {
    match (st, e)
    case (Resting, Installed(_)) => Resting
    case (Resting, Started(n)) => Begun(n)
    case (Begun(n), Asked(Initial, gw)) => if n.initial == Some(gw) then InitialAsked(n) else Broken
    case (InitialAsked(n), Answer200(Initial)) => InitialDone(n)
    case (InitialDone(n), Walked(w)) => if Produced(n, w) then Rested(n, w) else Broken
    case (Rested(n, w), Asked(Redirect, gw)) => if n.redirect == Some(gw) then RedirectAsked(n, w) else Broken
    case (RedirectAsked(n, w), Answer200(Redirect)) => RedirectDone(n, w)
    case (RedirectDone(n, w), BridgesSet) => Bridged(n, w)
    case (Bridged(n, w), Completed) => Finished(n, w)
    case (_, Ended) => if st.Resting? || st.Broken? then Broken else Resting
    case _ => Broken
  }

  ghost function StageOf(log: seq<Event>): Stage {
    if log == [] then Resting else Follow(StageOf(log[..|log| - 1]), log[|log| - 1])
  }

  lemma StageAppend(log: seq<Event>, e: Event)
    ensures StageOf(log + [e]) == Follow(StageOf(log), e)
  {
    assert (log + [e])[..|log|] == log;
  }

  /** Where in the dance a thread with the token has to be. */
  ghost predicate Expects(pc: Pc, st: Stage) {
    match pc
    case CheckTime => st.Begun?
    case Announce => st.Begun?
    case Gateway(ph, _) => if ph == Initial then st.Begun? else st.Rested?
    case Ask(ph, gw, _) =>
      if ph == Initial then st.Begun? && st.net.initial == Some(gw)
      else st.Rested? && st.net.redirect == Some(gw)
    case Answered(ph, _, _) => if ph == Initial then st.InitialAsked? else st.RedirectAsked?
    case CheckRunning => st.InitialDone?
    case Walk => st.InitialDone?
    case Sleeping(w) => st.InitialDone? && Produced(st.net, w)
    case CheckAgain => st.Rested?
    case PutBack => st.RedirectAsked?
    case Parse(_) => st.RedirectDone?
    case Finish => st.Bridged?
    case _ => true
  }

  ghost predicate InOrder(s: State) {
    var st := StageOf(s.log);
    && !st.Broken?
    && (s.sh.dancing <==> !st.Resting?)
    && (s.sh.dancing ==> s.sh.net == Some(st.net))
    && (Pending(s, X.InitialAnswer) > 0 ==> st.InitialAsked?)
    && (Pending(s, X.RedirectAnswer) > 0 ==> st.RedirectAsked?)
    && Expected(s.pcs, st)
  }

  ghost predicate Expected(pcs: seq<Pc>, st: Stage) {
    forall t :: 0 <= t < |pcs| ==> Token(pcs[t]) == 1 ==> Expects(pcs[t], st)
  }

  ghost predicate OnCourse(s: State) {
    Sound(s) && InOrder(s)
  }

  // ---------------------------------------------------------------- steps of the dance

  /** The stage after a thread's own step. */
  ghost function StageAfter(st: Stage, e: Effect): Stage {
    if e.event.Some? then Follow(st, e.event.value) else st
  }

  /** A thread where the dance expects it takes the dance to where it expects the thread next. */
  lemma NextInOrder(pc: Pc, c: Choice, running: bool, net: Option<Net>, st: Stage)
    requires Stepping(pc, net) && Token(pc) == 1 && Expects(pc, st)
    requires !st.Broken? && !st.Resting? && net == Some(st.net)
    ensures var e := Next(pc, c, running, net);
            var st' := StageAfter(st, e);
            && !st'.Broken? && (st'.Resting? <==> Leaving(pc))
            && (!st'.Resting? ==> st'.net == st.net)
            && (Token(e.pc) == 1 ==> Expects(e.pc, st'))
            && (Asking(pc, c, running) ==> if pc.ph == Initial then st'.InitialAsked? else st'.RedirectAsked?)
  {
    if pc.Walk? && net.value.window.Some? && net.value.wait.Some? {
      assert Produced(net.value, WalkTime(net.value.wait.value, net.value.window.value, c.random));
    }
  }

  /** The same for the whole state, for any effect with these properties. */
  lemma TokenStepInOrder(s: State, t: nat, c: Choice, e: Effect)
    requires Enabled(s, Step(t, c)) && OnCourse(s) && Token(s.pcs[t]) == 1
    requires var st, st' := StageOf(s.log), StageAfter(StageOf(s.log), e);
             && !st'.Broken? && (st'.Resting? <==> Leaving(s.pcs[t]))
             && (!st'.Resting? ==> st'.net == st.net)
             && (Token(e.pc) == 1 ==> Expects(e.pc, st'))
             && (Asking(s.pcs[t], c, s.running) ==>
                   if s.pcs[t].ph == Initial then st'.InitialAsked? else st'.RedirectAsked?)
    ensures InOrder(Perform(s, t, c, e))
  {
    var pc := s.pcs[t];
    var s' := Perform(s, t, c, e);
    TokenMeansDancing(s, t);
    if e.event.Some? {
      StageAppend(s.log, e.event.value);
    }
    if Asking(pc, c, s.running) {
      CountOwn(s.x, X.Accept(c.grant.key, CallbackOf(pc.ph)));
    }
  }

  /** A step of a thread without the token logs nothing. */
  lemma IdleStepInOrder(s: State, t: nat, c: Choice, e: Effect)
    requires Enabled(s, Step(t, c)) && OnCourse(s) && Token(s.pcs[t]) == 0
    requires e.event == None && Token(e.pc) == 0 && !Leaving(s.pcs[t]) && !s.pcs[t].Ask?
    ensures InOrder(Perform(s, t, c, e))
  {
    assert Perform(s, t, c, e).log == s.log;
  }

  lemma IdleNext(pc: Pc, c: Choice, running: bool, net: Option<Net>)
    requires Stepping(pc, net) && Token(pc) == 0
    ensures Next(pc, c, running, net).event == None
  {
  }

  lemma ThreadStepInOrder(s: State, t: nat, c: Choice)
    requires Enabled(s, Step(t, c)) && OnCourse(s)
    ensures InOrder(Apply(s, Step(t, c)))
  {
    var e := Next(s.pcs[t], c, s.running, s.sh.net);
    if Token(s.pcs[t]) == 1 {
      TokenMeansDancing(s, t);
      NextInOrder(s.pcs[t], c, s.running, s.sh.net, StageOf(s.log));
      TokenStepInOrder(s, t, c, e);
    } else {
      NextMovesToken(s.pcs[t], c, s.running, s.sh.net);
      IdleNext(s.pcs[t], c, s.running, s.sh.net);
      IdleStepInOrder(s, t, c, e);
    }
  }

  // ---------------------------------------------------------------- the other steps

  lemma OtherInOrder(s: State, b: X.Action)
    requires Foreign(s, b) && OnCourse(s)
    ensures InOrder(ApplyOther(s, b))
  {
    CountOwn(s.x, b);
  }

  lemma TakePending(s: State, t: nat, push: X.Push)
    requires Enabled(s, TakeAnswer(t, push))
    ensures var s' := ApplyTake(s, t, push);
            && s'.pcs == s.pcs[t := s'.pcs[t]] && s'.sh == s.sh && s'.log == s.log
            && s'.pcs[t].Answered? && Token(s.pcs[t]) == 0
            && Pending(s, CallbackOf(s'.pcs[t].ph)) > 0
            && Pending(s', X.InitialAnswer) <= Pending(s, X.InitialAnswer)
            && Pending(s', X.RedirectAnswer) <= Pending(s, X.RedirectAnswer)
  {
    CountOwn(s.x, X.PushTake(t, push));
  }

  /** A thread that moves without logging stays in order if the dance expects it there. */
  lemma MoveInOrder(s: State, s': State, t: nat)
    requires OnCourse(s) && t < |s.pcs| == |s'.pcs| && s'.pcs == s.pcs[t := s'.pcs[t]]
    requires s'.log == s.log && s'.sh.dancing == s.sh.dancing && s'.sh.net == s.sh.net
    requires Pending(s', X.InitialAnswer) <= Pending(s, X.InitialAnswer)
    requires Pending(s', X.RedirectAnswer) <= Pending(s, X.RedirectAnswer)
    requires Token(s'.pcs[t]) == 1 ==> Expects(s'.pcs[t], StageOf(s.log))
    ensures InOrder(s')
  {
  }

  lemma TakeInOrder(s: State, t: nat, push: X.Push)
    requires Enabled(s, TakeAnswer(t, push)) && OnCourse(s)
    ensures InOrder(ApplyTake(s, t, push))
  {
    TakePending(s, t, push);
    MoveInOrder(s, ApplyTake(s, t, push), t);
  }

  lemma PushEndInOrder(s: State, a: Action)
    requires Enabled(s, a) && OnCourse(s) && (a.EndPush? || a.RetryPush?)
    ensures InOrder(Apply(s, a))
  {
    assert HandFits(s.pcs[a.t], s.x.hands[a.t]);
    CountOwn(s.x, if a.EndPush? then X.PushDone(a.t, true) else X.PushPutBack(a.t));
    if a.RetryPush? {
      TokenMeansDancing(s, a.t);
    }
  }

  lemma NoTokenWhileResting(s: State)
    requires OneToken(s) && !s.sh.dancing
    ensures InExchange(s) == 0 && forall t :: 0 <= t < |s.pcs| ==> Token(s.pcs[t]) == 0
  {
    TotalZero(s.pcs, Token);
  }

  /** A dance starts while nobody holds the token. */
  lemma StartInOrder(s: State, s': State, t: nat, net: Net)
    requires OnCourse(s) && !s.sh.dancing && t < |s.pcs| && s'.pcs == s.pcs[t := CheckTime]
    requires s'.x == s.x && s'.sh.dancing && s'.sh.net == Some(net) && s'.log == s.log + [Started(net)]
    ensures InOrder(s')
  {
    NoTokenWhileResting(s);
    StageAppend(s.log, Started(net));
    assert Pending(s', X.InitialAnswer) == 0 && Pending(s', X.RedirectAnswer) == 0;
  }

  lemma PollInOrder(s: State, t: nat)
    requires Enabled(s, Poll(t)) && OnCourse(s)
    ensures InOrder(ApplyPoll(s, t))
  {
    var s' := ApplyPoll(s, t);
    if s'.sh.dancing && !s.sh.dancing {
      StartInOrder(s, s', t, s.sh.net.value);
    } else {
      MoveInOrder(s, s', t);
    }
  }

  /** Whoever replaces the NET does so while nobody dances. */
  lemma AsideInOrder(s: State, s': State, t: nat, installed: Option<Net>)
    requires OnCourse(s) && Aside(s, s', t)
    requires s'.log == if installed.Some? then s.log + [Installed(installed.value)] else s.log
    requires s.sh.dancing ==> s'.sh.net == s.sh.net && installed == None
    ensures InOrder(s')
  {
    if s.sh.dancing {
      MoveInOrder(s, s', t);
    } else {
      NoTokenWhileResting(s);
      if installed.Some? {
        StageAppend(s.log, Installed(installed.value));
      }
      assert Pending(s', X.InitialAnswer) == 0 && Pending(s', X.RedirectAnswer) == 0;
    }
  }

  lemma SetNetLogs(s: State, t: nat, net: Net)
    requires Enabled(s, SetNet(t, net))
    ensures var s' := ApplySetNet(s, t, net);
            if s.sh.dancing then s'.log == s.log && s'.sh.net == s.sh.net
            else s'.log == if net.isObject then s.log + [Installed(net)] else s.log
  {
  }

  lemma NetStepLogs(s: State, t: nat, c: Choice)
    requires Enabled(s, NetStep(t, c)) && Locked(s)
    ensures var s' := ApplyNetStep(s, t, c);
            s'.log == s.log && (s'.sh.net != s.sh.net ==> !s.sh.dancing)
  {
  }

  lemma AsideStepInOrder(s: State, a: Action)
    requires Enabled(s, a) && OnCourse(s) && SteppingAside(a)
    ensures InOrder(Apply(s, a))
  {
    match a
    case GiveReply(t) =>
      ReplyIsAside(s, t);
      AsideInOrder(s, ApplyReply(s, t), t, None);
    case SetNet(t, net) =>
      SetNetIsAside(s, t, net);
      SetNetLogs(s, t, net);
      AsideInOrder(s, ApplySetNet(s, t, net), t, if net.isObject && !s.sh.dancing then Some(net) else None);
    case ResetNet(t) =>
      ResetIsAside(s, t);
      AsideInOrder(s, ApplyReset(s, t), t, None);
    case NetStep(t, c) =>
      NetStepIsAside(s, t, c);
      NetStepLogs(s, t, c);
      AsideInOrder(s, ApplyNetStep(s, t, c), t, None);
  }

  lemma StepInOrder(s: State, a: Action)
    requires Enabled(s, a) && OnCourse(s)
    ensures InOrder(Apply(s, a))
  {
    match a
    case Other(b) => OtherInOrder(s, b);
    case TakeAnswer(t, push) => TakeInOrder(s, t, push);
    case Step(t, c) => ThreadStepInOrder(s, t, c);
    case EndPush(_) => PushEndInOrder(s, a);
    case RetryPush(_) => PushEndInOrder(s, a);
    case Poll(t) => PollInOrder(s, t);
    case Stop =>
    case _ => AsideStepInOrder(s, a);
  }

  lemma InitOnCourse(n: nat, m: nat)
    ensures OnCourse(Init(n, m))
  {
    InitSound(n, m);
    NothingPending(n, m, X.InitialAnswer);
    NothingPending(n, m, X.RedirectAnswer);
  }

  lemma {:induction false} RunOnCourse(s: State, acts: seq<Action>)
    requires Legal(s, acts) && OnCourse(s)
    ensures OnCourse(Run(s, acts))
    decreases |acts|
  {
    if acts != [] {
      StepInOrder(s, acts[0]);
      StepKeepsSound(s, acts[0]);
      RunOnCourse(Apply(s, acts[0]), acts[1..]);
    }
  }

  // ---------------------------------------------------------------- what the order means

  function Named(gateway: Option<string>): string {
    if gateway.Some? then gateway.value else ""
  }

  /** The events from the start of a dance to a stage. */
  function Script(st: Stage): seq<Event>
    decreases Rank(st)
  {
    match st
    case Begun(n) => [Started(n)]
    case InitialAsked(n) => Script(Begun(n)) + [Asked(Initial, Named(n.initial))]
    case InitialDone(n) => Script(InitialAsked(n)) + [Answer200(Initial)]
    case Rested(n, w) => Script(InitialDone(n)) + [Walked(w)]
    case RedirectAsked(n, w) => Script(Rested(n, w)) + [Asked(Redirect, Named(n.redirect))]
    case RedirectDone(n, w) => Script(RedirectAsked(n, w)) + [Answer200(Redirect)]
    case Bridged(n, w) => Script(RedirectDone(n, w)) + [BridgesSet]
    case Finished(n, w) => Script(Bridged(n, w)) + [Completed]
    case _ => []
  }

  function Rank(st: Stage): nat {
    match st
    case Resting => 0
    case Begun(_) => 1
    case InitialAsked(_) => 2
    case InitialDone(_) => 3
    case Rested(_, _) => 4
    case RedirectAsked(_, _) => 5
    case RedirectDone(_, _) => 6
    case Bridged(_, _) => 7
    case Finished(_, _) => 8
    case Broken => 0
  }

  ghost predicate EndsWith(log: seq<Event>, tail: seq<Event>) {
    |tail| <= |log| && log[|log| - |tail|..] == tail
  }

  lemma EndsWithAppend(log: seq<Event>, tail: seq<Event>, e: Event)
    requires EndsWith(log, tail)
    ensures EndsWith(log + [e], tail + [e])
  {
  }

  lemma FollowScript(st: Stage, e: Event)
    requires !Follow(st, e).Broken? && !Follow(st, e).Resting?
    ensures Script(Follow(st, e)) == if st.Resting? then [e] else Script(st) + [e]
  {
  }

  /** The NET of a stage had the gateways and numbers that its phases used. */
  ghost predicate Grounded(st: Stage) {
    && (Rank(st) >= 2 ==> st.net.initial.Some?)
    && (Rank(st) >= 4 ==> Produced(st.net, st.w))
    && (Rank(st) >= 5 ==> st.net.redirect.Some?)
  }

  lemma FollowGrounded(st: Stage, e: Event)
    requires Grounded(st) && !Follow(st, e).Broken?
    ensures Grounded(Follow(st, e))
  {
  }

  /** The log of an unbroken run ends with exactly the script of its stage. */
  lemma {:induction false} StageHistory(log: seq<Event>)
    requires !StageOf(log).Broken?
    ensures Grounded(StageOf(log))
    ensures !StageOf(log).Resting? ==> EndsWith(log, Script(StageOf(log)))
    decreases |log|
  {
    if log != [] {
      var front, e := log[..|log| - 1], log[|log| - 1];
      assert log == front + [e];
      var st := StageOf(front);
      StageHistory(front);
      FollowGrounded(st, e);
      if !StageOf(log).Resting? {
        FollowScript(st, e);
        if !st.Resting? {
          EndsWithAppend(front, Script(st), e);
        }
      }
    }
  }

  lemma {:induction false} PrefixUnbroken(log: seq<Event>, k: nat)
    requires k <= |log| && !StageOf(log).Broken?
    ensures !StageOf(log[..k]).Broken?
    decreases |log|
  {
    if k < |log| {
      var front := log[..|log| - 1];
      PrefixUnbroken(front, k);
      assert front[..k] == log[..k];
    } else {
      assert log[..k] == log;
    }
  }

  /** In every run the log is in order, the flag is set exactly between a start and the matching
      end, and while it is set the NET is the one the dance started with. */
  lemma DanceInOrder(n: nat, m: nat, acts: seq<Action>)
    requires Legal(Init(n, m), acts)
    ensures var s := Run(Init(n, m), acts);
            var st := StageOf(s.log);
            && !st.Broken?
            && (s.sh.dancing <==> !st.Resting?)
            && (s.sh.dancing ==> s.sh.net == Some(st.net))
  {
    InitOnCourse(n, m);
    RunOnCourse(Init(n, m), acts);
  }

  /** The stage in front of an event of an unbroken log. */
  lemma StageBefore(log: seq<Event>, i: nat)
    requires i < |log| && !StageOf(log).Broken?
    ensures var st := StageOf(log[..i]);
            && !st.Broken? && !Follow(st, log[i]).Broken? && Grounded(st)
            && (!st.Resting? ==> EndsWith(log[..i], Script(st)))
  {
    PrefixUnbroken(log, i + 1);
    PrefixUnbroken(log, i);
    assert log[..i + 1] == log[..i] + [log[i]];
    StageAppend(log[..i], log[i]);
    StageHistory(log[..i]);
  }

  /** The waiting time lies in the window, if the NET's two numbers do not overflow 64 bits. */
  predicate InWindow(n: Net, w: nat) {
    n.wait.Some? && n.window.Some? && n.wait.value + n.window.value <= TWO_TO_THE_64 ==>
      n.wait.value <= w < n.wait.value + n.window.value
  }

  lemma ProducedInWindow(n: Net, w: nat)
    requires Produced(n, w)
    ensures InWindow(n, w)
  {
    var wait, window := n.wait.value, n.window.value;
    var r: nat :| w == WalkTime(wait, window, r);
    assert r % window < window;
    if wait + window <= TWO_TO_THE_64 {
      assert w == wait + r % window;
    }
  }

  /** A request to the redirect gateway at this place of the log comes right after a waiting time
      that the NET's numbers can produce, and that lies in their window, which comes after a 200 to
      the same dance's request to the initial gateway; both gateways are those of the NET the dance
      started with. */
  ghost predicate AfterTheWait(log: seq<Event>, i: nat, gw: string)
    requires i < |log|
  {
    exists net: Net, w: nat ::
      && net.redirect == Some(gw) && Produced(net, w) && InWindow(net, w) && net.initial.Some?
      && EndsWith(log[..i], [Started(net), Asked(Initial, Named(net.initial)), Answer200(Initial), Walked(w)])
  }

  lemma ScriptToWait(n: Net, w: nat)
    ensures Script(Rested(n, w)) == [Started(n), Asked(Initial, Named(n.initial)), Answer200(Initial), Walked(w)]
  {
    assert Script(InitialAsked(n)) == [Started(n), Asked(Initial, Named(n.initial))];
    assert Script(InitialDone(n)) == [Started(n), Asked(Initial, Named(n.initial)), Answer200(Initial)];
  }

  lemma RestedEnds(log: seq<Event>, n: Net, w: nat)
    requires EndsWith(log, Script(Rested(n, w)))
    ensures EndsWith(log, [Started(n), Asked(Initial, Named(n.initial)), Answer200(Initial), Walked(w)])
  {
    ScriptToWait(n, w);
  }

  lemma UnbrokenMeansAfterTheWait(log: seq<Event>, i: nat, gw: string)
    requires i < |log| && !StageOf(log).Broken? && log[i] == Asked(Redirect, gw)
    ensures AfterTheWait(log, i, gw)
  {
    StageBefore(log, i);
    var st := StageOf(log[..i]);
    assert st == Rested(st.net, st.w);
    ProducedInWindow(st.net, st.w);
    RestedEnds(log[..i], st.net, st.w);
  }

  lemma RedirectComesAfterTheWait(n: nat, m: nat, acts: seq<Action>, i: nat, gw: string)
    requires Legal(Init(n, m), acts)
    requires i < |Run(Init(n, m), acts).log| && Run(Init(n, m), acts).log[i] == Asked(Redirect, gw)
    ensures AfterTheWait(Run(Init(n, m), acts).log, i, gw)
  {
    DanceInOrder(n, m, acts);
    UnbrokenMeansAfterTheWait(Run(Init(n, m), acts).log, i, gw);
  }

  /** Completion at this place of the log comes right after a 200 to a request to the redirect
      gateway whose body could be decoded and parsed as a list of bridges. */
  ghost predicate AfterTheBridges(log: seq<Event>, i: nat)
    requires i < |log|
  {
    exists gw: string :: EndsWith(log[..i], [Asked(Redirect, gw), Answer200(Redirect), BridgesSet])
  }

  lemma ScriptFromWait(n: Net, w: nat)
    ensures Script(Bridged(n, w))
            == Script(Rested(n, w)) + [Asked(Redirect, Named(n.redirect)), Answer200(Redirect), BridgesSet]
  {
    var front, a := Script(Rested(n, w)), Asked(Redirect, Named(n.redirect));
    assert Script(RedirectAsked(n, w)) == front + [a];
    assert Script(RedirectDone(n, w)) == front + [a] + [Answer200(Redirect)];
  }

  lemma BridgedEnds(log: seq<Event>, n: Net, w: nat)
    requires EndsWith(log, Script(Bridged(n, w)))
    ensures EndsWith(log, [Asked(Redirect, Named(n.redirect)), Answer200(Redirect), BridgesSet])
  {
    ScriptFromWait(n, w);
    SplitTail(log, Script(Rested(n, w)), [Asked(Redirect, Named(n.redirect)), Answer200(Redirect), BridgesSet]);
  }

  lemma UnbrokenMeansAfterTheBridges(log: seq<Event>, i: nat)
    requires i < |log| && !StageOf(log).Broken? && log[i] == Completed
    ensures AfterTheBridges(log, i)
  {
    StageBefore(log, i);
    var st := StageOf(log[..i]);
    assert st == Bridged(st.net, st.w);
    BridgedEnds(log[..i], st.net, st.w);
  }

  lemma CompletionComesAfterTheBridges(n: nat, m: nat, acts: seq<Action>, i: nat)
    requires Legal(Init(n, m), acts)
    requires i < |Run(Init(n, m), acts).log| && Run(Init(n, m), acts).log[i] == Completed
    ensures AfterTheBridges(Run(Init(n, m), acts).log, i)
  {
    DanceInOrder(n, m, acts);
    UnbrokenMeansAfterTheBridges(Run(Init(n, m), acts).log, i);
  }

  lemma SplitTail(log: seq<Event>, front: seq<Event>, tail: seq<Event>)
    requires EndsWith(log, front + tail)
    ensures EndsWith(log, tail)
  {
    assert log[|log| - |tail|..] == log[|log| - |front + tail|..][|front|..];
  }

  /** The waiting time lies in the NET's window for every random number exactly when the sum of
      its two numbers does not overflow 64 bits. */
  lemma WalkStaysInWindow(wait: nat, window: nat)
    requires 0 < window < TWO_TO_THE_64 && wait < TWO_TO_THE_64
    ensures (forall r: nat :: wait <= WalkTime(wait, window, r) < wait + window)
            <==> wait + window <= TWO_TO_THE_64
  {
    if wait + window <= TWO_TO_THE_64 {
      forall r: nat ensures wait <= WalkTime(wait, window, r) < wait + window {
        assert r % window < window;
      }
    } else {
      var r := window - 1;
      assert r % window == r;
      assert wait + r >= TWO_TO_THE_64;
      assert WalkTime(wait, window, r) == wait + r - TWO_TO_THE_64;
      assert WalkTime(wait, window, r) < wait;
    }
  }
}
