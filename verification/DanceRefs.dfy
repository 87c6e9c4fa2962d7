/** The references to NET values: whatever mix of accepted, rejected, malformed and empty NETs is
    set, each value is released once, and the current one is held once. */
module DanceRefs {
  import opened Collections
  import X = Exchange
  import opened Dance
  import opened DanceSafety

  /** The root a thread inside a set call still holds a reference of. */
  function RootOf(pc: Pc): Option<nat> {
    match pc
    case Rejected(refused) => if refused.Some? then Some(refused.value.root) else None
    case Describe(net) => Some(net.root)
    case Ready(net) => Some(net.root)
    case NetBad(net) => Some(net.root)
    case Release(net) => Some(net.root)
    case _ => None
  }

  function HoldsRoot(pc: Pc, r: nat): nat { if RootOf(pc) == Some(r) then 1 else 0 }

  function Holds(r: nat): Pc -> nat { (pc: Pc) => HoldsRoot(pc, r) }

  /** l_net has a reference of its own, which it gets at the end of a set call. */
  function NetHolds(sh: Shared, r: nat): nat {
    if sh.lock == None && sh.net.Some? && sh.net.value.root == r then 1 else 0
  }

  /** Every reference counted is one that a thread or l_net holds. */
  ghost predicate Balanced(refs: Counts, pcs: seq<Pc>, sh: Shared) {
    forall r: nat :: CountOf(refs, r) == Total(pcs, Holds(r)) + NetHolds(sh, r)
  }

  /** A thread that holds the lock has put its own value into l_net. */
  ghost predicate LockedNet(pcs: seq<Pc>, sh: Shared) {
    sh.lock.Some? ==>
      sh.lock.value < |pcs| && sh.net.Some? && RootOf(pcs[sh.lock.value]) == Some(sh.net.value.root)
  }

  /** Exactly the values without references were freed, each once. */
  ghost predicate FreedOnce(refs: Counts, freed: seq<nat>) {
    && NoDuplicates(freed)
    && forall r: nat :: r in freed <==> r in refs && refs[r] == 0
  }

  ghost predicate RefsRight(s: State) {
    Balanced(s.refs, s.pcs, s.sh) && LockedNet(s.pcs, s.sh) && FreedOnce(s.refs, s.freed)
  }

  // ---------------------------------------------------------------- bookkeeping

  lemma DecrefFreesOnce(refs: Counts, freed: seq<nat>, root: nat)
    requires FreedOnce(refs, freed) && CountOf(refs, root) > 0
    ensures var (refs', freed') := Decref(refs, freed, root);
            && FreedOnce(refs', freed')
            && forall r: nat :: CountOf(refs', r) == CountOf(refs, r) - if r == root then 1 else 0
  {
    var (refs', freed') := Decref(refs, freed, root);
    assert root !in freed;
    forall r: nat ensures r in freed' <==> r in refs' && refs'[r] == 0 {
      assert r in freed' <==> r in freed || (r == root && refs'[root] == 0);
    }
  }

  lemma IncrefFreesNothing(refs: Counts, freed: seq<nat>, root: nat)
    requires FreedOnce(refs, freed) && (root in refs ==> refs[root] > 0)
    ensures FreedOnce(Incref(refs, root), freed)
    ensures forall r: nat :: CountOf(Incref(refs, root), r) == CountOf(refs, r) + if r == root then 1 else 0
  {
    assert root !in freed;
  }

  /** One thread moves: what it, l_net and the counts give up and gain has to match. */
  lemma Rebalance(refs: Counts, refs': Counts, pcs: seq<Pc>, t: nat, pc: Pc, sh: Shared, sh': Shared)
    requires Balanced(refs, pcs, sh) && t < |pcs|
    requires forall r: nat :: CountOf(refs', r) + HoldsRoot(pcs[t], r) + NetHolds(sh, r)
                              == CountOf(refs, r) + HoldsRoot(pc, r) + NetHolds(sh', r)
    ensures Balanced(refs', pcs[t := pc], sh')
  {
    forall r: nat ensures CountOf(refs', r) == Total(pcs[t := pc], Holds(r)) + NetHolds(sh', r) {
      TotalUpdate(pcs, t, pc, Holds(r));
      assert CountOf(refs, r) == Total(pcs, Holds(r)) + NetHolds(sh, r);
    }
  }

  /** Nothing about references changes when no thread enters or leaves a set call. */
  lemma MoveKeepsRefs(s: State, s': State, t: nat)
    requires RefsRight(s) && t < |s.pcs| == |s'.pcs| && s'.pcs == s.pcs[t := s'.pcs[t]]
    requires RootOf(s'.pcs[t]) == RootOf(s.pcs[t])
    requires s'.refs == s.refs && s'.freed == s.freed
    requires s'.sh.lock == s.sh.lock && s'.sh.net == s.sh.net
    ensures RefsRight(s')
  {
    Rebalance(s.refs, s.refs, s.pcs, t, s'.pcs[t], s.sh, s'.sh);
  }

  lemma NextOutside(pc: Pc, c: Choice, running: bool, net: Option<Net>)
    requires Stepping(pc, net)
    ensures RootOf(pc) == None && RootOf(Next(pc, c, running, net).pc) == None
  {
  }

  // ---------------------------------------------------------------- set calls

  lemma DropOldKeeps(s: State)
    requires RefsRight(s) && s.sh.lock == None
    ensures var (refs, freed) := DropOld(s.refs, s.freed, s.sh.net);
            && FreedOnce(refs, freed) && refs.Keys == s.refs.Keys
            && forall r: nat :: CountOf(refs, r) == CountOf(s.refs, r) - NetHolds(s.sh, r)
  {
    if s.sh.net.Some? {
      var root := s.sh.net.value.root;
      assert NetHolds(s.sh, root) == 1;
      assert CountOf(s.refs, root) > 0;
      DecrefFreesOnce(s.refs, s.freed, root);
    }
  }

  lemma ResetKeepsRefs(s: State, t: nat)
    requires Enabled(s, ResetNet(t)) && RefsRight(s)
    ensures RefsRight(ApplyReset(s, t))
  {
    var s' := ApplyReset(s, t);
    if s.sh.dancing {
      MoveKeepsRefs(s, s', t);
    } else {
      DropOldKeeps(s);
      Rebalance(s.refs, s'.refs, s.pcs, t, s.pcs[t], s.sh, s'.sh);
      assert s.pcs[t := s.pcs[t]] == s.pcs;
    }
  }

  lemma RefusedSetKeepsRefs(s: State, t: nat, net: Net)
    requires Enabled(s, SetNet(t, net)) && RefsRight(s) && s.sh.dancing
    ensures RefsRight(ApplySetNet(s, t, net))
  {
    var s' := ApplySetNet(s, t, net);
    IncrefFreesNothing(s.refs, s.freed, net.root);
    Rebalance(s.refs, s'.refs, s.pcs, t, s'.pcs[t], s.sh, s'.sh);
  }

  /** A new root comes with one reference, which the caller holds. */
  lemma SetNetKeepsRefs(s: State, t: nat, net: Net)
    requires Enabled(s, SetNet(t, net)) && RefsRight(s)
    ensures RefsRight(ApplySetNet(s, t, net))
  {
    if s.sh.dancing {
      RefusedSetKeepsRefs(s, t, net);
    } else {
      var s' := ApplySetNet(s, t, net);
      var (refs, freed) := DropOld(s.refs, s.freed, s.sh.net);
      DropOldKeeps(s);
      assert net.root !in refs;
      IncrefFreesNothing(refs, freed, net.root);
      Rebalance(s.refs, s'.refs, s.pcs, t, s'.pcs[t], s.sh, s'.sh);
    }
  }

  lemma ReleaseKeepsRefs(s: State, t: nat, c: Choice)
    requires Enabled(s, NetStep(t, c)) && RefsRight(s) && Locked(s) && s.pcs[t].Release?
    ensures RefsRight(ApplyNetStep(s, t, c))
  {
    var s' := ApplyNetStep(s, t, c);
    var root := s.pcs[t].net.root;
    TotalMember(s.pcs, t, Holds(root));
    assert CountOf(s.refs, root) > 0;
    DecrefFreesOnce(s.refs, s.freed, root);
    Rebalance(s.refs, s'.refs, s.pcs, t, Idle, s.sh, s'.sh);
    assert s.sh.lock != Some(t);
  }

  /** l_net takes its own reference just before the lock is given up. */
  lemma ReadyKeepsRefs(s: State, t: nat, c: Choice)
    requires Enabled(s, NetStep(t, c)) && RefsRight(s) && Locked(s) && s.pcs[t].Ready?
    ensures RefsRight(ApplyNetStep(s, t, c))
  {
    var s' := ApplyNetStep(s, t, c);
    var net := s.pcs[t].net;
    assert s.sh.lock == Some(t) && s.sh.net.value.root == net.root;
    TotalMember(s.pcs, t, Holds(net.root));
    assert CountOf(s.refs, net.root) > 0;
    IncrefFreesNothing(s.refs, s.freed, net.root);
    Rebalance(s.refs, s'.refs, s.pcs, t, Release(net), s.sh, s'.sh);
  }

  lemma NetBadKeepsRefs(s: State, t: nat, c: Choice)
    requires Enabled(s, NetStep(t, c)) && RefsRight(s) && Locked(s) && s.pcs[t].NetBad?
    ensures RefsRight(ApplyNetStep(s, t, c))
  {
    var s' := ApplyNetStep(s, t, c);
    assert s.sh.lock == Some(t);
    Rebalance(s.refs, s.refs, s.pcs, t, Release(s.pcs[t].net), s.sh, s'.sh);
  }

  lemma NetStepKeepsRefs(s: State, t: nat, c: Choice)
    requires Enabled(s, NetStep(t, c)) && RefsRight(s) && Locked(s)
    ensures RefsRight(ApplyNetStep(s, t, c))
  {
    match s.pcs[t]
    case Rejected(_) => MoveKeepsRefs(s, ApplyNetStep(s, t, c), t);
    case Describe(_) => MoveKeepsRefs(s, ApplyNetStep(s, t, c), t);
    case Ready(_) => ReadyKeepsRefs(s, t, c);
    case NetBad(_) => NetBadKeepsRefs(s, t, c);
    case Release(_) => ReleaseKeepsRefs(s, t, c);
  }

  lemma ThreadStepKeepsRefs(s: State, t: nat, c: Choice)
    requires Enabled(s, Step(t, c)) && RefsRight(s)
    ensures RefsRight(Apply(s, Step(t, c)))
  {
    var e := Next(s.pcs[t], c, s.running, s.sh.net);
    NextOutside(s.pcs[t], c, s.running, s.sh.net);
    MoveKeepsRefs(s, Perform(s, t, c, e), t);
  }

  lemma PushEndKeepsRefs(s: State, a: Action)
    requires Enabled(s, a) && RefsRight(s) && (a.EndPush? || a.RetryPush?)
    ensures RefsRight(Apply(s, a))
  {
    MoveKeepsRefs(s, Apply(s, a), a.t);
  }

  lemma OtherKeepsRefs(s: State, b: X.Action)
    requires Foreign(s, b) && RefsRight(s)
    ensures RefsRight(ApplyOther(s, b))
  {
  }

  lemma TakeKeepsRefs(s: State, t: nat, push: X.Push)
    requires Enabled(s, TakeAnswer(t, push)) && RefsRight(s)
    ensures RefsRight(ApplyTake(s, t, push))
  {
    MoveKeepsRefs(s, ApplyTake(s, t, push), t);
  }

  lemma PollKeepsRefs(s: State, t: nat)
    requires Enabled(s, Poll(t)) && RefsRight(s)
    ensures RefsRight(ApplyPoll(s, t))
  {
    MoveKeepsRefs(s, ApplyPoll(s, t), t);
  }

  lemma ReplyKeepsRefs(s: State, t: nat)
    requires Enabled(s, GiveReply(t)) && RefsRight(s)
    ensures RefsRight(ApplyReply(s, t))
  {
    MoveKeepsRefs(s, ApplyReply(s, t), t);
  }

  lemma StepKeepsRefs(s: State, a: Action)
    requires Enabled(s, a) && RefsRight(s) && Locked(s)
    ensures RefsRight(Apply(s, a))
  {
    match a
    case Other(b) => OtherKeepsRefs(s, b);
    case Step(t, c) => ThreadStepKeepsRefs(s, t, c);
    case EndPush(_) => PushEndKeepsRefs(s, a);
    case RetryPush(_) => PushEndKeepsRefs(s, a);
    case SetNet(t, net) => SetNetKeepsRefs(s, t, net);
    case ResetNet(t) => ResetKeepsRefs(s, t);
    case NetStep(t, c) => NetStepKeepsRefs(s, t, c);
    case TakeAnswer(t, push) => TakeKeepsRefs(s, t, push);
    case Poll(t) => PollKeepsRefs(s, t);
    case GiveReply(t) => ReplyKeepsRefs(s, t);
    case Stop =>
  }

  lemma {:induction false} RunKeepsRefs(s: State, acts: seq<Action>)
    requires Legal(s, acts) && RefsRight(s) && Sound(s)
    ensures RefsRight(Run(s, acts)) && Sound(Run(s, acts))
    decreases |acts|
  {
    if acts != [] {
      StepKeepsRefs(s, acts[0]);
      StepKeepsSound(s, acts[0]);
      RunKeepsRefs(Apply(s, acts[0]), acts[1..]);
    }
  }

  /** In every run: each value was released at most once, and exactly those that nobody refers to
      any more were; and whenever no set call is in progress the current NET has exactly one
      reference and every other value was released. */
  lemma EachNetReleasedOnce(n: nat, m: nat, acts: seq<Action>)
    requires Legal(Init(n, m), acts)
    ensures var s := Run(Init(n, m), acts);
            && NoDuplicates(s.freed)
            && (forall r: nat :: r in s.freed <==> r in s.refs && s.refs[r] == 0)
            && ((forall t :: 0 <= t < |s.pcs| ==> !Setting(s.pcs[t])) ==>
                  forall r: nat :: CountOf(s.refs, r) == if s.sh.net.Some? && s.sh.net.value.root == r then 1 else 0)
  {
    InitSound(n, m);
    forall r: nat ensures Total(Init(n, m).pcs, Holds(r)) == 0 {
      TotalZero(Init(n, m).pcs, Holds(r));
    }
    RunKeepsRefs(Init(n, m), acts);
    var s := Run(Init(n, m), acts);
    if forall t :: 0 <= t < |s.pcs| ==> !Setting(s.pcs[t]) {
      OnlyNetHolds(s);
    }
  }

  lemma OnlyNetHolds(s: State)
    requires RefsRight(s) && Locked(s) && forall t :: 0 <= t < |s.pcs| ==> !Setting(s.pcs[t])
    ensures forall r: nat :: CountOf(s.refs, r) == if s.sh.net.Some? && s.sh.net.value.root == r then 1 else 0
  {
    forall r: nat ensures CountOf(s.refs, r) == NetHolds(s.sh, r) {
      TotalZero(s.pcs, Holds(r));
    }
    assert s.sh.lock == None;
  }
}
