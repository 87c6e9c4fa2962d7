/** What every run of peeling requests keeps, and what only careful runs keep. */
module RendezvousSafety {
  import opened Collections
  import opened Rendezvous

  // ---------------------------------------------------------------- every allocation in one place

  function Is(o: Option<Obj>, id: nat): nat {
    if o.Some? && o.value.id == id then 1 else 0
  }

  function Count(ids: seq<nat>, id: nat): nat {
    if ids == [] then 0 else Count(ids[..|ids| - 1], id) + if ids[|ids| - 1] == id then 1 else 0
  }

  lemma CountAppend(ids: seq<nat>, i: nat, id: nat)
    ensures Count(ids + [i], id) == Count(ids, id) + if i == id then 1 else 0
  {
    assert (ids + [i])[..|ids|] == ids;
  }

  function Held(s: State, id: nat): nat {
    Is(s.current, id) + Is(s.inner, id) + Count(s.hist.freed, id) + Count(s.hist.leaked, id)
  }

  /** How many times an onion is held, for every onion allocated. */
  ghost predicate Placed(s: State) {
    forall id: nat :: Held(s, id) == if id < s.hist.next then 1 else 0
  }

  lemma FreeHolds(s: State, o: Option<Obj>, id: nat)
    ensures Held(Free(s, o), id) == Held(s, id) + Is(o, id)
    ensures Held(Leak(s, o), id) == Held(s, id) + Is(o, id)
  {
    if o.Some? {
      CountAppend(s.hist.freed, o.value.id, id);
      CountAppend(s.hist.leaked, o.value.id, id);
    }
  }

  lemma ReplaceHolds(s: State, o: Obj, id: nat)
    ensures Held(Replace(s, o), id) == Held(s, id) + Is(Some(o), id)
  {
    FreeHolds(s, s.current, id);
  }

  lemma ResetPowHolds(s: State, id: nat)
    ensures Held(ResetPow(s), id) == Held(s, id)
  {
    FreeHolds(s, s.inner, id);
  }

  lemma ResetHolds(s: State, id: nat)
    ensures Held(ResetAll(s), id) == Held(s, id)
  {
    FreeHolds(s, s.current, id);
    ResetPowHolds(Free(s, s.current).(current := None, captcha := None, image := false), id);
  }

  lemma PeelPowHolds(s: State, ok: bool, id: nat)
    ensures PeelPow(s, ok).hist.next == s.hist.next && Held(PeelPow(s, ok), id) == Held(s, id)
  {
    if s.inner.Some? {
      var t := Replace(s, s.inner.value).(inner := None);
      ReplaceHolds(s, s.inner.value, id);
      assert Held(t, id) == Held(s, id);
      ResetPowHolds(t, id);
    }
  }

  lemma PeelInPlaceHolds(s: State, o: Onion, id: nat)
    ensures PeelInPlace(s, o).hist.next == s.hist.next + 1
    ensures Held(PeelInPlace(s, o), id) == Held(s, id) + if id == s.hist.next then 1 else 0
  {
    ReplaceHolds(s.(hist := s.hist.(next := s.hist.next + 1)), Obj(s.hist.next, o), id);
  }

  lemma PeelHolds(s: State, ok: bool, id: nat)
    ensures var t := PeelCurrent(s, ok);
            && s.hist.next <= t.hist.next <= s.hist.next + 1
            && Held(t, id) == Held(s, id) + if s.hist.next <= id < t.hist.next then 1 else 0
  {
    if s.current.Some? {
      match s.current.value.onion
      case Pow(_) => PeelPowHolds(s, ok, id);
      case Captcha(inner) => PeelInPlaceHolds(s, inner, id);
      case Signed(inner) => PeelInPlaceHolds(s, inner, id);
      case _ =>
    }
  }

  lemma PutHolds(s: State, o: Option<Onion>, id: nat)
    ensures var t := PutInner(s, o);
            && t.hist.next == s.hist.next + (if o == None then 0 else 1)
            && Held(t, id) + Is(s.inner, id) == Held(s, id) + if s.hist.next <= id < t.hist.next then 1 else 0
  {
  }

  lemma DeliverHolds(s: State, w: nat, found: bool, id: nat)
    requires Enabled(s, Deliver(w, found))
    ensures var t := DeliverInner(s, w, found);
            && s.hist.next <= t.hist.next <= s.hist.next + 1
            && Held(t, id) == Held(s, id) + if s.hist.next <= id < t.hist.next then 1 else 0
  {
    var o := s.workers[w].obj;
    var t := Touch(s, o.id);
    assert Held(t, id) == Held(s, id) && t.inner == s.inner;
    FreeHolds(t, s.inner, id);
    PutHolds(Leak(t, s.inner), if found then Some(o.onion.inner) else None, id);
  }

  /** The step allocates at most one onion, and that is then held once. */
  lemma StepHolds(s: State, a: Action, id: nat)
    requires Enabled(s, a)
    ensures var t := Apply(s, a);
            && s.hist.next <= t.hist.next <= s.hist.next + 1
            && Held(t, id) == Held(s, id) + if s.hist.next <= id < t.hist.next then 1 else 0
  {
    match a
    case Image(extracted) => FreeHolds(s, s.current, id);
    case Reset => ResetHolds(s, id);
    case Peel(ok) => PeelHolds(s, ok, id);
    case Deliver(w, found) => DeliverHolds(s, w, found, id);
    case _ =>
  }

  lemma {:induction false} RunKeepsPlaced(s: State, acts: seq<Action>)
    requires Legal(s, acts) && Placed(s)
    ensures Placed(Run(s, acts))
    decreases |acts|
  {
    if acts != [] {
      forall id: nat
        ensures Held(Apply(s, acts[0]), id) == if id < Apply(s, acts[0]).hist.next then 1 else 0
      {
        StepHolds(s, acts[0], id);
      }
      RunKeepsPlaced(Apply(s, acts[0]), acts[1..]);
    }
  }

  /** Over every run, with resets, new images and workers at any moment, an onion that was ever
      allocated is the current one, or the proof-of-work's result, or was freed once, or was
      overwritten once; no onion is freed twice. */
  lemma NoOnionFreedTwice(acts: seq<Action>, id: nat)
    requires Legal(Init(), acts)
    ensures var s := Run(Init(), acts);
            && Held(s, id) == (if id < s.hist.next then 1 else 0)
            && Count(s.hist.freed, id) <= 1
            && (Count(s.hist.freed, id) == 1 ==> Is(s.current, id) == 0 && Is(s.inner, id) == 0)
  {
    RunKeepsPlaced(Init(), acts);
  }

  /** An onion is leaked in two ways only: a new image overwrites the current onion, or a worker
      overwrites a result that was not taken. */
  lemma LeaksExactly(s: State, a: Action)
    requires Enabled(s, a)
    ensures Apply(s, a).hist.leaked
         == if a.Image? && a.extracted.Some? && s.current.Some? then s.hist.leaked + [s.current.value.id]
            else if a.Deliver? && s.inner.Some? then s.hist.leaked + [s.inner.value.id]
            else s.hist.leaked
  {
    match a
    case Peel(ok) => PeelLeaksNothing(s, ok);
    case Deliver(w, found) =>
      assert Apply(s, a).hist.leaked == Leak(Touch(s, s.workers[w].obj.id), s.inner).hist.leaked;
    case _ =>
  }

  lemma PeelLeaksNothing(s: State, ok: bool)
    ensures PeelCurrent(s, ok).hist.leaked == s.hist.leaked
  {
  }

  // ---------------------------------------------------------------- careful runs

  /** The last thread started has not ended. */
  predicate Running(s: State) {
    s.workers != [] && !s.workers[|s.workers| - 1].Ended?
  }

  function Latest(s: State): Worker
    requires s.workers != []
  {
    s.workers[|s.workers| - 1]
  }

  /** The worker, its result and its flags fit the current onion. */
  predicate WorkerFits(s: State) {
    && (forall w :: 0 <= w < |s.workers| - 1 ==> s.workers[w].Ended?)
    && (s.started ==> s.workers != [])
    && (s.finished <==> s.started && !Running(s))
    && (Running(s) ==> s.started)
    && (s.inner.Some? ==> s.started && s.current.Some? && s.current.value.onion == Onion.Pow(s.inner.value.onion))
    && (Running(s) && Latest(s).Spawned? ==>
          s.inner == None && s.current.Some? && s.current.value.onion.Pow?)
    && (Running(s) && Latest(s).Computing? ==>
          s.inner == None && s.current.Some? && s.current.value.onion == Latest(s).obj.onion
          && Latest(s).obj.onion.Pow?)
  }

  /** The current onion is a layer of the last one accepted, as many layers down as were peeled. */
  predicate OnTheWayDown(s: State) {
    && (s.current.Some? ==> s.image && Descend(s.hist.accepted, s.hist.peels) == Some(s.current.value.onion))
    && forall g :: g in s.hist.nets ==> Innermost(g.accepted) == Base(g.net)
  }

  predicate Consistent(s: State) {
    WorkerFits(s) && OnTheWayDown(s)
  }

  /** A reset has to wait until the worker has ended. A new image has to wait until the worker's
      result is taken, unless the new onion is just what the worker has in mind. */
  predicate Careful(s: State, a: Action) {
    match a
    case Reset => !Running(s)
    case Image(Some(o)) =>
      && (s.inner.Some? ==> o == Onion.Pow(s.inner.value.onion))
      && (Running(s) && Latest(s).Spawned? ==> o.Pow?)
      && (Running(s) && Latest(s).Computing? ==> o == Latest(s).obj.onion)
    case _ => true
  }

  lemma ReplaceKeepsDescent(s: State, o: Obj)
    requires OnTheWayDown(s) && s.current.Some?
    requires !s.current.value.onion.Base? && !s.current.value.onion.Bundle? && s.current.value.onion.inner == o.onion
    ensures OnTheWayDown(Replace(s, o))
  {
    DescendNext(s.hist.accepted, s.hist.peels, s.current.value.onion);
  }

  lemma PeelKeepsDescent(s: State, ok: bool)
    requires Consistent(s)
    ensures OnTheWayDown(PeelCurrent(s, ok))
  {
    if s.current.Some? {
      var o := s.current.value;
      DescendNext(s.hist.accepted, s.hist.peels, o.onion);
      if o.onion.Pow? {
        if s.inner.Some? {
          ReplaceKeepsDescent(s, s.inner.value);
        }
      } else if o.onion.Captcha? || o.onion.Signed? {
        ReplaceKeepsDescent(s.(hist := s.hist.(next := s.hist.next + 1)), Obj(s.hist.next, o.onion.inner));
      }
    }
  }

  lemma PeelKeepsFit(s: State, ok: bool)
    requires Consistent(s)
    ensures WorkerFits(PeelCurrent(s, ok))
  {
  }

  /** A step from a consistent state leads to one exactly when it is careful. */
  lemma CarefulExactly(s: State, a: Action)
    requires Enabled(s, a) && Consistent(s)
    ensures Consistent(Apply(s, a)) <==> Careful(s, a)
  {
    match a
    case Peel(ok) =>
      PeelKeepsDescent(s, ok);
      PeelKeepsFit(s, ok);
    case Image(Some(o)) =>
      assert Descend(o, 0) == Some(o);
    case _ =>
  }

  predicate CarefulRun(s: State, acts: seq<Action>)
    requires Legal(s, acts)
    decreases |acts|
  {
    acts == [] || (Careful(s, acts[0]) && CarefulRun(Apply(s, acts[0]), acts[1..]))
  }

  lemma {:induction false} RunKeepsConsistent(s: State, acts: seq<Action>)
    requires Legal(s, acts) && CarefulRun(s, acts) && Consistent(s)
    ensures Consistent(Run(s, acts))
    decreases |acts|
  {
    if acts != [] {
      CarefulExactly(s, acts[0]);
      RunKeepsConsistent(Apply(s, acts[0]), acts[1..]);
    }
  }
}
