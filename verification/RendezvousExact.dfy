/** When exactly a reset or a new image mixes up onions: after which steps the worker and later
    peels can bring the current onion off its way down, read an onion that was freed, or leave a
    started thread without the onion it needs. */
module RendezvousExact {
  import opened Collections
  import opened Rendezvous
  import opened RendezvousSafety
  import opened RendezvousDescent

  /** Something has gone wrong. */
  ghost predicate Mixed(s: State) {
    !OnTheWayDown(s) || s.hist.afterFree != [] || exists w :: 0 <= w < |s.workers| && Lost(s, w)
  }

  /** Peels and steps of the worker, without resets and new images. */
  predicate GoesOn(acts: seq<Action>) {
    forall i :: 0 <= i < |acts| ==> !acts[i].Reset? && !acts[i].Image?
  }

  /** Something can go wrong without a further reset or image. */
  ghost predicate Mixable(s: State) {
    exists more :: Legal(s, more) && GoesOn(more) && Mixed(Run(s, more))
  }

  lemma AlreadyMixed(s: State)
    requires Mixed(s)
    ensures Mixable(s)
  {
    assert Legal(s, []) && GoesOn([]) && Run(s, []) == s;
  }

  lemma Before(s: State, a: Action)
    requires Enabled(s, a) && !a.Reset? && !a.Image? && Mixable(Apply(s, a))
    ensures Mixable(s)
  {
    var more :| Legal(Apply(s, a), more) && GoesOn(more) && Mixed(Run(Apply(s, a), more));
    RunCons(s, a, more);
    assert GoesOn([a] + more);
  }

  /** The first proof-of-work layer of an onion, if it has one, is this one with all below it. */
  predicate FirstPowFits(o: Onion, layer: Onion) {
    match o
    case Pow(_) => o == layer
    case Captcha(inner) => FirstPowFits(inner, layer)
    case Signed(inner) => FirstPowFits(inner, layer)
    case _ => true
  }

  /** A reset does no harm when the thread has read its onion, and this is not the one that the
      reset frees. A new image does no harm when the result that is waiting, or being computed,
      belongs to its first proof-of-work layer, and when a thread that has not begun finds a
      proof-of-work in it. */
  predicate Harmless(s: State, a: Action) {
    match a
    case Reset =>
      && (Running(s) ==> !Latest(s).Spawned?)
      && (Running(s) && Latest(s).Computing? ==> s.current != Some(Latest(s).obj))
    case Image(Some(o)) =>
      && (s.inner.Some? ==> FirstPowFits(o, Onion.Pow(s.inner.value.onion)))
      && (Running(s) && Latest(s).Spawned? ==> o.Pow?)
      && (Running(s) && Latest(s).Computing? ==> FirstPowFits(o, Latest(s).obj.onion))
    case _ => true
  }

  /** The object a worker computes on was allocated. */
  predicate Allocated(s: State) {
    Running(s) && Latest(s).Computing? ==> Latest(s).obj.id < s.hist.next
  }

  // ---------------------------------------------------------------- what keeps onions apart

  /** No onion is current: a worker may still run, but nobody takes its result. */
  predicate Idle(s: State) {
    && s.current == None
    && forall w :: 0 <= w < |s.workers| ==>
         && !s.workers[w].Spawned?
         && (s.workers[w].Computing? ==> s.workers[w].obj.id !in s.hist.freed)
  }

  /** As WorkerFits, but the worker's result may be for a proof-of-work further down. */
  predicate Suits(s: State) {
    && s.current.Some?
    && (forall w :: 0 <= w < |s.workers| - 1 ==> s.workers[w].Ended?)
    && (s.started ==> s.workers != [])
    && (s.finished <==> s.started && !Running(s))
    && (Running(s) ==> s.started)
    && (s.inner.Some? ==> s.started && FirstPowFits(s.current.value.onion, Onion.Pow(s.inner.value.onion)))
    && (Running(s) && Latest(s).Spawned? ==> s.inner == None && s.current.value.onion.Pow?)
    && (Running(s) && Latest(s).Computing? ==> s.inner == None && SuitsWorker(s, Latest(s).obj))
  }

  /** The onion in work is not freed, and its inner layer fits below the current one; it is the
      current one itself only while that is a proof-of-work. */
  predicate SuitsWorker(s: State, o: Obj)
    requires s.current.Some?
  {
    && o.onion.Pow? && FirstPowFits(s.current.value.onion, o.onion)
    && o.id !in s.hist.freed && o.id < s.hist.next
    && (o.id == s.current.value.id ==> s.current.value.onion.Pow?)
  }

  ghost predicate Apart(s: State) {
    && Placed(s) && OnTheWayDown(s) && s.hist.afterFree == []
    && (Idle(s) || Suits(s))
  }

  lemma ApartIsNotMixed(s: State)
    requires Apart(s)
    ensures !Mixed(s)
  {
    forall w | 0 <= w < |s.workers|
      ensures !Lost(s, w)
    {
      if Suits(s) && s.workers[w].Spawned? {
        assert w == |s.workers| - 1;
      }
    }
  }

  lemma StepPlaced(s: State, a: Action)
    requires Enabled(s, a) && Placed(s)
    ensures Placed(Apply(s, a))
  {
    forall id: nat
      ensures Held(Apply(s, a), id) == if id < Apply(s, a).hist.next then 1 else 0
    {
      StepHolds(s, a, id);
    }
  }

  /** The current onion is allocated and not freed. */
  lemma CurrentIsLive(s: State)
    requires Placed(s) && s.current.Some?
    ensures s.current.value.id < s.hist.next && s.current.value.id !in s.hist.freed
  {
    var id := s.current.value.id;
    assert Held(s, id) == if id < s.hist.next then 1 else 0;
    CountMember(s.hist.freed, id);
  }

  // ---------------------------------------------------------------- peels

  /** A layer that is peeled at once: the first proof-of-work below stays the same. */
  lemma PeelInPlaceSuits(s: State, inner: Onion)
    requires Suits(s) && OnTheWayDown(s)
    requires s.current.value.onion == Captcha(inner) || s.current.value.onion == Signed(inner)
    ensures Suits(PeelInPlace(s, inner)) && OnTheWayDown(PeelInPlace(s, inner))
  {
    ReplaceKeepsDescent(s.(hist := s.hist.(next := s.hist.next + 1)), Obj(s.hist.next, inner));
    var t := PeelInPlace(s, inner);
    assert t.workers == s.workers && t.inner == s.inner && t.started == s.started && t.finished == s.finished;
    assert t.current == Some(Obj(s.hist.next, inner)) && t.hist.freed == s.hist.freed + [s.current.value.id];
  }

  /** A proof-of-work layer: a thread is started, or its result, which fits, is taken. */
  lemma PeelPowSuits(s: State, ok: bool)
    requires Suits(s) && OnTheWayDown(s) && s.current.value.onion.Pow?
    ensures Suits(PeelPow(s, ok)) && OnTheWayDown(PeelPow(s, ok))
  {
    if s.started && s.finished && s.inner.Some? {
      ReplaceKeepsDescent(s, s.inner.value);
    }
  }

  lemma PeelCaptchaSuits(s: State, ok: bool)
    requires Suits(s) && OnTheWayDown(s) && s.current.value.onion.Captcha?
    ensures Suits(PeelCaptcha(s, s.current.value, ok)) && OnTheWayDown(PeelCaptcha(s, s.current.value, ok))
  {
    PeelInPlaceSuits(s, s.current.value.onion.inner);
  }

  lemma PeelSuits(s: State, ok: bool)
    requires Suits(s) && OnTheWayDown(s)
    ensures Suits(PeelCurrent(s, ok)) && OnTheWayDown(PeelCurrent(s, ok))
  {
    match s.current.value.onion
    case Base(_) => DescendNext(s.hist.accepted, s.hist.peels, s.current.value.onion);
    case Pow(_) => PeelPowSuits(s, ok);
    case Captcha(_) => PeelCaptchaSuits(s, ok);
    case Signed(inner) => PeelInPlaceSuits(s, inner);
    case Bundle =>
  }

  lemma PeelTouchesNothing(s: State, ok: bool)
    ensures PeelCurrent(s, ok).hist.afterFree == s.hist.afterFree
  {
  }

  // ---------------------------------------------------------------- the worker

  lemma BeginSuits(s: State, w: nat)
    requires Enabled(s, Begin(w)) && Suits(s) && Placed(s)
    ensures Suits(Apply(s, Begin(w)))
  {
    CurrentIsLive(s);
    assert w == |s.workers| - 1;
  }

  lemma DeliverSuits(s: State, w: nat, found: bool)
    requires Enabled(s, Deliver(w, found)) && Suits(s)
    ensures Suits(DeliverInner(s, w, found)) && DeliverInner(s, w, found).hist.afterFree == s.hist.afterFree
  {
    assert w == |s.workers| - 1;
  }

  lemma FinishSuits(s: State, w: nat)
    requires Enabled(s, Finish(w)) && Suits(s)
    ensures Suits(Apply(s, Finish(w)))
  {
    assert w == |s.workers| - 1;
  }

  lemma StepSuits(s: State, a: Action)
    requires Enabled(s, a) && !a.Reset? && !a.Image? && Suits(s) && Apart(s)
    ensures Suits(Apply(s, a)) && OnTheWayDown(Apply(s, a)) && Apply(s, a).hist.afterFree == []
  {
    match a
    case Peel(ok) =>
      PeelSuits(s, ok);
      PeelTouchesNothing(s, ok);
    case Begin(w) => BeginSuits(s, w);
    case Deliver(w, found) => DeliverSuits(s, w, found);
    case Finish(w) => FinishSuits(s, w);
  }

  lemma StepIdle(s: State, a: Action)
    requires Enabled(s, a) && !a.Reset? && !a.Image? && Idle(s) && Apart(s)
    ensures Idle(Apply(s, a)) && OnTheWayDown(Apply(s, a)) && Apply(s, a).hist.afterFree == []
  {
  }

  lemma StepStaysApart(s: State, a: Action)
    requires Enabled(s, a) && !a.Reset? && !a.Image? && Apart(s)
    ensures Apart(Apply(s, a))
  {
    StepPlaced(s, a);
    if Idle(s) {
      StepIdle(s, a);
    } else {
      StepSuits(s, a);
    }
  }

  lemma {:induction false} RunStaysApart(s: State, acts: seq<Action>)
    requires Legal(s, acts) && GoesOn(acts) && Apart(s)
    ensures Apart(Run(s, acts))
    decreases |acts|
  {
    if acts != [] {
      StepStaysApart(s, acts[0]);
      assert GoesOn(acts[1..]);
      RunStaysApart(Apply(s, acts[0]), acts[1..]);
    }
  }

  lemma ApartIsNotMixable(s: State)
    requires Apart(s)
    ensures !Mixable(s)
  {
    forall more | Legal(s, more) && GoesOn(more)
      ensures !Mixed(Run(s, more))
    {
      RunStaysApart(s, more);
      ApartIsNotMixed(Run(s, more));
    }
  }

  // ---------------------------------------------------------------- harmless steps

  /** The states the theorem is about. */
  ghost predicate InHand(s: State) {
    Consistent(s) && Placed(s) && Untouched(s) && Allocated(s)
  }

  lemma InHandIsApart(s: State)
    requires InHand(s)
    ensures Apart(s)
  {
    if s.current.Some? {
      if Running(s) && Latest(s).Computing? {
        var o := Latest(s).obj;
        assert FirstPowFits(o.onion, o.onion);
      }
    } else {
      forall w | 0 <= w < |s.workers|
        ensures !s.workers[w].Spawned? && !s.workers[w].Computing?
      {
        assert w < |s.workers| - 1 || !Running(s) || s.workers[w] == Latest(s);
      }
    }
  }

  lemma HarmlessReset(s: State)
    requires InHand(s) && Harmless(s, Reset)
    ensures Apart(Apply(s, Reset))
  {
    StepPlaced(s, Reset);
    var t := ResetAll(s);
    assert t.workers == s.workers && t.current == None && t.hist.nets == s.hist.nets;
    forall w | 0 <= w < |t.workers|
      ensures !t.workers[w].Spawned? && (t.workers[w].Computing? ==> t.workers[w].obj.id !in t.hist.freed)
    {
      if w == |s.workers| - 1 && Running(s) && s.workers[w].Computing? {
        ResetSpares(s, s.workers[w].obj);
      }
    }
  }

  /** A reset while the worker computes frees the current onion only. */
  lemma ResetSpares(s: State, o: Obj)
    requires InHand(s) && Running(s) && Latest(s) == Computing(o) && s.current != Some(o)
    ensures o.id !in ResetAll(s).hist.freed
  {
    assert s.current.value.onion == o.onion && s.current.value.id != o.id;
    assert ResetAll(s).hist.freed == s.hist.freed + [s.current.value.id];
  }

  lemma HarmlessImage(s: State, o: Onion)
    requires InHand(s) && Harmless(s, Image(Some(o)))
    ensures Apart(Apply(s, Image(Some(o))))
  {
    StepPlaced(s, Image(Some(o)));
    var t := Install(s, o);
    assert t.workers == s.workers && t.inner == s.inner && t.started == s.started && t.finished == s.finished;
    assert t.current == Some(Obj(s.hist.next, o)) && t.hist.freed == s.hist.freed && t.hist.next == s.hist.next + 1;
    assert Descend(o, 0) == Some(o);
  }

  // ---------------------------------------------------------------- harmful ones

  /** A result that is not for the first proof-of-work below the current onion: the layers above it
      are peeled, the result is taken, and the current onion is off its way. */
  lemma {:induction false} WrongResultMixes(s: State)
    requires s.current.Some? && s.image && s.started && s.inner.Some? && s.workers != []
    requires s.finished || Latest(s).Delivered?
    requires !FirstPowFits(s.current.value.onion, Onion.Pow(s.inner.value.onion))
    ensures Mixable(s)
    decreases s.current.value.onion, s.captcha == None, !s.finished
  {
    if Mixed(s) {
      AlreadyMixed(s);
    } else if !s.finished {
      var w := |s.workers| - 1;
      WrongResultMixes(Apply(s, Finish(w)));
      Before(s, Finish(w));
    } else {
      WrongResultPeels(s);
      var t := Apply(s, Peel(true));
      if s.current.value.onion.Pow? {
        AlreadyMixed(t);
      } else {
        WrongResultMixes(t);
      }
      Before(s, Peel(true));
    }
  }

  /** One peel in this situation. */
  lemma WrongResultPeels(s: State)
    requires s.current.Some? && s.image && s.started && s.inner.Some? && s.finished && !Mixed(s)
    requires !FirstPowFits(s.current.value.onion, Onion.Pow(s.inner.value.onion))
    ensures Enabled(s, Peel(true))
    ensures var o, t := s.current.value.onion, Apply(s, Peel(true));
            match o
            case Pow(_) => Mixed(t)
            case Captcha(inner) =>
              && SameWorker(s, t)
              && (if s.captcha == None then t.current == s.current && t.captcha.Some?
                  else t.current.Some? && t.current.value.onion == inner)
            case Signed(inner) => SameWorker(s, t) && t.current.Some? && t.current.value.onion == inner
            case _ => true
  {
    var o := s.current.value.onion;
    if o.Pow? {
      var t := Apply(s, Peel(true));
      DescendNext(s.hist.accepted, s.hist.peels, o);
      assert t.current == s.inner && t.hist.accepted == s.hist.accepted && t.hist.peels == s.hist.peels + 1;
      assert Descend(t.hist.accepted, t.hist.peels) == Some(o.inner);
    }
  }

  predicate SameWorker(s: State, t: State) {
    && t.image == s.image && t.started == s.started && t.finished == s.finished
    && t.inner == s.inner && t.workers == s.workers
  }

  lemma HarmfulReset(s: State)
    requires InHand(s) && !Harmless(s, Reset)
    ensures Mixable(Apply(s, Reset))
  {
    var t, w := Apply(s, Reset), |s.workers| - 1;
    assert t.workers == s.workers && t.current == None;
    if Latest(s).Spawned? {
      assert Lost(t, w);
      AlreadyMixed(t);
    } else {
      var o := Latest(s).obj;
      assert o.id in t.hist.freed;
      var u := Apply(t, Deliver(w, false));
      assert u.hist.afterFree != [];
      AlreadyMixed(u);
      Before(t, Deliver(w, false));
    }
  }

  lemma HarmfulImage(s: State, o: Onion)
    requires InHand(s) && !Harmless(s, Image(Some(o)))
    ensures Mixable(Apply(s, Image(Some(o))))
  {
    var t, w := Install(s, o), |s.workers| - 1;
    assert t.workers == s.workers && t.inner == s.inner && t.started == s.started && t.finished == s.finished;
    assert t.current == Some(Obj(s.hist.next, o)) && t.image;
    if s.inner.Some? && !FirstPowFits(o, Onion.Pow(s.inner.value.onion)) {
      WrongResultMixes(t);
    } else if Latest(s).Spawned? {
      assert Lost(t, w);
      AlreadyMixed(t);
    } else {
      var u := Apply(t, Deliver(w, true));
      assert u.current == t.current && u.image && u.started && u.workers[w].Delivered?;
      assert u.inner.Some? && u.inner.value.onion == Latest(s).obj.onion.inner;
      WrongResultMixes(u);
      Before(t, Deliver(w, true));
    }
  }

  /** From a state in hand a step is harmless exactly when, without a further reset or image,
      nothing can go wrong afterwards. */
  lemma HarmlessExactly(s: State, a: Action)
    requires Enabled(s, a) && InHand(s)
    ensures Harmless(s, a) <==> !Mixable(Apply(s, a))
  {
    match a
    case Reset =>
      if Harmless(s, a) {
        HarmlessReset(s);
        ApartIsNotMixable(Apply(s, a));
      } else {
        HarmfulReset(s);
      }
    case Image(Some(o)) =>
      if Harmless(s, a) {
        HarmlessImage(s, o);
        ApartIsNotMixable(Apply(s, a));
      } else {
        HarmfulImage(s, o);
      }
    case Image(None) =>
      InHandIsApart(s);
      ApartIsNotMixable(s);
    case _ =>
      InHandIsApart(s);
      StepStaysApart(s, a);
      ApartIsNotMixable(Apply(s, a));
  }

  // ---------------------------------------------------------------- every careful run

  lemma PeelKeepsWorkers(s: State, ok: bool)
    ensures PeelCurrent(s, ok).workers == s.workers || PeelCurrent(s, ok).workers == s.workers + [Spawned]
  {
  }

  lemma StepKeepsAllocated(s: State, a: Action)
    requires Enabled(s, a) && Consistent(s) && Placed(s) && Allocated(s)
    ensures Allocated(Apply(s, a))
  {
    StepHolds(s, a, 0);
    match a
    case Begin(_) => CurrentIsLive(s);
    case Peel(ok) => PeelKeepsWorkers(s, ok);
    case Deliver(_, _) =>
    case _ => assert |Apply(s, a).workers| == |s.workers|;
  }

  lemma {:induction false} CarefulRunsStayInHand(s: State, acts: seq<Action>)
    requires Legal(s, acts) && CarefulRun(s, acts) && InHand(s)
    ensures InHand(Run(s, acts))
    decreases |acts|
  {
    if acts != [] {
      CarefulExactly(s, acts[0]);
      StepPlaced(s, acts[0]);
      StepKeepsUntouched(s, acts[0]);
      StepKeepsAllocated(s, acts[0]);
      CarefulRunsStayInHand(Apply(s, acts[0]), acts[1..]);
    }
  }

  /** After every careful run the next step, whatever it is, opens the way to a mix-up exactly when
      it is not harmless. */
  lemma NextStepMixesExactly(acts: seq<Action>, a: Action)
    requires Legal(Init(), acts) && CarefulRun(Init(), acts) && Enabled(Run(Init(), acts), a)
    ensures Mixable(Apply(Run(Init(), acts), a)) <==> !Harmless(Run(Init(), acts), a)
  {
    CarefulRunsStayInHand(Init(), acts);
    HarmlessExactly(Run(Init(), acts), a);
  }
}
