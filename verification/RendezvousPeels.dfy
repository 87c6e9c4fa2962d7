/** What it takes to get a layer off an onion: a peel that fails changes nothing, and a signed or
    captcha layer comes off, and a NET is handed over, by a successful peel only. */
module RendezvousPeels {
  import opened Collections
  import opened Rendezvous
  import opened RendezvousSafety

  // ---------------------------------------------------------------- one peel

  /** A finished proof-of-work's result waits to be taken. */
  predicate ResultWaits(s: State) {
    s.current.Some? && s.current.value.onion.Pow? && s.started && s.finished && s.inner.Some?
  }

  /** Nothing is changed by a peel whose signature does not verify, whose puzzle is not solved, whose
      payload does not parse, or whose thread or file cannot be made; the one thing that a peel
      does without such a success is to take a finished proof-of-work's result. */
  lemma FailedPeelKeeps(s: State)
    ensures PeelCurrent(s, false) == s <==> !ResultWaits(s)
  {
    if ResultWaits(s) {
      assert |PeelCurrent(s, false).hist.freed| > |s.hist.freed|;
    }
  }

  /** The old onion is freed and the layer inside it, a new allocation, takes its place. */
  ghost predicate LayerOff(s: State, t: State) {
    && s.current.Some? && !s.current.value.onion.Base? && !s.current.value.onion.Bundle?
    && t == s.(current := Some(Obj(s.hist.next, s.current.value.onion.inner)),
               hist := s.hist.(next := s.hist.next + 1, peels := s.hist.peels + 1,
                               freed := s.hist.freed + [s.current.value.id]))
  }

  /** The result becomes the current onion; the old one is freed, and the next proof-of-work layer
      finds nothing started. */
  ghost predicate ResultTaken(s: State, t: State) {
    && s.current.Some?
    && t == s.(current := s.inner, inner := None, started := false, finished := false,
               hist := s.hist.(peels := s.hist.peels + 1, freed := s.hist.freed + [s.current.value.id]))
  }

  lemma SuccessfulPeel(s: State)
    requires s.current.Some?
    ensures var o, t := s.current.value, PeelCurrent(s, true);
            && (o.onion.Signed? || (o.onion.Captcha? && s.captcha.Some?) ==> LayerOff(s, t))
            && (o.onion.Captcha? && s.captcha == None ==>
                  t == s.(captcha := Some(o.id), hist := s.hist.(shown := s.hist.shown + [o.id])))
            && (o.onion.Base? ==>
                  t == s.(hist := s.hist.(nets := s.hist.nets + [Given(o.onion.net, s.hist.accepted)])))
            && (o.onion.Bundle? ==> t == s)
            && (o.onion.Pow? && !s.started ==> t == s.(started := true, workers := s.workers + [Spawned]))
  {
  }

  lemma PowPeel(s: State, ok: bool)
    requires s.current.Some? && s.current.value.onion.Pow? && s.started
    ensures if s.finished && s.inner.Some? then ResultTaken(s, PeelCurrent(s, ok)) else PeelCurrent(s, ok) == s
  {
  }

  // ---------------------------------------------------------------- any step

  /** A layer comes off in one kind of step: a proof-of-work layer when its finished result is
      taken, any other by a successful peel. A NET is handed over by a successful peel of its
      innermost layer and by nothing else. */
  lemma LayerOffOnlyBy(s: State, a: Action)
    requires Enabled(s, a)
    ensures var t := Apply(s, a);
            && (t.hist.peels > s.hist.peels <==> Passes(s, a) || (a.Peel? && ResultWaits(s)))
            && (Passes(s, a) ==> LayerOff(s, t))
            && (a.Peel? && ResultWaits(s) ==> ResultTaken(s, t))
            && t.hist.nets == if a == Peel(true) && s.current.Some? && s.current.value.onion.Base?
                              then s.hist.nets + [Given(s.current.value.onion.net, s.hist.accepted)]
                              else s.hist.nets
  {
    match a
    case Peel(ok) => PeelEffect(s, ok);
    case Deliver(w, found) => assert Apply(s, a).hist.peels == s.hist.peels && Apply(s, a).hist.nets == s.hist.nets;
    case _ =>
  }

  lemma PeelEffect(s: State, ok: bool)
    requires Enabled(s, Peel(ok))
    ensures var t := PeelCurrent(s, ok);
            && (t.hist.peels > s.hist.peels <==> Passes(s, Peel(ok)) || ResultWaits(s))
            && (Passes(s, Peel(ok)) ==> LayerOff(s, t))
            && (ResultWaits(s) ==> ResultTaken(s, t))
            && t.hist.nets == if ok && s.current.Some? && s.current.value.onion.Base?
                              then s.hist.nets + [Given(s.current.value.onion.net, s.hist.accepted)]
                              else s.hist.nets
  {
    if s.current.Some? && s.current.value.onion.Pow? && s.started {
      PowPeel(s, ok);
    } else if ok && s.current.Some? {
      SuccessfulPeel(s);
    } else {
      FailedPeelKeeps(s);
    }
  }

  // ---------------------------------------------------------------- over runs

  /** A signature that verifies, or a puzzle that is solved. */
  predicate Passes(s: State, a: Action) {
    && a == Peel(true) && s.current.Some?
    && (s.current.value.onion.Signed? || (s.current.value.onion.Captcha? && s.captcha.Some?))
  }

  /** How many there were in a run since the last accepted image. */
  function Passed(s: State, n: nat, acts: seq<Action>): nat
    requires Legal(s, acts)
    decreases |acts|
  {
    if acts == [] then n
    else
      var a := acts[0];
      Passed(Apply(s, a), if a.Image? && a.extracted.Some? then 0 else if Passes(s, a) then n + 1 else n, acts[1..])
  }

  /** How many of an onion's first layers are signed or captcha layers. */
  function Guarded(o: Onion, n: nat): nat {
    if n == 0 || o.Base? || o.Bundle? then 0
    else (if o.Pow? then 0 else 1) + Guarded(o.inner, n - 1)
  }

  lemma {:induction false} GuardedNext(o: Onion, n: nat, p: Onion)
    requires Descend(o, n) == Some(p) && !p.Base? && !p.Bundle?
    ensures Guarded(o, n + 1) == Guarded(o, n) + if p.Pow? then 0 else 1
  {
    if n > 0 {
      GuardedNext(o.inner, n - 1, p);
    }
  }

  ghost predicate Earned(s: State, n: nat) {
    s.current.Some? ==> Guarded(s.hist.accepted, s.hist.peels) == n
  }

  lemma StepEarns(s: State, a: Action, n: nat)
    requires Enabled(s, a) && Consistent(s) && Earned(s, n)
    ensures Earned(Apply(s, a), if a.Image? && a.extracted.Some? then 0 else if Passes(s, a) then n + 1 else n)
  {
    LayerOffOnlyBy(s, a);
    match a
    case Peel(ok) =>
      if s.current.Some? && (Passes(s, a) || ResultWaits(s)) {
        GuardedNext(s.hist.accepted, s.hist.peels, s.current.value.onion);
      }
      OnlyPeels(s, ok);
    case Deliver(w, found) =>
      assert Apply(s, a).hist.peels == s.hist.peels && Apply(s, a).hist.accepted == s.hist.accepted;
    case _ =>
  }

  lemma OnlyPeels(s: State, ok: bool)
    ensures var t := PeelCurrent(s, ok);
            && t.hist.accepted == s.hist.accepted && s.hist.peels <= t.hist.peels
            && (t.current.Some? <==> s.current.Some?)
  {
    if s.current.Some? && s.current.value.onion.Pow? && s.started {
      PowPeel(s, ok);
    } else if ok && s.current.Some? {
      SuccessfulPeel(s);
    } else {
      FailedPeelKeeps(s);
    }
  }

  lemma {:induction false} RunEarns(s: State, n: nat, acts: seq<Action>)
    requires Legal(s, acts) && CarefulRun(s, acts) && Consistent(s) && Earned(s, n)
    ensures Earned(Run(s, acts), Passed(s, n, acts))
    decreases |acts|
  {
    if acts != [] {
      var a := acts[0];
      StepEarns(s, a, n);
      CarefulExactly(s, a);
      RunEarns(Apply(s, a), if a.Image? && a.extracted.Some? then 0 else if Passes(s, a) then n + 1 else n, acts[1..]);
    }
  }

  /** In every careful run the signed and captcha layers that have come off the last accepted onion
      are exactly as many as the signatures that verified and the puzzles that were solved since. */
  lemma EveryGuardedLayerWasPassed(acts: seq<Action>)
    requires Legal(Init(), acts) && CarefulRun(Init(), acts) && Run(Init(), acts).current.Some?
    ensures var s := Run(Init(), acts); Guarded(s.hist.accepted, s.hist.peels) == Passed(Init(), 0, acts)
  {
    RunEarns(Init(), 0, acts);
  }

  lemma {:induction false} LegalSplit(s: State, acts: seq<Action>, k: nat)
    requires Legal(s, acts) && k <= |acts|
    ensures Legal(s, acts[..k]) && Legal(Run(s, acts[..k]), acts[k..])
    ensures Run(Run(s, acts[..k]), acts[k..]) == Run(s, acts)
    decreases k
  {
    if k == 0 {
      assert acts[..0] == [] && acts[0..] == acts;
    } else {
      assert acts[..k][0] == acts[0] && acts[..k][1..] == acts[1..][..k - 1] && acts[1..][k - 1..] == acts[k..];
      LegalSplit(Apply(s, acts[0]), acts[1..], k - 1);
    }
  }

  /** Step `k` of the run is a successful peel of this payload, of the onion accepted then. */
  ghost predicate GivenBy(acts: seq<Action>, k: nat, g: Given) {
    && k < |acts| && acts[k] == Peel(true) && Legal(Init(), acts[..k])
    && var s := Run(Init(), acts[..k]);
       s.current.Some? && s.current.value.onion == Base(g.net) && s.hist.accepted == g.accepted
  }

  lemma {:induction false} EachNetWasPeeled(acts: seq<Action>, g: Given)
    requires Legal(Init(), acts) && g in Run(Init(), acts).hist.nets
    ensures exists k: nat :: GivenBy(acts, k, g)
    decreases |acts|
  {
    if acts != [] {
      var last := |acts| - 1;
      LegalSplit(Init(), acts, last);
      var s := Run(Init(), acts[..last]);
      assert acts[last..] == [acts[last]] && acts[last..][1..] == [];
      assert Run(s, acts[last..]) == Apply(s, acts[last]);
      LayerOffOnlyBy(s, acts[last]);
      if g in s.hist.nets {
        EachNetWasPeeled(acts[..last], g);
        var k: nat :| GivenBy(acts[..last], k, g);
        assert acts[..last][..k] == acts[..k];
        assert GivenBy(acts, k, g);
      } else {
        assert GivenBy(acts, last, g);
      }
    }
  }
}
