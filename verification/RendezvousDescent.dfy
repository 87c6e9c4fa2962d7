/** Where peeling leads: down one layer at a time to the payload, in careful runs; and what a
    careless run, a failed proof-of-work and a second captcha do. */
module RendezvousDescent {
  import opened Collections
  import opened Rendezvous
  import opened RendezvousSafety

  // ---------------------------------------------------------------- down to the payload

  /** In every careful run the current onion is a layer of the last accepted one, the peels done
      and the layers left add up to that onion's depth, and every NET handed to ACS is the
      innermost payload of the onion accepted at that time. */
  lemma PeelingDescends(acts: seq<Action>)
    requires Legal(Init(), acts) && CarefulRun(Init(), acts)
    ensures var s := Run(Init(), acts);
            && (s.current.Some? ==>
                  && Descend(s.hist.accepted, s.hist.peels) == Some(s.current.value.onion)
                  && Depth(s.hist.accepted) == s.hist.peels + Depth(s.current.value.onion)
                  && Innermost(s.hist.accepted) == Innermost(s.current.value.onion))
            && forall g :: g in s.hist.nets ==> Innermost(g.accepted) == Base(g.net)
  {
    RunKeepsConsistent(Init(), acts);
    var s := Run(Init(), acts);
    if s.current.Some? {
      DescendNext(s.hist.accepted, s.hist.peels, s.current.value.onion);
    }
  }

  /** A peel request changes the current onion in one way only: by the layer inside it. */
  lemma OneLayerAtATime(s: State, ok: bool)
    requires Consistent(s)
    ensures var t := PeelCurrent(s, ok);
            && t.hist.accepted == s.hist.accepted
            && if t.current == s.current then t.hist.peels == s.hist.peels && t.hist.freed == s.hist.freed
               else && s.current.Some? && t.current.Some?
                    && t.hist.peels == s.hist.peels + 1
                    && Descend(s.current.value.onion, 1) == Some(t.current.value.onion)
                    && t.hist.freed == s.hist.freed + [s.current.value.id]
  {
    if s.current.Some? && s.current.value.onion.Pow? {
      assert s.inner.Some? ==> Descend(s.current.value.onion, 1) == Descend(s.inner.value.onion, 0);
    }
  }

  // ---------------------------------------------------------------- no freed onion is read

  predicate Untouched(s: State) {
    && s.hist.afterFree == []
    && (Running(s) && Latest(s).Computing? ==> Latest(s).obj.id !in s.hist.freed)
  }

  lemma {:induction false} CountMember(ids: seq<nat>, id: nat)
    ensures Count(ids, id) > 0 <==> id in ids
  {
    if ids != [] {
      CountMember(ids[..|ids| - 1], id);
      assert ids == ids[..|ids| - 1] + [ids[|ids| - 1]];
    }
  }

  lemma StepKeepsUntouched(s: State, a: Action)
    requires Enabled(s, a) && Consistent(s) && Placed(s) && Careful(s, a) && Untouched(s)
    ensures Untouched(Apply(s, a))
  {
    match a
    case Begin(w) =>
      CountMember(s.hist.freed, s.current.value.id);
      assert Held(s, s.current.value.id) <= 1;
    case Peel(ok) =>
      PeelKeepsFit(s, ok);
      if Running(s) && Latest(s).Computing? {
        assert PeelCurrent(s, ok) == s;
      }
    case _ =>
  }

  lemma {:induction false} RunKeepsUntouched(s: State, acts: seq<Action>)
    requires Legal(s, acts) && CarefulRun(s, acts) && Consistent(s) && Placed(s) && Untouched(s)
    ensures Untouched(Run(s, acts))
    decreases |acts|
  {
    if acts != [] {
      StepKeepsUntouched(s, acts[0]);
      CarefulExactly(s, acts[0]);
      assert Run(s, [acts[0]]) == Apply(s, acts[0]);
      RunKeepsPlaced(s, [acts[0]]);
      RunKeepsUntouched(Apply(s, acts[0]), acts[1..]);
    }
  }

  /** In every careful run the worker never reads an onion that was freed. */
  lemma NoReadAfterFree(acts: seq<Action>)
    requires Legal(Init(), acts) && CarefulRun(Init(), acts)
    ensures Run(Init(), acts).hist.afterFree == []
  {
    RunKeepsUntouched(Init(), acts);
  }

  // ---------------------------------------------------------------- depth many peels suffice

  /** A schedule that peels an onion: `n` threads were started before, `shown` says whether a
      captcha file is already there. */
  function Schedule(o: Onion, n: nat, shown: bool): seq<Action> {
    match o
    case Base(_) => [Peel(true)]
    case Bundle => []
    case Signed(inner) => [Peel(true)] + Schedule(inner, n, shown)
    case Captcha(inner) => (if shown then [Peel(true)] else [Peel(true), Peel(true)]) + Schedule(inner, n, true)
    case Pow(inner) => [Peel(true), Begin(n), Deliver(n, true), Finish(n), Peel(true)] + Schedule(inner, n + 1, shown)
  }

  predicate Rested(s: State) {
    && s.image && !s.started && !s.finished && s.inner == None
    && s.current.Some?
  }

  /** The state a layer's part of the schedule leads to. */
  predicate OneDown(s: State, t: State, inner: Onion) {
    && Rested(t) && t.current.value.onion == inner
    && t.hist.peels == s.hist.peels + 1 && t.hist.nets == s.hist.nets && t.hist.accepted == s.hist.accepted
  }

  lemma PowLayer(s: State)
    requires Rested(s) && s.current.value.onion.Pow?
    ensures var n := |s.workers|;
            var acts := [Peel(true), Begin(n), Deliver(n, true), Finish(n), Peel(true)];
            && Legal(s, acts)
            && var t := Run(s, acts);
               OneDown(s, t, s.current.value.onion.inner) && |t.workers| == n + 1 && t.captcha == s.captcha
  {
    var n := |s.workers|;
    var s1 := Apply(s, Peel(true));
    assert s1 == s.(started := true, workers := s.workers + [Spawned]);
    var s2 := Apply(s1, Begin(n));
    var s3 := Apply(s2, Deliver(n, true));
    var s4 := Apply(s3, Finish(n));
    assert s4.started && s4.finished && s4.inner.Some? && s4.current == s.current;
    var s5 := Apply(s4, Peel(true));
    Five(s, Peel(true), Begin(n), Deliver(n, true), Finish(n), Peel(true));
  }

  lemma Two(s: State, a: Action, b: Action)
    requires Enabled(s, a) && Enabled(Apply(s, a), b)
    ensures Legal(s, [a, b]) && Run(s, [a, b]) == Apply(Apply(s, a), b)
  {
    RunCons(Apply(s, a), b, []);
    assert [b] + [] == [b];
    RunCons(s, a, [b]);
    assert [a] + [b] == [a, b];
  }

  lemma Three(s: State, a: Action, b: Action, c: Action)
    requires Enabled(s, a) && Enabled(Apply(s, a), b) && Enabled(Apply(Apply(s, a), b), c)
    ensures Legal(s, [a, b, c]) && Run(s, [a, b, c]) == Apply(Apply(Apply(s, a), b), c)
  {
    Two(Apply(s, a), b, c);
    RunCons(s, a, [b, c]);
    assert [a] + [b, c] == [a, b, c];
  }

  lemma Five(s: State, a: Action, b: Action, c: Action, d: Action, e: Action)
    requires Enabled(s, a) && Enabled(Apply(s, a), b) && Enabled(Apply(Apply(s, a), b), c)
    requires Enabled(Apply(Apply(Apply(s, a), b), c), d) && Enabled(Apply(Apply(Apply(Apply(s, a), b), c), d), e)
    ensures Legal(s, [a, b, c, d, e])
    ensures Run(s, [a, b, c, d, e]) == Apply(Apply(Apply(Apply(Apply(s, a), b), c), d), e)
  {
    var s1 := Apply(s, a);
    Three(Apply(s1, b), c, d, e);
    RunCons(s1, b, [c, d, e]);
    assert [b] + [c, d, e] == [b, c, d, e];
    RunCons(s, a, [b, c, d, e]);
    assert [a] + [b, c, d, e] == [a, b, c, d, e];
  }

  lemma PlainLayer(s: State)
    requires Rested(s) && (s.current.value.onion.Captcha? || s.current.value.onion.Signed?)
    ensures var o := s.current.value.onion;
            var acts := if o.Captcha? && s.captcha == None then [Peel(true), Peel(true)] else [Peel(true)];
            && Legal(s, acts)
            && var t := Run(s, acts);
               && OneDown(s, t, o.inner) && |t.workers| == |s.workers|
               && (if o.Captcha? then t.captcha.Some? else t.captcha == s.captcha)
  {
    var o := s.current.value.onion;
    assert [Peel(true)][1..] == [] && [Peel(true), Peel(true)][1..] == [Peel(true)];
    var t := Apply(s, Peel(true));
    if o.Captcha? && s.captcha == None {
      assert Legal(t, [Peel(true)]);
    }
  }

  /** From any rested state an onion with a payload is peeled by its schedule, in exactly as many
      successful peels as it is deep, and its payload is handed to ACS once. */
  lemma {:induction false} DepthManySuffice(s: State)
    requires Rested(s) && Innermost(s.current.value.onion).Base?
    ensures var o := s.current.value.onion;
            var acts := Schedule(o, |s.workers|, s.captcha.Some?);
            && Legal(s, acts)
            && var t := Run(s, acts);
               && t.hist.peels == s.hist.peels + Depth(o)
               && t.hist.nets == s.hist.nets + [Given(Innermost(o).net, s.hist.accepted)]
    decreases s.current.value.onion
  {
    var o := s.current.value.onion;
    if o.Base? {
      assert [Peel(true)][1..] == [];
      assert Run(s, [Peel(true)]) == Apply(s, Peel(true));
    } else {
      var first: seq<Action>;
      if o.Pow? {
        PowLayer(s);
        first := [Peel(true), Begin(|s.workers|), Deliver(|s.workers|, true), Finish(|s.workers|), Peel(true)];
      } else {
        PlainLayer(s);
        first := if o.Captcha? && s.captcha == None then [Peel(true), Peel(true)] else [Peel(true)];
      }
      var t := Run(s, first);
      DepthManySuffice(t);
      RunConcat(s, first, Schedule(t.current.value.onion, |t.workers|, t.captcha.Some?));
    }
  }

  // ---------------------------------------------------------------- a second captcha

  predicate NoReset(acts: seq<Action>) {
    forall i :: 0 <= i < |acts| ==> acts[i] != Reset
  }

  /** The captcha file's state is as before, or it is written for the first time. */
  predicate KeepsCaptcha(s: State, t: State) {
    if t.captcha == s.captcha then t.hist.shown == s.hist.shown
    else s.captcha == None && |t.hist.shown| == |s.hist.shown| + 1
  }

  lemma PeelKeepsCaptcha(s: State, ok: bool)
    ensures KeepsCaptcha(s, PeelCurrent(s, ok))
  {
    if s.current.Some? {
      match s.current.value.onion
      case Pow(_) => assert KeepsCaptcha(s, PeelPow(s, ok));
      case Signed(inner) => assert KeepsCaptcha(s, PeelInPlace(s, inner));
      case Captcha(inner) => assert KeepsCaptcha(s, PeelInPlace(s, inner));
      case _ =>
    }
  }

  lemma CaptchaStep(s: State, a: Action)
    requires Enabled(s, a) && a != Reset
    ensures KeepsCaptcha(s, Apply(s, a))
  {
    match a
    case Peel(ok) => PeelKeepsCaptcha(s, ok);
    case _ =>
  }

  /** Between two resets at most one captcha image is written: once its path is set, no later
      captcha layer and no new onion gets an image of its own. */
  lemma {:induction false} OneCaptchaImage(s: State, acts: seq<Action>)
    requires Legal(s, acts) && NoReset(acts)
    ensures var t := Run(s, acts);
            && (s.captcha.Some? ==> t.captcha == s.captcha && t.hist.shown == s.hist.shown)
            && |t.hist.shown| <= |s.hist.shown| + (if s.captcha == None then 1 else 0)
    decreases |acts|
  {
    if acts != [] {
      assert acts[0] != Reset && NoReset(acts[1..]);
      CaptchaStep(s, acts[0]);
      OneCaptchaImage(Apply(s, acts[0]), acts[1..]);
    }
  }

  /** An onion of two captcha layers around a payload, when the first is solved. */
  function OneSolved(payload: Onion): State {
    State(Some(Obj(1, Captcha(payload))), true, Some(0), false, false, None, [],
          History(2, Captcha(Captcha(payload)), 1, [0], [], [], [0], []))
  }

  /** Two captcha layers, one inside the other: whatever happens short of a reset, the second
      never has its own image. */
  lemma SecondCaptchaUnseen(payload: Onion, rest: seq<Action>)
    requires Legal(OneSolved(payload), rest) && NoReset(rest)
    ensures var acts := [Image(Some(Captcha(Captcha(payload)))), Peel(true), Peel(true)];
            Legal(Init(), acts) && Run(Init(), acts) == OneSolved(payload)
    ensures 1 !in Run(OneSolved(payload), rest).hist.shown
  {
    Three(Init(), Image(Some(Captcha(Captcha(payload)))), Peel(true), Peel(true));
    OneCaptchaImage(OneSolved(payload), rest);
  }

  // ---------------------------------------------------------------- the directory is there

  lemma {:induction false} DirectoryStays(s: State, acts: seq<Action>)
    requires Legal(s, acts) && (s.current.Some? ==> s.image)
    ensures Run(s, acts).current.Some? ==> Run(s, acts).image
    decreases |acts|
  {
    if acts != [] {
      DirectoryStays(Apply(s, acts[0]), acts[1..]);
    }
  }

  /** The assertion in front of writing a captcha file never fails, in any run. */
  lemma PeelIsAlwaysPossible(acts: seq<Action>, ok: bool)
    requires Legal(Init(), acts)
    ensures Enabled(Run(Init(), acts), Peel(ok))
  {
    DirectoryStays(Init(), acts);
  }

  // ---------------------------------------------------------------- the worker finds its onion

  /** In every careful run a thread that was started finds, when it runs, the onion it needs. */
  lemma WorkerFindsItsOnion(acts: seq<Action>, w: nat)
    requires Legal(Init(), acts) && CarefulRun(Init(), acts)
    requires w < |Run(Init(), acts).workers| && Run(Init(), acts).workers[w].Spawned?
    ensures Enabled(Run(Init(), acts), Begin(w))
  {
    RunKeepsConsistent(Init(), acts);
    var s := Run(Init(), acts);
    assert w == |s.workers| - 1;
  }

  /** A started thread, and an onion that is not there, or is of another kind. */
  predicate Lost(s: State, w: nat) {
    && w < |s.workers| && s.workers[w].Spawned?
    && (s.current == None || !s.current.value.onion.Pow?)
  }

  /** A reset, or a new image of another kind, between starting the thread and its first read: the
      thread reads an onion that is not there, or takes another kind for a puzzle. */
  lemma WorkerMissesItsOnion(inner: Onion, other: Onion)
    requires !other.Pow?
    ensures var acts := [Image(Some(Onion.Pow(inner))), Peel(true), Reset];
            && Legal(Init(), acts)
            && var s := Run(Init(), acts); s.current == None && Lost(s, 0) && !Enabled(s, Begin(0))
    ensures var acts := [Image(Some(Onion.Pow(inner))), Peel(true), Image(Some(other))];
            && Legal(Init(), acts)
            && var s := Run(Init(), acts); s.current.Some? && Lost(s, 0) && !Enabled(s, Begin(0))
  {
    Three(Init(), Image(Some(Onion.Pow(inner))), Peel(true), Reset);
    Three(Init(), Image(Some(Onion.Pow(inner))), Peel(true), Image(Some(other)));
  }

  // ---------------------------------------------------------------- a failed proof-of-work

  /** The worker has ended without a result. */
  predicate PowFailed(s: State) {
    && s.started && s.finished && s.inner == None
    && forall w :: 0 <= w < |s.workers| ==> s.workers[w].Ended?
  }

  /** A failed proof-of-work stays failed until a reset, also for onions that come later; and
      without a new image a proof-of-work layer stays the current one. */
  lemma {:induction false} FailedPowStays(s: State, acts: seq<Action>)
    requires Legal(s, acts) && NoReset(acts) && PowFailed(s)
    ensures PowFailed(Run(s, acts))
    ensures s.current.Some? && s.current.value.onion.Pow? && (forall i :: 0 <= i < |acts| ==> !acts[i].Image?) ==>
              Run(s, acts) == s
    decreases |acts|
  {
    if acts != [] {
      assert acts[0] != Reset;
      FailedPowStays(Apply(s, acts[0]), acts[1..]);
    }
  }

  // ---------------------------------------------------------------- careless runs

  /** A worker has begun to work on an onion whose payload is `a`. */
  function AtWork(a: string): State {
    State(Some(Obj(0, Onion.Pow(Base(a)))), true, None, true, false, None, [Computing(Obj(0, Onion.Pow(Base(a))))],
          History(1, Onion.Pow(Base(a)), 0, [], [], [], [], []))
  }

  lemma GetsToWork(a: string)
    ensures var acts := [Image(Some(Onion.Pow(Base(a)))), Peel(true), Begin(0)];
            Legal(Init(), acts) && Run(Init(), acts) == AtWork(a)
  {
    Three(Init(), Image(Some(Onion.Pow(Base(a)))), Peel(true), Begin(0));
  }

  /** A new image while the worker computes: the stale worker's result replaces the new onion's
      layer, and ACS gets the NET of the old one. */
  lemma StaleWorkerGivesOldNet(a: string, b: string)
    requires a != b
    ensures var acts := [Image(Some(Onion.Pow(Base(a)))), Peel(true), Begin(0)]
                        + [Image(Some(Onion.Pow(Base(b)))), Deliver(0, true), Finish(0), Peel(true), Peel(true)];
            && Legal(Init(), acts)
            && var t := Run(Init(), acts);
               && t.hist.accepted == Onion.Pow(Base(b)) && Innermost(t.hist.accepted) != Base(a)
               && t.hist.nets == [Given(a, Onion.Pow(Base(b)))]
  {
    var image := Image(Some(Onion.Pow(Base(b))));
    var s3 := Apply(Apply(Apply(AtWork(a), image), Deliver(0, true)), Finish(0));
    assert s3.inner == Some(Obj(2, Base(a))) && s3.current == Some(Obj(1, Onion.Pow(Base(b))));
    assert s3.started && s3.finished;
    var s4 := Apply(s3, Peel(true));
    assert s4.current == Some(Obj(2, Base(a))) && s4.hist.accepted == Onion.Pow(Base(b));
    GetsToWork(a);
    Five(AtWork(a), image, Deliver(0, true), Finish(0), Peel(true), Peel(true));
    RunConcat(Init(), [Image(Some(Onion.Pow(Base(a)))), Peel(true), Begin(0)],
              [image, Deliver(0, true), Finish(0), Peel(true), Peel(true)]);
  }

  /** A new image after the worker has ended and before its result is taken does the same. */
  lemma LateImageGivesOldNet(a: string, b: string)
    requires a != b
    ensures var acts := [Image(Some(Onion.Pow(Base(a)))), Peel(true), Begin(0)]
                        + [Deliver(0, true), Finish(0), Image(Some(Onion.Pow(Base(b)))), Peel(true), Peel(true)];
            && Legal(Init(), acts)
            && var t := Run(Init(), acts);
               && t.hist.accepted == Onion.Pow(Base(b)) && Innermost(t.hist.accepted) != Base(a)
               && t.hist.nets == [Given(a, Onion.Pow(Base(b)))]
  {
    var image := Image(Some(Onion.Pow(Base(b))));
    var s3 := Apply(Apply(Apply(AtWork(a), Deliver(0, true)), Finish(0)), image);
    assert s3.inner == Some(Obj(1, Base(a))) && s3.current == Some(Obj(2, Onion.Pow(Base(b))));
    assert s3.started && s3.finished;
    var s4 := Apply(s3, Peel(true));
    assert s4.current == Some(Obj(1, Base(a))) && s4.hist.accepted == Onion.Pow(Base(b));
    GetsToWork(a);
    Five(AtWork(a), Deliver(0, true), Finish(0), image, Peel(true), Peel(true));
    RunConcat(Init(), [Image(Some(Onion.Pow(Base(a)))), Peel(true), Begin(0)],
              [Deliver(0, true), Finish(0), image, Peel(true), Peel(true)]);
  }

  /** A reset while the worker computes: it reads the onion that the reset freed, and leaves its
      result to whatever onion comes next. */
  lemma ResetUnderTheWorker(a: string)
    ensures var acts := [Image(Some(Onion.Pow(Base(a)))), Peel(true), Begin(0)] + [Reset, Deliver(0, true)];
            && Legal(Init(), acts)
            && var t := Run(Init(), acts);
               t.hist.freed == [0] && t.hist.afterFree == [0] && t.current == None && t.inner == Some(Obj(1, Base(a)))
  {
    GetsToWork(a);
    Two(AtWork(a), Reset, Deliver(0, true));
    RunConcat(Init(), [Image(Some(Onion.Pow(Base(a)))), Peel(true), Begin(0)], [Reset, Deliver(0, true)]);
  }

  // ---------------------------------------------------------------- progress in percent

  const MAX_ATTEMPTS: nat := 26 * 26 * 26 * 26 * 26

  /** An unsigned 64-bit product, and the quotient as an unsigned 32-bit number. */
  function Percent(progress: nat): nat {
    ((progress * 100) % TWO_TO_THE_64) / MAX_ATTEMPTS % 0x1_0000_0000
  }

  /** Up to the number of attempts the percentage is one: the whole part of a hundred times the
      progress over that number. It rises with progress, and is a hundred at the end only. */
  lemma PercentRises(p: nat, q: nat)
    requires p <= q <= MAX_ATTEMPTS
    ensures Percent(p) <= Percent(q) <= 100
    ensures Percent(q) == 100 <==> q == MAX_ATTEMPTS
    ensures Percent(q) * MAX_ATTEMPTS <= q * 100 < (Percent(q) + 1) * MAX_ATTEMPTS
  {
    assert q * 100 <= 1188137600;
    assert (q * 100) % TWO_TO_THE_64 == q * 100 && (p * 100) % TWO_TO_THE_64 == p * 100;
  }
}
