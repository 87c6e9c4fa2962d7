/** When can a forwarded request be left behind by a puller that is gone? A closing puller's
    request is rescheduled, but the search stops at the first match. */
module ExchangeStranding {
  import opened SeqNo
  import opened Exchange

  /** Every outstanding request waits on a puller that has not closed. */
  ghost predicate Unstranded(s: State) {
    forall i :: 0 <= i < |s.out| ==> s.out[i].phcl !in s.hist.closed
  }

  predicate AtMostOneFor(out: seq<Req>, p: nat) {
    forall i, j :: 0 <= i < j < |out| ==> out[i].phcl != p || out[j].phcl != p
  }

  /** The exact condition under which one step leaves no request stranded. */
  predicate StepIsSafe(s: State, a: Action)
    requires Enabled(s, a)
  {
    match a
    case Publish(w) => s.workers[w].puller !in s.hist.closed
    case PushPutBack(h) => s.hands[h].r.phcl !in s.hist.closed
    case CloseTake(_, p) => AtMostOneFor(s.out, p)
    case _ => true
  }

  lemma CloseIsSafeExactlyFor(s: State, h: nat, p: nat)
    requires Enabled(s, CloseTake(h, p)) && Unstranded(s)
    ensures Unstranded(Apply(s, CloseTake(h, p))) <==> AtMostOneFor(s.out, p)
  {
    var s' := Apply(s, CloseTake(h, p));
    var i := IndexOfPuller(s.out, p);
    if !AtMostOneFor(s.out, p) {
      var x, y :| 0 <= x < y < |s.out| && s.out[x].phcl == p && s.out[y].phcl == p;
      assert i <= x;
      assert s'.out[y - 1] == s.out[y];
    } else if i < |s.out| {
      forall j | 0 <= j < |s'.out| ensures s'.out[j].phcl !in s'.hist.closed {
        assert s'.out[j] == s.out[if j < i then j else j + 1];
      }
    }
  }

  /** A step strands a request exactly when it publishes to, or puts a record back for, a puller
      that has closed, or closes a puller that two outstanding records name. */
  lemma StepStrandsExactlyWhenUnsafe(s: State, a: Action)
    requires Enabled(s, a) && Unstranded(s)
    ensures Unstranded(Apply(s, a)) <==> StepIsSafe(s, a)
  {
    var s' := Apply(s, a);
    match a
    case CloseTake(h, p) => CloseIsSafeExactlyFor(s, h, p);
    case Publish(w) => assert s'.out[|s.out|].phcl == s.workers[w].puller;
    case PushPutBack(h) => assert s'.out[|s.out|].phcl == s.hands[h].r.phcl;
    case PushTake(_, _) => assert forall j :: 0 <= j < |s'.out| ==> s'.out[j] in s.out;
    case _ =>
  }

  // ---------------------------------------------------------------- whole runs

  /** A well-behaved close: the puller is not queued or being served, no callback that may put
      its record back is running, and at most one outstanding record names it. */
  predicate OrderlyClose(s: State, p: nat) {
    && p !in s.pulls
    && (forall w :: 0 <= w < |s.workers| && s.workers[w].Forwarding? ==> s.workers[w].puller != p)
    && (forall h :: 0 <= h < |s.hands| && s.hands[h].Pushing? && s.hands[h].r.callback != NoCallback ==>
          s.hands[h].r.phcl != p)
    && AtMostOneFor(s.out, p)
  }

  predicate Orderly(s: State, acts: seq<Action>)
    requires Legal(s, acts)
    decreases |acts|
  {
    acts == [] ||
    ((acts[0].CloseTake? ==> OrderlyClose(s, acts[0].puller)) && Orderly(Apply(s, acts[0]), acts[1..]))
  }

  /** Nobody is about to hand a request to a closed puller. */
  ghost predicate PullersLive(s: State) {
    && Unstranded(s)
    && (forall p :: p in s.pulls ==> p !in s.hist.closed)
    && (forall w :: 0 <= w < |s.workers| && s.workers[w].Forwarding? ==> s.workers[w].puller !in s.hist.closed)
    && (forall h :: 0 <= h < |s.hands| && s.hands[h].Pushing? && s.hands[h].r.callback != NoCallback ==>
          s.hands[h].r.phcl !in s.hist.closed)
  }

  lemma CloseKeepsLiveExactly(s: State, h: nat, p: nat)
    requires Enabled(s, CloseTake(h, p)) && PullersLive(s)
    ensures PullersLive(Apply(s, CloseTake(h, p))) <==> OrderlyClose(s, p)
  {
    var s' := Apply(s, CloseTake(h, p));
    CloseIsSafeExactlyFor(s, h, p);
    assert s'.hist.closed == s.hist.closed + {p} && s'.pulls == s.pulls && s'.workers == s.workers;
    assert s'.hands == s.hands[h := s'.hands[h]] && !s'.hands[h].Pushing? && s.hands[h].Free?;
    if PullersLive(s') {
      forall i | 0 <= i < |s.hands| && s.hands[i].Pushing? && s.hands[i].r.callback != NoCallback
        ensures s.hands[i].r.phcl != p
      {
        assert s'.hands[i] == s.hands[i];
      }
      assert p in s'.hist.closed;
    }
  }

  /** A step keeps it so exactly when it is not a close, or an orderly one. */
  lemma LiveExactlyWhenOrderly(s: State, a: Action)
    requires Enabled(s, a) && PullersLive(s)
    ensures PullersLive(Apply(s, a)) <==> (a.CloseTake? ==> OrderlyClose(s, a.puller))
  {
    StepStrandsExactlyWhenUnsafe(s, a);
    if a.CloseTake? {
      CloseKeepsLiveExactly(s, a.h, a.puller);
    }
  }

  lemma {:induction false} OrderlyRunKeepsLive(s: State, acts: seq<Action>)
    requires Legal(s, acts) && Orderly(s, acts) && PullersLive(s)
    ensures PullersLive(Run(s, acts))
    decreases |acts|
  {
    if acts != [] {
      LiveExactlyWhenOrderly(s, acts[0]);
      OrderlyRunKeepsLive(Apply(s, acts[0]), acts[1..]);
    }
  }

  /** Nobody is about to hand a request to a closed puller, at any point of the run. */
  ghost predicate AlwaysLive(s: State, acts: seq<Action>)
    requires Legal(s, acts)
    decreases |acts|
  {
    PullersLive(s) && (acts == [] || AlwaysLive(Apply(s, acts[0]), acts[1..]))
  }

  /** A run is that way throughout exactly when all its closes are well-behaved. */
  lemma {:induction false} AlwaysLiveExactlyWhenOrderly(s: State, acts: seq<Action>)
    requires Legal(s, acts) && PullersLive(s)
    ensures AlwaysLive(s, acts) <==> Orderly(s, acts)
    decreases |acts|
  {
    if acts != [] {
      LiveExactlyWhenOrderly(s, acts[0]);
      if PullersLive(Apply(s, acts[0])) {
        AlwaysLiveExactlyWhenOrderly(Apply(s, acts[0]), acts[1..]);
      }
    }
  }

  /** With well-behaved closes no run ever strands a request. */
  lemma NoStrandedRequest(n: nat, m: nat, acts: seq<Action>)
    requires Legal(Init(n, m), acts) && Orderly(Init(n, m), acts)
    ensures Unstranded(Run(Init(n, m), acts))
  {
    OrderlyRunKeepsLive(Init(n, m), acts);
  }

  // ---------------------------------------------------------------- runs that strand

  lemma Cons(s: State, a: Action, rest: seq<Action>)
    requires Enabled(s, a) && Legal(Apply(s, a), rest)
    ensures Legal(s, [a] + rest) && Run(s, [a] + rest) == Run(Apply(s, a), rest)
  {
    assert ([a] + rest)[1..] == rest;
  }

  lemma Extend(s: State, acts: seq<Action>, a: Action)
    requires Legal(s, acts) && Enabled(Run(s, acts), a)
    ensures Legal(s, acts + [a]) && Run(s, acts + [a]) == Apply(Run(s, acts), a)
  {
    Cons(Run(s, acts), a, []);
    assert [a] + [] == [a];
    RunConcat(s, acts, [a]);
  }

  /** A pull of puller `p` arrives, and worker 0 forwards the request at the head of the queue. */
  function ForwardOver(p: nat): seq<Action> {
    [Pull(p), Dequeue(0), Pair(0), Publish(0), Release(0)]
  }

  lemma ForwardRuns(t: State, p: nat)
    requires |t.workers| > 0 && t.workers[0] == Idle && t.waiting != [] && t.pulls == [] && p !in t.hist.closed
    ensures var u := Apply(Apply(Apply(t, Pull(p)), Dequeue(0)), Pair(0));
            && Enabled(u, Publish(0)) && Enabled(Apply(u, Publish(0)), Release(0))
            && Legal(t, ForwardOver(p)) && Run(t, ForwardOver(p)) == Apply(Apply(u, Publish(0)), Release(0))
  {
    var t1 := Apply(t, Pull(p));
    var t2 := Apply(t1, Dequeue(0));
    var t3 := Apply(t2, Pair(0));
    var t4 := Apply(t3, Publish(0));
    Cons(t4, Release(0), []);
    Cons(t3, Publish(0), [Release(0)] + []);
    Cons(t2, Pair(0), [Publish(0)] + ([Release(0)] + []));
    Cons(t1, Dequeue(0), [Pair(0)] + ([Publish(0)] + ([Release(0)] + [])));
    Cons(t, Pull(p), [Dequeue(0)] + ([Pair(0)] + ([Publish(0)] + ([Release(0)] + []))));
    assert ForwardOver(p) == [Pull(p)] + ([Dequeue(0)] + ([Pair(0)] + ([Publish(0)] + ([Release(0)] + []))));
  }

  lemma ForwardEffect(t: State, p: nat)
    requires |t.workers| > 0 && t.workers[0] == Idle && t.waiting != [] && t.pulls == [] && p !in t.hist.closed
    requires Legal(t, ForwardOver(p))
    ensures var u := Run(t, ForwardOver(p));
            && u.waiting == t.waiting[1..] && u.pulls == [] && u.hands == t.hands && u.workers == t.workers
            && u.out == t.out + [t.waiting[0].(phcl := p)]
            && u.hist.closed == t.hist.closed && u.hist.accepted == t.hist.accepted && u.hist.answers == t.hist.answers
  {
    ForwardRuns(t, p);
  }

  lemma ForwardOne(s: State, acts: seq<Action>, p: nat)
    requires Legal(s, acts)
    requires var t := Run(s, acts);
             |t.workers| > 0 && t.workers[0] == Idle && t.waiting != [] && t.pulls == [] && p !in t.hist.closed
    ensures var more := acts + ForwardOver(p);
            && Legal(s, more)
            && var t, u := Run(s, acts), Run(s, more);
            && u.waiting == t.waiting[1..] && u.pulls == [] && u.hands == t.hands && u.workers == t.workers
            && u.out == t.out + [t.waiting[0].(phcl := p)]
            && u.hist.closed == t.hist.closed && u.hist.accepted == t.hist.accepted && u.hist.answers == t.hist.answers
  {
    ForwardRuns(Run(s, acts), p);
    ForwardEffect(Run(s, acts), p);
    RunConcat(s, acts, ForwardOver(p));
  }

  function TwoOverSeven(k1: Key, k2: Key): seq<Action> {
    [Accept(k1, NoCallback), Accept(k2, NoCallback)] + ForwardOver(7) + ForwardOver(7)
  }

  lemma TwoAccepted(n: nat, m: nat, k1: Key, k2: Key)
    requires k1 != k2
    ensures var acts := [Accept(k1, NoCallback), Accept(k2, NoCallback)];
            && Legal(Init(n, m), acts)
            && var s := Run(Init(n, m), acts);
               && s.waiting == [Req(k1, NoCallback, 0), Req(k2, NoCallback, 0)] && s.out == [] && s.pulls == []
               && s.workers == Init(n, m).workers && s.hands == Init(n, m).hands
               && s.hist.closed == {} && s.hist.answers == []
  {
    var a, b := Accept(k1, NoCallback), Accept(k2, NoCallback);
    Cons(Apply(Init(n, m), a), b, []);
    assert [b] + [] == [b] && [a] + [b] == [a, b];
    Cons(Init(n, m), a, [b]);
  }

  lemma TwoForwarded(n: nat, m: nat, k1: Key, k2: Key)
    requires n > 0 && k1 != k2
    ensures Legal(Init(n, m), TwoOverSeven(k1, k2))
    ensures var s := Run(Init(n, m), TwoOverSeven(k1, k2));
            && s.out == [Req(k1, NoCallback, 7), Req(k2, NoCallback, 7)] && s.waiting == [] && s.pulls == []
            && s.hands == Init(n, m).hands && s.hist.closed == {} && s.hist.answers == []
  {
    var s, acts := Init(n, m), [Accept(k1, NoCallback), Accept(k2, NoCallback)];
    TwoAccepted(n, m, k1, k2);
    ForwardOne(s, acts, 7);
    ForwardOne(s, acts + ForwardOver(7), 7);
  }

  lemma CloseTakesFirst(s: State, x: Req, y: Req)
    requires |s.hands| > 0 && s.hands[0].Free? && s.out == [x, y] && s.waiting == []
    requires x.phcl == 7 && 7 !in s.hist.closed
    ensures var t := Apply(s, CloseTake(0, 7));
            && Enabled(t, ClosePut(0)) && t.hist.closed == s.hist.closed + {7}
            && Apply(t, ClosePut(0)).out == [y] && Apply(t, ClosePut(0)).waiting == [x]
            && Apply(t, ClosePut(0)).hist.closed == t.hist.closed
  {
    var t := Apply(s, CloseTake(0, 7));
    assert IndexOfPuller(s.out, 7) == 0;
    assert t.hands[0] == Closing(x) && t.out == [y];
  }

  /** Two requests forwarded over one puller: its close reschedules the first and strands the
      second. */
  lemma TwoOnOnePullerStrands(n: nat, m: nat, k1: Key, k2: Key)
    requires n > 0 && m > 0 && k1 != k2
    ensures var acts := TwoOverSeven(k1, k2) + [CloseTake(0, 7)] + [ClosePut(0)];
            && Legal(Init(n, m), acts)
            && var s := Run(Init(n, m), acts);
               && s.out == [Req(k2, NoCallback, 7)] && 7 in s.hist.closed
               && s.waiting == [Req(k1, NoCallback, 7)]
  {
    var s, acts := Init(n, m), TwoOverSeven(k1, k2);
    TwoForwarded(n, m, k1, k2);
    CloseTakesFirst(Run(s, acts), Req(k1, NoCallback, 7), Req(k2, NoCallback, 7));
    Extend(s, acts, CloseTake(0, 7));
    Extend(s, acts + [CloseTake(0, 7)], ClosePut(0));
  }

  /** A puller that closes while its pull is still queued is handed a request all the same. */
  lemma CloseBeforeReleaseStrands(n: nat, m: nat)
    requires n > 0 && m > 0
    ensures var acts := [Accept(Key(1, 0), NoCallback), Pull(7), CloseTake(0, 7), Dequeue(0), Pair(0), Publish(0)];
            && Legal(Init(n, m), acts)
            && !Unstranded(Run(Init(n, m), acts))
  {
    var s := Init(n, m);
    var a := Accept(Key(1, 0), NoCallback);
    Extend(s, [], a);
    Extend(s, [] + [a], Pull(7));
    var acts := [a, Pull(7)];
    assert acts == [] + [a] + [Pull(7)];
    Extend(s, acts, CloseTake(0, 7));
    Extend(s, acts + [CloseTake(0, 7)], Dequeue(0));
    var more := acts + [CloseTake(0, 7)] + [Dequeue(0)];
    Extend(s, more, Pair(0));
    Extend(s, more + [Pair(0)], Publish(0));
    assert Run(s, more + [Pair(0)] + [Publish(0)]).out[0].phcl == 7;
    assert more + [Pair(0)] + [Publish(0)] == acts + [CloseTake(0, 7), Dequeue(0), Pair(0), Publish(0)];
  }

  /** A close that finds no record leaves one that is in a pusher's hand alone. */
  lemma CloseMissesHeldRecord(t: State, push: Push)
    requires |t.hands| > 1 && t.hands[0].Free? && t.hands[1].Free?
    requires |t.out| == 1 && t.out[0].callback != NoCallback && t.out[0].phcl !in t.hist.closed
    requires Find(t.out, push) == Found(0)
    ensures var acts := [PushTake(0, push), CloseTake(1, t.out[0].phcl), PushPutBack(0)];
            Legal(t, acts) && !Unstranded(Run(t, acts))
  {
    var p := t.out[0].phcl;
    var t1 := Apply(t, PushTake(0, push));
    assert t1.out == [] && t1.hands[0] == Pushing(t.out[0], push.seqno) && t1.hands[1].Free?;
    var t2 := Apply(t1, CloseTake(1, p));
    assert t2.out == [] && t2.hands == t1.hands && p in t2.hist.closed;
    var t3 := Apply(t2, PushPutBack(0));
    assert t3.out[0].phcl == p && p in t3.hist.closed;
    var a, b, c := PushTake(0, push), CloseTake(1, p), PushPutBack(0);
    assert [a, b, c][1..] == [b, c] && [b, c][1..] == [c];
    assert Legal(t3, []) && Run(t3, []) == t3;
    assert [c][1..] == [];
    assert Legal(t2, [c]) && Run(t2, [c]) == t3;
    assert Legal(t1, [b, c]) && Run(t1, [b, c]) == t3;
  }

  lemma EchoFindsOnly(r: Req)
    requires r.key.id < BOUND && r.key.reqid < BOUND
    ensures Find([r], Push("200", "OK", PrintSeqNo(r.key))) == Found(0)
  {
    SeqNoRoundTrip(r.key);
  }

  /** A close that falls between a push taking an internal request and putting it back misses
      it. */
  lemma CloseDuringCallbackStrands(n: nat, m: nat, k: Key)
    requires n > 0 && m > 1 && k.id < BOUND && k.reqid < BOUND
    ensures var acts := [Accept(k, RedirectAnswer)] + ForwardOver(7)
                        + [PushTake(0, Push("200", "OK", PrintSeqNo(k))), CloseTake(1, 7), PushPutBack(0)];
            && Legal(Init(n, m), acts)
            && !Unstranded(Run(Init(n, m), acts))
  {
    var s := Init(n, m);
    var a := Accept(k, RedirectAnswer);
    Extend(s, [], a);
    assert [] + [a] == [a];
    ForwardOne(s, [a], 7);
    var acts := [a] + ForwardOver(7);
    var t := Run(s, acts);
    assert t.out == [Req(k, RedirectAnswer, 7)];
    EchoFindsOnly(t.out[0]);
    CloseMissesHeldRecord(t, Push("200", "OK", PrintSeqNo(k)));
    RunConcat(s, acts, [PushTake(0, Push("200", "OK", PrintSeqNo(k))), CloseTake(1, 7), PushPutBack(0)]);
  }
}
