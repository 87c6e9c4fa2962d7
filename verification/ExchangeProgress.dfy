/** Pairing and order: the workers pair every request with a puller as long as there are both,
    in bounded work, in enqueue order up to the number of workers. */
module ExchangeProgress {
  import opened Collections
  import opened SeqNo
  import opened Exchange

  // ---------------------------------------------------------------- complete pairing

  /** The steps a worker takes while nothing goes wrong. */
  predicate Pairing(a: Action) {
    a.Dequeue? || a.Pair? || a.Publish? || a.Release?
  }

  predicate PairingRun(acts: seq<Action>) {
    forall i :: 0 <= i < |acts| ==> Pairing(acts[i])
  }

  function Work(w: Worker): nat {
    match w
    case Idle => 0
    case Awaiting(_, _) => 3
    case Forwarding(_, _, _) => 2
    case Releasing(_) => 1
    case Exited => 0
  }

  function IsAwaiting(w: Worker): nat { if w.Awaiting? then 1 else 0 }

  function IsForwarding(w: Worker): nat { if w.Forwarding? then 1 else 0 }

  /** What is left to do for the requests at hand. */
  function Measure(s: State): nat { 4 * |s.waiting| + Total(s.workers, Work) }

  /** Requests that still want a puller. */
  function Demand(s: State): nat { |s.waiting| + Total(s.workers, IsAwaiting) }

  function InProgress(s: State): nat { Total(s.workers, IsForwarding) }

  function Min(x: nat, y: nat): nat { if x < y then x else y }

  lemma PairingStep(s: State, a: Action)
    requires Enabled(s, a) && Pairing(a)
    ensures var s' := Apply(s, a);
            && Measure(s') == Measure(s) - 1
            && Demand(s') - |s'.pulls| == Demand(s) - |s.pulls|
            && Demand(s') + InProgress(s') + |s'.out| == Demand(s) + InProgress(s) + |s.out|
            && |s'.workers| == |s.workers|
            && forall w :: 0 <= w < |s.workers| ==> (s'.workers[w].Exited? <==> s.workers[w].Exited?)
  {
    var s' := Apply(s, a);
    TotalUpdate(s.workers, a.w, s'.workers[a.w], Work);
    TotalUpdate(s.workers, a.w, s'.workers[a.w], IsAwaiting);
    TotalUpdate(s.workers, a.w, s'.workers[a.w], IsForwarding);
  }

  lemma {:induction false} PairingRunKeeps(s: State, acts: seq<Action>)
    requires Legal(s, acts) && PairingRun(acts)
    ensures var s' := Run(s, acts);
            && Measure(s') + |acts| == Measure(s)
            && Demand(s') - |s'.pulls| == Demand(s) - |s.pulls|
            && Demand(s') + InProgress(s') + |s'.out| == Demand(s) + InProgress(s) + |s.out|
            && |s'.workers| == |s.workers|
            && forall w :: 0 <= w < |s.workers| ==> (s'.workers[w].Exited? <==> s.workers[w].Exited?)
    decreases |acts|
  {
    if acts != [] {
      PairingStep(s, acts[0]);
      assert forall i :: 0 <= i < |acts| - 1 ==> acts[1..][i] == acts[i + 1];
      PairingRunKeeps(Apply(s, acts[0]), acts[1..]);
    }
  }

  /** No worker can take a step. */
  ghost predicate Quiet(s: State) {
    forall a :: Pairing(a) ==> !Enabled(s, a)
  }

  /** Not every worker has exited. */
  ghost predicate SomeWorking(s: State) {
    exists w :: 0 <= w < |s.workers| && !s.workers[w].Exited?
  }

  /** A state that holds both kinds, or a forward in progress, always has an enabled worker step. */
  lemma QuietMeansPaired(s: State)
    requires SomeWorking(s) && Quiet(s)
    ensures InProgress(s) == 0 && Min(Demand(s), |s.pulls|) == 0
  {
    forall w | 0 <= w < |s.workers| ensures IsForwarding(s.workers[w]) == 0 {
      assert !Enabled(s, Publish(w));
    }
    TotalZero(s.workers, IsForwarding);
    if s.pulls != [] {
      forall w | 0 <= w < |s.workers| ensures s.workers[w].Idle? || s.workers[w].Exited? {
        assert !Enabled(s, Publish(w)) && !Enabled(s, Release(w)) && !Enabled(s, Pair(w));
      }
      TotalZero(s.workers, IsAwaiting);
      var w :| 0 <= w < |s.workers| && !s.workers[w].Exited?;
      assert !Enabled(s, Dequeue(w));
    }
  }

  /** With no arrivals, closes, shutdown or broken puller, and a worker that has not exited, every
      run of worker steps is finite, and one that cannot go on has forwarded exactly as many
      requests as could be paired, plus those already being forwarded. */
  lemma CompletePairing(s: State, acts: seq<Action>)
    requires SomeWorking(s) && Legal(s, acts) && PairingRun(acts)
    ensures |acts| <= Measure(s)
    ensures Quiet(Run(s, acts)) ==>
              |Run(s, acts).out| == |s.out| + Min(Demand(s), |s.pulls|) + InProgress(s)
  {
    PairingRunKeeps(s, acts);
    if Quiet(Run(s, acts)) {
      var w :| 0 <= w < |s.workers| && !s.workers[w].Exited?;
      assert !Run(s, acts).workers[w].Exited?;
      QuietMeansPaired(Run(s, acts));
    }
  }

  // ---------------------------------------------------------------- order

  function Keys(rs: seq<Req>): (ks: seq<Key>)
    ensures |ks| == |rs| && forall i :: 0 <= i < |rs| ==> ks[i] == rs[i].key
  {
    seq(|rs|, i requires 0 <= i < |rs| => rs[i].key)
  }

  /** What was enqueued is what was dequeued followed by what is still waiting. */
  ghost predicate Fifo(s: State) {
    s.hist.enqueued == s.hist.dequeued + Keys(s.waiting)
  }

  lemma KeysAppend(rs: seq<Req>, r: Req)
    ensures Keys(rs + [r]) == Keys(rs) + [r.key]
  {
  }

  lemma KeysHead(rs: seq<Req>)
    requires rs != []
    ensures Keys(rs) == [rs[0].key] + Keys(rs[1..])
  {
  }

  lemma EnqueueKeepsFifo(s: State, r: Req)
    requires Fifo(s)
    ensures Fifo(Enqueue(s, r))
  {
    KeysAppend(s.waiting, r);
    assert s.hist.dequeued + Keys(s.waiting) + [r.key] == s.hist.dequeued + (Keys(s.waiting) + [r.key]);
  }

  lemma DequeueKeepsFifo(s: State, w: nat)
    requires Enabled(s, Dequeue(w)) && Fifo(s)
    ensures Fifo(Apply(s, Dequeue(w)))
  {
    KeysHead(s.waiting);
    var d, k, ks := s.hist.dequeued, s.waiting[0].key, Keys(s.waiting[1..]);
    assert d + ([k] + ks) == (d + [k]) + ks;
  }

  lemma StepKeepsFifo(s: State, a: Action)
    requires Enabled(s, a) && Fifo(s)
    ensures Fifo(Apply(s, a))
  {
    if a.Accept? {
      EnqueueKeepsFifo(s.(hist := s.hist.(accepted := s.hist.accepted + {a.key})), Req(a.key, a.callback, 0));
    } else if a.ClosePut? {
      EnqueueKeepsFifo(s.(hands := s.hands[a.h := Free]), s.hands[a.h].r);
    } else if a.Dequeue? {
      DequeueKeepsFifo(s, a.w);
    } else {
      var s' := Apply(s, a);
      assert s'.waiting == s.waiting;
      assert s'.hist.enqueued == s.hist.enqueued;
      assert s'.hist.dequeued == s.hist.dequeued;
    }
  }

  predicate HasTicket(w: Worker) { w.Awaiting? || w.Forwarding? }

  ghost predicate Held(s: State, t: nat) {
    exists w :: 0 <= w < |s.workers| && HasTicket(s.workers[w]) && s.workers[w].ticket == t
  }

  predicate TicketSettled(s: State, t: nat) {
    t in s.hist.forwarded || t in s.hist.dropped
  }

  /** A worker with a ticket holds the request that was dequeued under it. */
  ghost predicate TicketsValid(s: State) {
    forall w :: 0 <= w < |s.workers| && HasTicket(s.workers[w]) ==>
      s.workers[w].ticket < |s.hist.dequeued| && s.workers[w].r.key == s.hist.dequeued[s.workers[w].ticket]
  }

  /** Every ticket given out was forwarded, dropped, or is held by a worker. */
  ghost predicate TicketsCovered(s: State) {
    forall t :: 0 <= t < |s.hist.dequeued| ==> TicketSettled(s, t) || Held(s, t)
  }

  ghost predicate TicketsKept(s: State) {
    TicketsValid(s) && TicketsCovered(s)
  }

  lemma StepKeepsValid(s: State, a: Action)
    requires Enabled(s, a) && TicketsValid(s)
    ensures TicketsValid(Apply(s, a))
  {
  }

  lemma StepKeepsTicket(s: State, a: Action, t: nat)
    requires Enabled(s, a) && TicketsCovered(s) && t < |Apply(s, a).hist.dequeued|
    ensures TicketSettled(Apply(s, a), t) || Held(Apply(s, a), t)
  {
    var s' := Apply(s, a);
    if t == |s.hist.dequeued| {
      assert s'.workers[a.w].ticket == t;
    } else if !TicketSettled(s, t) {
      assert Held(s, t);
      var w :| 0 <= w < |s.workers| && HasTicket(s.workers[w]) && s.workers[w].ticket == t;
      assert TicketSettled(s', t) || (HasTicket(s'.workers[w]) && s'.workers[w].ticket == t);
    }
  }

  lemma StepKeepsTickets(s: State, a: Action)
    requires Enabled(s, a) && TicketsKept(s)
    ensures TicketsKept(Apply(s, a))
  {
    StepKeepsValid(s, a);
    forall t: nat | t < |Apply(s, a).hist.dequeued|
      ensures TicketSettled(Apply(s, a), t) || Held(Apply(s, a), t)
    {
      StepKeepsTicket(s, a, t);
    }
  }

  lemma {:induction false} RunKeepsOrder(s: State, acts: seq<Action>)
    requires Legal(s, acts) && Fifo(s) && TicketsKept(s)
    ensures Fifo(Run(s, acts)) && TicketsKept(Run(s, acts)) && |Run(s, acts).workers| == |s.workers|
    decreases |acts|
  {
    if acts != [] {
      StepKeepsFifo(s, acts[0]);
      StepKeepsTickets(s, acts[0]);
      RunKeepsOrder(Apply(s, acts[0]), acts[1..]);
    }
  }

  /** The tickets below `n` that were neither forwarded nor dropped. */
  ghost function Overtaken(s: State, n: nat): set<nat> {
    set t | 0 <= t < n && !TicketSettled(s, t)
  }

  ghost function TicketsIn(ws: seq<Worker>): set<nat> {
    set w | 0 <= w < |ws| && HasTicket(ws[w]) :: ws[w].ticket
  }

  lemma {:induction false} FewTickets(ws: seq<Worker>)
    ensures |TicketsIn(ws)| <= |ws|
  {
    if ws != [] {
      var n := |ws| - 1;
      FewTickets(ws[..n]);
      var last := if HasTicket(ws[n]) then {ws[n].ticket} else {};
      forall t | t in TicketsIn(ws) ensures t in TicketsIn(ws[..n]) + last {
        var w :| 0 <= w < |ws| && HasTicket(ws[w]) && ws[w].ticket == t;
        if w < n { assert ws[..n][w] == ws[w]; }
      }
      Subset(TicketsIn(ws), TicketsIn(ws[..n]) + last);
    }
  }

  lemma Subset(xs: set<nat>, ys: set<nat>)
    requires xs <= ys
    ensures |xs| <= |ys|
  {
    assert ys == xs + (ys - xs);
  }

  /** Requests leave the queue in the order they entered it, and when one is forwarded at most
      one less than the number of workers (so at most seven) of those dequeued before it are
      still waiting to be. */
  lemma BoundedOvertaking(n: nat, m: nat, acts: seq<Action>, w: nat)
    requires Legal(Init(n, m), acts) && Enabled(Run(Init(n, m), acts), Publish(w))
    ensures var s := Run(Init(n, m), acts);
            && s.hist.dequeued <= s.hist.enqueued
            && s.workers[w].ticket < |s.hist.dequeued|
            && s.hist.dequeued[s.workers[w].ticket] == s.workers[w].r.key
            && |Overtaken(s, s.workers[w].ticket)| <= n - 1
            && (n == WORKERS ==> |Overtaken(s, s.workers[w].ticket)| <= 7)
  {
    assert Keys([]) == [];
    RunKeepsOrder(Init(n, m), acts);
    var s := Run(Init(n, m), acts);
    var t := s.workers[w].ticket;
    var others := RemoveAt(s.workers, w);
    forall u | u in Overtaken(s, t) ensures u in TicketsIn(others) {
      assert Held(s, u);
      var v :| 0 <= v < |s.workers| && HasTicket(s.workers[v]) && s.workers[v].ticket == u;
      assert others[if v < w then v else v - 1] == s.workers[v];
    }
    FewTickets(others);
    Subset(Overtaken(s, t), TicketsIn(others));
  }

  // ---------------------------------------------------------------- pulls

  /** The pullers that came in a run, in order. */
  function Came(acts: seq<Action>): seq<nat> {
    if acts == [] then [] else (if acts[0].Pull? then [acts[0].puller] else []) + Came(acts[1..])
  }

  /** The pullers that workers took for their requests, in order. */
  function Taken(s: State, acts: seq<Action>): seq<nat>
    requires Legal(s, acts)
    decreases |acts|
  {
    if acts == [] then []
    else
      var a, t := acts[0], Apply(s, acts[0]);
      assert a.Pair? ==> t.workers[a.w].Forwarding?;
      (if a.Pair? then [t.workers[a.w].puller] else []) + Taken(t, acts[1..])
  }

  /** A pairing keeps the worker's request, and nothing else touches the queue of pulls but a new
      pull at its end. */
  lemma PullStep(s: State, a: Action)
    requires Enabled(s, a)
    ensures var t := Apply(s, a);
            && (a.Pair? ==> t.workers[a.w].Forwarding? && t.workers[a.w].r == s.workers[a.w].r
                            && s.pulls == [t.workers[a.w].puller] + t.pulls)
            && (a.Pull? ==> t.pulls == s.pulls + [a.puller])
            && (!a.Pair? && !a.Pull? ==> t.pulls == s.pulls)
  {
  }

  /** What one step puts in front of the rest. */
  lemma Shift(pulls: seq<nat>, came: seq<nat>, rest: seq<nat>, first: seq<nat>, next: seq<nat>,
              taken: seq<nat>, left: seq<nat>)
    requires first + next == pulls + came && next + rest == taken + left
    ensures pulls + (came + rest) == (first + taken) + left
  {
    assert pulls + (came + rest) == (pulls + came) + rest == first + (next + rest);
    assert first + (taken + left) == (first + taken) + left;
  }

  /** In every run pulls are taken in the order they came, each once: those that waited and those
      that came are those that were taken followed by those that wait. */
  lemma {:induction false} PullsInOrder(s: State, acts: seq<Action>)
    requires Legal(s, acts)
    ensures s.pulls + Came(acts) == Taken(s, acts) + Run(s, acts).pulls
    decreases |acts|
  {
    if acts == [] {
      assert s.pulls + [] == [] + s.pulls;
    } else {
      var a, t, rest := acts[0], Apply(s, acts[0]), acts[1..];
      PullStep(s, a);
      PullsInOrder(t, rest);
      var first := if a.Pair? then [t.workers[a.w].puller] else [];
      var came := if a.Pull? then [a.puller] else [];
      Shift(s.pulls, came, Came(rest), first, t.pulls, Taken(t, rest), Run(t, rest).pulls);
    }
  }
}
