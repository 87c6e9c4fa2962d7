/** What every interleaving of the exchange keeps: no record is duplicated or forgotten, no
    request is answered twice, and when a forwarded request can be left stranded. */
module ExchangeSafety {
  import opened Collections
  import opened SeqNo
  import opened Exchange

  // ---------------------------------------------------------------- conservation

  /** What to count: the records with one key, or those with one callback. */
  datatype Measure = WithKey(k: Key) | For(callback: Callback)

  function Weigh(f: Measure, r: Req): nat {
    match f
    case WithKey(k) => if r.key == k then 1 else 0
    case For(callback) => if r.callback == callback then 1 else 0
  }

  function OfReq(f: Measure): Req -> nat { (r: Req) => Weigh(f, r) }

  function OfWorker(f: Measure): Worker -> nat {
    (w: Worker) => if w.Awaiting? || w.Forwarding? then Weigh(f, w.r) else 0
  }

  /** Records in a pusher's hand are counted only on request. */
  function OfHand(f: Measure, pushing: bool): Hand -> nat {
    (h: Hand) => if h.Closing? || (h.Pushing? && pushing) then Weigh(f, h.r) else 0
  }

  /** The count over all requests that are still to be answered. */
  function Count(s: State, f: Measure, pushing: bool): nat {
    Total(s.waiting, OfReq(f)) + Total(s.workers, OfWorker(f)) + Total(s.out, OfReq(f))
    + Total(s.hands, OfHand(f, pushing))
  }

  /** How an action changes that count. */
  function Change(s: State, a: Action, f: Measure, pushing: bool): int
    requires Enabled(s, a)
  {
    match a
    case Accept(key, callback) => Weigh(f, Req(key, callback, 0))
    case GiveUp(w) => 0 - Weigh(f, s.workers[w].r)
    case Drop(w) => 0 - Weigh(f, s.workers[w].r)
    case PushTake(_, push) =>
      (match Find(s.out, push)
       case Refused(_) => 0
       case Found(i) => if pushing then 0 else 0 - Weigh(f, s.out[i]))
    case PushPutBack(h) => if pushing then 0 else Weigh(f, s.hands[h].r)
    case PushDone(h, _) => if pushing then 0 - Weigh(f, s.hands[h].r) else 0
    case _ => 0
  }

  lemma WorkerStepCount(s: State, a: Action, f: Measure, pushing: bool)
    requires Enabled(s, a)
    requires a.Dequeue? || a.Pair? || a.Publish? || a.Release? || a.Retire? || a.GiveUp? || a.Drop?
    ensures Count(Apply(s, a), f, pushing) == Count(s, f, pushing) + Change(s, a, f, pushing)
  {
    var s' := Apply(s, a);
    TotalUpdate(s.workers, a.w, s'.workers[a.w], OfWorker(f));
    if a.Dequeue? {
      TotalRemove(s.waiting, 0, OfReq(f));
      assert RemoveAt(s.waiting, 0) == s.waiting[1..];
    } else if a.Publish? {
      TotalAppend(s.out, s.workers[a.w].r.(phcl := s.workers[a.w].puller), OfReq(f));
    }
  }

  lemma TakeStepCount(s: State, a: Action, f: Measure, pushing: bool)
    requires Enabled(s, a) && (a.PushTake? || a.CloseTake?)
    ensures Count(Apply(s, a), f, pushing) == Count(s, f, pushing) + Change(s, a, f, pushing)
  {
    var s' := Apply(s, a);
    var i := if a.CloseTake? then IndexOfPuller(s.out, a.puller)
             else if Find(s.out, a.push).Found? then Find(s.out, a.push).index
             else |s.out|;
    if i < |s.out| {
      TotalRemove(s.out, i, OfReq(f));
      TotalUpdate(s.hands, a.h, s'.hands[a.h], OfHand(f, pushing));
    }
  }

  lemma HandStepCount(s: State, a: Action, f: Measure, pushing: bool)
    requires Enabled(s, a) && (a.PushPutBack? || a.PushDone? || a.ClosePut?)
    ensures Count(Apply(s, a), f, pushing) == Count(s, f, pushing) + Change(s, a, f, pushing)
  {
    TotalUpdate(s.hands, a.h, Free, OfHand(f, pushing));
    TotalAppend(s.out, s.hands[a.h].r, OfReq(f));
    TotalAppend(s.waiting, s.hands[a.h].r, OfReq(f));
  }

  lemma StepCount(s: State, a: Action, f: Measure, pushing: bool)
    requires Enabled(s, a)
    ensures Count(Apply(s, a), f, pushing) == Count(s, f, pushing) + Change(s, a, f, pushing)
  {
    if a.Accept? {
      TotalAppend(s.waiting, Req(a.key, a.callback, 0), OfReq(f));
    } else if a.Pull? {
    } else if a.PushTake? || a.CloseTake? {
      TakeStepCount(s, a, f, pushing);
    } else if a.PushPutBack? || a.PushDone? || a.ClosePut? {
      HandStepCount(s, a, f, pushing);
    } else {
      WorkerStepCount(s, a, f, pushing);
    }
  }

  function AnswerIs(k: Key): Answer -> nat { (a: Answer) => if a.key == k then 1 else 0 }

  function KeyIs(k: Key): Key -> nat { (x: Key) => if x == k then 1 else 0 }

  /** How many times a request that is still to be answered is queued or held. */
  function Circulating(s: State, k: Key): nat {
    Count(s, WithKey(k), true)
  }

  /** All places a request can be in, with multiplicity. */
  function Places(s: State, k: Key): nat {
    Circulating(s, k) + Total(s.hist.answers, AnswerIs(k)) + Total(s.hist.lost, KeyIs(k))
  }

  ghost predicate Conserved(s: State) {
    forall k :: Places(s, k) == if k in s.hist.accepted then 1 else 0
  }

  lemma {:induction false} TotalOfNothing<T>(n: nat, x: T, f: T -> nat)
    requires f(x) == 0
    ensures Total(seq(n, _ => x), f) == 0
  {
    TotalZero(seq(n, _ => x), f);
  }

  lemma InitConserved(n: nat, m: nat)
    ensures Conserved(Init(n, m))
  {
    forall k ensures Places(Init(n, m), k) == 0 {
      TotalOfNothing(n, Idle, OfWorker(WithKey(k)));
      TotalOfNothing(m, Free, OfHand(WithKey(k), true));
    }
  }

  /** The two losing steps and no others take a request out of circulation unanswered: besides
      them only an accept and an answer change what is in circulation. */
  lemma OnlyTwoStepsLose(s: State, a: Action, k: Key)
    requires Enabled(s, a)
    ensures Circulating(Apply(s, a), k) < Circulating(s, k) ==>
              (a.GiveUp? && s.workers[a.w].r.key == k) || (a.Drop? && s.workers[a.w].r.key == k)
              || (a.PushDone? && s.hands[a.h].r.key == k)
    ensures Circulating(Apply(s, a), k) > Circulating(s, k) ==> a.Accept? && a.key == k
  {
    StepCount(s, a, WithKey(k), true);
  }

  lemma StepPlaces(s: State, a: Action, k: Key)
    requires Enabled(s, a)
    ensures Places(Apply(s, a), k) == Places(s, k) + if a.Accept? && a.key == k then 1 else 0
  {
    StepCount(s, a, WithKey(k), true);
    match a
    case GiveUp(w) => TotalAppend(s.hist.lost, s.workers[w].r.key, KeyIs(k));
    case Drop(w) => TotalAppend(s.hist.lost, s.workers[w].r.key, KeyIs(k));
    case PushDone(h, delivered) =>
      TotalAppend(s.hist.answers, Answer(s.hands[h].r.key, s.hands[h].seqno, delivered), AnswerIs(k));
    case _ =>
      assert Apply(s, a).hist.lost == s.hist.lost && Apply(s, a).hist.answers == s.hist.answers;
  }

  lemma StepConserves(s: State, a: Action)
    requires Enabled(s, a) && Conserved(s)
    ensures Conserved(Apply(s, a))
  {
    var s' := Apply(s, a);
    forall k ensures Places(s', k) == if k in s'.hist.accepted then 1 else 0 {
      StepPlaces(s, a, k);
      assert s'.hist.accepted == if a.Accept? then s.hist.accepted + {a.key} else s.hist.accepted;
    }
  }

  lemma {:induction false} RunConserves(s: State, acts: seq<Action>)
    requires Legal(s, acts) && Conserved(s)
    ensures Conserved(Run(s, acts))
    decreases |acts|
  {
    if acts != [] {
      StepConserves(s, acts[0]);
      RunConserves(Apply(s, acts[0]), acts[1..]);
    }
  }

  /** In every run every accepted request is in exactly one place, and nothing else is anywhere. */
  lemma ExactlyOnePlace(n: nat, m: nat, acts: seq<Action>)
    requires Legal(Init(n, m), acts)
    ensures var s := Run(Init(n, m), acts);
            forall k :: Places(s, k) == if k in s.hist.accepted then 1 else 0
  {
    InitConserved(n, m);
    RunConserves(Init(n, m), acts);
  }

  // ---------------------------------------------------------------- at most one answer

  /** The sequence number of every completed or half-completed push names its request. */
  ghost predicate PushesMatch(s: State) {
    && (forall i :: 0 <= i < |s.hist.answers| ==>
          ParseSeqNo(s.hist.answers[i].seqno) == Some(s.hist.answers[i].key))
    && (forall h :: 0 <= h < |s.hands| && s.hands[h].Pushing? ==>
          ParseSeqNo(s.hands[h].seqno) == Some(s.hands[h].r.key))
  }

  lemma StepKeepsPushesMatch(s: State, a: Action)
    requires Enabled(s, a) && PushesMatch(s)
    ensures PushesMatch(Apply(s, a))
  {
  }

  lemma {:induction false} RunKeepsPushesMatch(s: State, acts: seq<Action>)
    requires Legal(s, acts) && PushesMatch(s)
    ensures PushesMatch(Run(s, acts))
    decreases |acts|
  {
    if acts != [] {
      StepKeepsPushesMatch(s, acts[0]);
      RunKeepsPushesMatch(Apply(s, acts[0]), acts[1..]);
    }
  }

  lemma AnswersDistinct(s: State, i: nat, j: nat)
    requires Conserved(s) && i < j < |s.hist.answers|
    ensures s.hist.answers[i].key != s.hist.answers[j].key
  {
    var xs := s.hist.answers;
    var k := xs[j].key;
    TotalRemove(xs, j, AnswerIs(k));
    TotalMember(RemoveAt(xs, j), i, AnswerIs(k));
    assert Places(s, k) <= 1;
  }

  /** However often a request is forwarded, rescheduled or pushed, at most one push completes
      it, and that push carried the request's own sequence number. */
  lemma AtMostOneAnswer(n: nat, m: nat, acts: seq<Action>)
    requires Legal(Init(n, m), acts)
    ensures var done := Run(Init(n, m), acts).hist.answers;
            && (forall i, j :: 0 <= i < j < |done| ==> done[i].key != done[j].key)
            && (forall i :: 0 <= i < |done| ==> ParseSeqNo(done[i].seqno) == Some(done[i].key))
  {
    var s := Run(Init(n, m), acts);
    InitConserved(n, m);
    RunConserves(Init(n, m), acts);
    RunKeepsPushesMatch(Init(n, m), acts);
    forall i, j | 0 <= i < j < |s.hist.answers|
      ensures s.hist.answers[i].key != s.hist.answers[j].key
    {
      AnswersDistinct(s, i, j);
    }
  }

  ghost predicate IsAnswered(s: State, k: Key) {
    exists i :: 0 <= i < |s.hist.answers| && s.hist.answers[i].key == k
  }

  lemma {:induction false} AnswersGrow(s: State, acts: seq<Action>)
    requires Legal(s, acts)
    ensures s.hist.answers <= Run(s, acts).hist.answers
    decreases |acts|
  {
    if acts != [] {
      var s' := Apply(s, acts[0]);
      assert s.hist.answers <= s'.hist.answers;
      AnswersGrow(s', acts[1..]);
    }
  }

  ghost predicate NowhereQueued(s: State, k: Key) {
    && (forall i :: 0 <= i < |s.waiting| ==> s.waiting[i].key != k)
    && (forall i :: 0 <= i < |s.out| ==> s.out[i].key != k)
    && (forall i :: 0 <= i < |s.workers| && (s.workers[i].Awaiting? || s.workers[i].Forwarding?) ==>
          s.workers[i].r.key != k)
    && (forall i :: 0 <= i < |s.hands| && !s.hands[i].Free? ==> s.hands[i].r.key != k)
  }

  lemma AnsweredMeansNowhere(s: State, k: Key)
    requires Conserved(s) && IsAnswered(s, k)
    ensures NowhereQueued(s, k)
  {
    var i :| 0 <= i < |s.hist.answers| && s.hist.answers[i].key == k;
    TotalMember(s.hist.answers, i, AnswerIs(k));
    assert Places(s, k) <= 1;
    TotalZero(s.waiting, OfReq(WithKey(k)));
    TotalZero(s.out, OfReq(WithKey(k)));
    TotalZero(s.workers, OfWorker(WithKey(k)));
    TotalZero(s.hands, OfHand(WithKey(k), true));
    assert forall i :: 0 <= i < |s.waiting| ==> OfReq(WithKey(k))(s.waiting[i]) == 0;
    assert forall i :: 0 <= i < |s.out| ==> OfReq(WithKey(k))(s.out[i]) == 0;
    assert forall i :: 0 <= i < |s.workers| ==> OfWorker(WithKey(k))(s.workers[i]) == 0;
    assert forall i :: 0 <= i < |s.hands| ==> OfHand(WithKey(k), true)(s.hands[i]) == 0;
  }

  /** Once answered, a request is never queued, held or forwarded again, whatever follows. */
  lemma AnsweredNeverReturns(n: nat, m: nat, before: seq<Action>, after: seq<Action>, k: Key)
    requires Legal(Init(n, m), before) && IsAnswered(Run(Init(n, m), before), k)
    requires Legal(Run(Init(n, m), before), after)
    ensures var s := Run(Run(Init(n, m), before), after); IsAnswered(s, k) && NowhereQueued(s, k)
  {
    var s0 := Run(Init(n, m), before);
    InitConserved(n, m);
    RunConserves(Init(n, m), before);
    RunConserves(s0, after);
    AnswersGrow(s0, after);
    var i :| 0 <= i < |s0.hist.answers| && s0.hist.answers[i].key == k;
    assert Run(s0, after).hist.answers[i].key == k;
    AnsweredMeansNowhere(Run(s0, after), k);
  }

  /** No two outstanding records have the same key. */
  lemma OutstandingDistinct(s: State, i: nat, j: nat)
    requires Conserved(s) && i < j < |s.out|
    ensures s.out[i].key != s.out[j].key
  {
    var k := s.out[j].key;
    TotalRemove(s.out, j, OfReq(WithKey(k)));
    TotalMember(RemoveAt(s.out, j), i, OfReq(WithKey(k)));
    assert Places(s, k) <= 1;
  }

  /** The request a push names, when its code and text are present and its number scans. */
  function Named(push: Push): Option<Key> {
    if push.httpcode == "" || push.httptext == "" then None else ParseSeqNo(push.seqno)
  }

  ghost predicate Outstanding(s: State, k: Key) {
    exists i :: 0 <= i < |s.out| && s.out[i].key == k
  }

  lemma FoundIsNamed(out: seq<Req>, push: Push)
    ensures Find(out, push).Found? <==>
            Named(push).Some? && exists i :: 0 <= i < |out| && out[i].key == Named(push).value
    ensures Find(out, push).Found? ==> out[Find(out, push).index].key == Named(push).value
  {
  }

  /** What a refused push is told: 504 when something in it is missing or cannot be read, 404 when
      nobody waits under its number. */
  lemma RefusalCodes(out: seq<Req>, push: Push)
    ensures Find(out, push) == Refused(504) <==>
            push.httpcode == "" || push.httptext == "" || ParseSeqNo(push.seqno) == None
    ensures Find(out, push) == Refused(404) <==>
            && push.httpcode != "" && push.httptext != "" && ParseSeqNo(push.seqno).Some?
            && forall i :: 0 <= i < |out| ==> Some(out[i].key) != ParseSeqNo(push.seqno)
  {
  }

  lemma RemovedMeansGone(s: State, i: nat)
    requires Conserved(s) && i < |s.out|
    ensures !Outstanding(s.(out := RemoveAt(s.out, i)), s.out[i].key)
  {
    var left := RemoveAt(s.out, i);
    forall j | 0 <= j < |left| ensures left[j].key != s.out[i].key {
      if j < i { OutstandingDistinct(s, j, i); } else { OutstandingDistinct(s, i, j + 1); }
    }
  }

  /** A push whose code or text is missing, whose sequence number does not scan, or whose number
      no outstanding request has, changes nothing at all; any other takes the one record with
      that key out of the list. */
  lemma PushRemovesOneOrNothing(s: State, h: nat, push: Push)
    requires Conserved(s) && Enabled(s, PushTake(h, push))
    ensures var s' := PushTakeStep(s, h, push);
            if Named(push).Some? && Outstanding(s, Named(push).value) then
              && s'.hands[h].Pushing? && s'.hands[h].r.key == Named(push).value
              && s'.hands[h].r in s.out && |s'.out| == |s.out| - 1
              && !Outstanding(s', Named(push).value)
            else s' == s
  {
    FoundIsNamed(s.out, push);
    var l := Find(s.out, push);
    if l.Found? {
      RemovedMeansGone(s, l.index);
    }
  }

  lemma FirstWithItsKey(s: State, i: nat)
    requires Conserved(s) && i < |s.out|
    ensures IndexOfKey(s.out, s.out[i].key) == i
  {
    var j := IndexOfKey(s.out, s.out[i].key);
    if j < i {
      OutstandingDistinct(s, j, i);
    }
  }

  /** A push that echoes the sequence number printed for an outstanding request takes that
      request if and only if both its numbers are below the printing bound. */
  lemma EchoFindsItsRequest(s: State, i: nat, push: Push)
    requires Conserved(s) && i < |s.out|
    requires push.httpcode != "" && push.httptext != "" && push.seqno == PrintSeqNo(s.out[i].key)
    ensures Find(s.out, push) == Found(i) <==> s.out[i].key.id < BOUND && s.out[i].key.reqid < BOUND
  {
    SeqNoRoundTrip(s.out[i].key);
    FirstWithItsKey(s, i);
  }
}
