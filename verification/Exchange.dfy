/** The proxy exchange as a transition system (server/djb.c).

    Requests wait in `waiting` (lst_proxy_new), pulls in `pulls` (lst_api_pull), and forwarded
    requests in `out` (lst_proxy_out) until a push answers them. Workers and the threads that
    serve pushes and closes hold a record between two locked list operations; every locked
    operation is one action. What a step may choose (which thread runs, whether a connection
    is still valid, whether a callback is done) is part of the action. */
module Exchange {
  import opened Collections
  import opened SeqNo

  /** DJB_WORKERS */
  const WORKERS: nat := 8

  /** The push callback in a request's headers: only the daemon's own requests have one. */
  datatype Callback = NoCallback | InitialAnswer | RedirectAnswer

  /** A queued request. `phcl` is the id of the puller it was last forwarded to. */
  datatype Req = Req(key: Key, callback: Callback, phcl: nat)

  /** A worker between two list operations. `ticket` is the number of requests dequeued before
      the one in hand. */
  datatype Worker =
    | Idle
    | Awaiting(r: Req, ticket: nat)
    | Forwarding(r: Req, ticket: nat, puller: nat)
    | Releasing(puller: nat)
    | Exited

  /** A thread serving HTTP requests: it may hold a record while it handles a push or a close. */
  datatype Hand = Free | Pushing(r: Req, seqno: string) | Closing(r: Req)

  /** The DJB headers of a push. */
  datatype Push = Push(httpcode: string, httptext: string, seqno: string)

  /** A completed request; `delivered` is false when its client had closed the connection. */
  datatype Answer = Answer(key: Key, seqno: string, delivered: bool)

  /** What happened so far. */
  datatype History = History(
    accepted: set<Key>,
    enqueued: seq<Key>,
    dequeued: seq<Key>,
    forwarded: set<nat>,
    dropped: set<nat>,
    answers: seq<Answer>,
    lost: seq<Key>,
    closed: set<nat>)

  datatype State = State(
    waiting: seq<Req>,
    out: seq<Req>,
    pulls: seq<nat>,
    workers: seq<Worker>,
    hands: seq<Hand>,
    hist: History)

  datatype Action =
    | Accept(key: Key, callback: Callback)
    | Pull(puller: nat)
    | Dequeue(w: nat)
    | Pair(w: nat)
    | Publish(w: nat)
    | Release(w: nat)
    | Retire(w: nat)
    | GiveUp(w: nat)
    | Drop(w: nat)
    | PushTake(h: nat, push: Push)
    | PushPutBack(h: nat)
    | PushDone(h: nat, delivered: bool)
    | CloseTake(h: nat, puller: nat)
    | ClosePut(h: nat)

  function Init(workers: nat, hands: nat): State {
    State([], [], [], seq(workers, _ => Idle), seq(hands, _ => Free),
          History({}, [], [], {}, {}, [], [], {}))
  }

  // ---------------------------------------------------------------- searching

  /** The first record with this key. */
  function IndexOfKey(rs: seq<Req>, k: Key): (i: nat)
    ensures i <= |rs|
    ensures i < |rs| ==> rs[i].key == k
    ensures forall j :: 0 <= j < i ==> rs[j].key != k
  {
    if rs == [] || rs[0].key == k then 0 else 1 + IndexOfKey(rs[1..], k)
  }

  /** The first record paired with this puller. */
  function IndexOfPuller(rs: seq<Req>, p: nat): (i: nat)
    ensures i <= |rs|
    ensures i < |rs| ==> rs[i].phcl == p
    ensures forall j :: 0 <= j < i ==> rs[j].phcl != p
  {
    if rs == [] || rs[0].phcl == p then 0 else 1 + IndexOfPuller(rs[1..], p)
  }

  datatype Lookup = Refused(status: nat) | Found(index: nat)

  /** The checks a push has to pass before its record leaves the outstanding list. */
  function Find(out: seq<Req>, push: Push): (l: Lookup)
    ensures l.Found? ==> l.index < |out| && ParseSeqNo(push.seqno) == Some(out[l.index].key)
    ensures l.Found? ==> push.httpcode != "" && push.httptext != ""
  {
    if push.httpcode == "" then Refused(504)
    else if push.httptext == "" then Refused(504)
    else match ParseSeqNo(push.seqno)
         case None => Refused(504)
         case Some(k) =>
           var i := IndexOfKey(out, k);
           if i < |out| then Found(i) else Refused(404)
  }

  // ---------------------------------------------------------------- steps

  predicate HasWorker(s: State, w: nat) { w < |s.workers| }
  predicate HasHand(s: State, h: nat) { h < |s.hands| }

  predicate Enabled(s: State, a: Action) {
    match a
    case Accept(key, _) => key !in s.hist.accepted
    case Pull(p) => p !in s.hist.closed
    case Dequeue(w) => HasWorker(s, w) && s.workers[w].Idle? && s.waiting != []
    case Pair(w) => HasWorker(s, w) && s.workers[w].Awaiting? && s.pulls != []
    case Publish(w) => HasWorker(s, w) && s.workers[w].Forwarding?
    case Release(w) => HasWorker(s, w) && s.workers[w].Releasing?
    case Retire(w) => HasWorker(s, w) && s.workers[w].Idle?
    case GiveUp(w) => HasWorker(s, w) && s.workers[w].Awaiting?
    case Drop(w) => HasWorker(s, w) && s.workers[w].Forwarding?
    case PushTake(h, _) => HasHand(s, h) && s.hands[h].Free?
    case PushPutBack(h) => HasHand(s, h) && s.hands[h].Pushing? && s.hands[h].r.callback != NoCallback
    case PushDone(h, _) => HasHand(s, h) && s.hands[h].Pushing?
    case CloseTake(h, p) => HasHand(s, h) && s.hands[h].Free? && p !in s.hist.closed
    case ClosePut(h) => HasHand(s, h) && s.hands[h].Closing?
  }

  function Enqueue(s: State, r: Req): State {
    s.(waiting := s.waiting + [r], hist := s.hist.(enqueued := s.hist.enqueued + [r.key]))
  }

  function Apply(s: State, a: Action): State
    requires Enabled(s, a)
  {
    match a
    case Accept(key, callback) =>
      Enqueue(s.(hist := s.hist.(accepted := s.hist.accepted + {key})), Req(key, callback, 0))
    case Pull(p) => s.(pulls := s.pulls + [p])
    case Dequeue(w) =>
      s.(waiting := s.waiting[1..],
         workers := s.workers[w := Awaiting(s.waiting[0], |s.hist.dequeued|)],
         hist := s.hist.(dequeued := s.hist.dequeued + [s.waiting[0].key]))
    case Pair(w) =>
      s.(pulls := s.pulls[1..],
         workers := s.workers[w := Forwarding(s.workers[w].r, s.workers[w].ticket, s.pulls[0])])
    case Publish(w) =>
      s.(out := s.out + [s.workers[w].r.(phcl := s.workers[w].puller)],
         workers := s.workers[w := Releasing(s.workers[w].puller)],
         hist := s.hist.(forwarded := s.hist.forwarded + {s.workers[w].ticket}))
    case Release(w) => s.(workers := s.workers[w := Idle])
    case Retire(w) => s.(workers := s.workers[w := Exited])
    case GiveUp(w) =>
      s.(workers := s.workers[w := Exited],
         hist := s.hist.(lost := s.hist.lost + [s.workers[w].r.key],
                         dropped := s.hist.dropped + {s.workers[w].ticket}))
    case Drop(w) =>
      s.(workers := s.workers[w := Idle],
         hist := s.hist.(lost := s.hist.lost + [s.workers[w].r.key],
                         dropped := s.hist.dropped + {s.workers[w].ticket}))
    case PushTake(h, push) => PushTakeStep(s, h, push)
    case PushPutBack(h) =>
      s.(out := s.out + [s.hands[h].r], hands := s.hands[h := Free])
    case PushDone(h, delivered) =>
      s.(hands := s.hands[h := Free],
         hist := s.hist.(answers := s.hist.answers + [Answer(s.hands[h].r.key, s.hands[h].seqno, delivered)]))
    case CloseTake(h, p) => CloseTakeStep(s.(hist := s.hist.(closed := s.hist.closed + {p})), h, p)
    case ClosePut(h) => Enqueue(s.(hands := s.hands[h := Free]), s.hands[h].r)
  }

  function PushTakeStep(s: State, h: nat, push: Push): State
    requires HasHand(s, h)
  {
    match Find(s.out, push)
    case Refused(_) => s
    case Found(i) => s.(out := RemoveAt(s.out, i), hands := s.hands[h := Pushing(s.out[i], push.seqno)])
  }

  function CloseTakeStep(s: State, h: nat, p: nat): State
    requires HasHand(s, h)
  {
    var i := IndexOfPuller(s.out, p);
    if i == |s.out| then s
    else s.(out := RemoveAt(s.out, i), hands := s.hands[h := Closing(s.out[i])])
  }

  // ---------------------------------------------------------------- runs

  predicate Legal(s: State, acts: seq<Action>)
    decreases |acts|
  {
    acts == [] || (Enabled(s, acts[0]) && Legal(Apply(s, acts[0]), acts[1..]))
  }

  function Run(s: State, acts: seq<Action>): State
    requires Legal(s, acts)
    decreases |acts|
  {
    if acts == [] then s else Run(Apply(s, acts[0]), acts[1..])
  }

  lemma {:induction false} RunConcat(s: State, xs: seq<Action>, ys: seq<Action>)
    requires Legal(s, xs) && Legal(Run(s, xs), ys)
    ensures Legal(s, xs + ys) && Run(s, xs + ys) == Run(Run(s, xs), ys)
    decreases |xs|
  {
    if xs == [] {
      assert xs + ys == ys;
    } else {
      assert (xs + ys)[0] == xs[0] && (xs + ys)[1..] == xs[1..] + ys;
      RunConcat(Apply(s, xs[0]), xs[1..], ys);
    }
  }
}
