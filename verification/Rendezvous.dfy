/** Peeling an onion over requests (server/rendezvous.c). The current onion is peeled layer by
    layer; the proof-of-work layer is peeled by a thread of its own that reads the current onion
    when it starts to run, leaves the inner onion in a variable, and then sets a flag. Requests
    are single steps; the thread's three accesses to shared variables are three steps. What
    foreign code decides (an onion decrypts, a thread starts, a puzzle is solved, a signature
    verifies, a payload parses) is part of the action. */
module Rendezvous {
  import opened Collections

  datatype Onion =
    | Base(net: string)
    | Pow(inner: Onion)
    | Captcha(inner: Onion)
    | Signed(inner: Onion)
    | Bundle

  /** An allocated onion. */
  datatype Obj = Obj(id: nat, onion: Onion)

  datatype Worker = Spawned | Computing(obj: Obj) | Delivered | Ended

  /** A NET handed to ACS, and the onion that had been accepted then. */
  datatype Given = Given(net: string, accepted: Onion)

  datatype History = History(
    next: nat,              // the next allocation
    accepted: Onion,        // the onion of the last accepted image
    peels: nat,             // successful peels since then
    freed: seq<nat>,
    leaked: seq<nat>,
    afterFree: seq<nat>,    // onions read when they had been freed
    shown: seq<nat>,        // captcha onions whose image was written
    nets: seq<Given>)

  /** `image` says that the directory of the current image is set; `captcha` is the onion whose
      puzzle the captcha file shows. */
  datatype State = State(
    current: Option<Obj>,
    image: bool,
    captcha: Option<nat>,
    started: bool,
    finished: bool,
    inner: Option<Obj>,
    workers: seq<Worker>,
    hist: History)

  datatype Action =
    | Image(extracted: Option<Onion>)
    | Reset
    | Peel(ok: bool)
    | Begin(w: nat)
    | Deliver(w: nat, found: bool)
    | Finish(w: nat)

  function Init(): State {
    State(None, false, None, false, false, None, [], History(0, Bundle, 0, [], [], [], [], []))
  }

  predicate Enabled(s: State, a: Action) {
    match a
    case Image(_) => true
    case Reset => true
    // the directory is asserted to be set before a captcha file is made
    case Peel(_) => s.current.Some? && s.current.value.onion.Captcha? && s.captcha == None ==> s.image
    // the thread reads the current onion: there has to be one, with an inner layer
    case Begin(w) => w < |s.workers| && s.workers[w].Spawned? && s.current.Some? && s.current.value.onion.Pow?
    case Deliver(w, _) => w < |s.workers| && s.workers[w].Computing? && s.workers[w].obj.onion.Pow?
    case Finish(w) => w < |s.workers| && s.workers[w].Delivered?
  }

  // ---------------------------------------------------------------- steps

  function Free(s: State, o: Option<Obj>): State {
    if o.Some? then s.(hist := s.hist.(freed := s.hist.freed + [o.value.id])) else s
  }

  function Leak(s: State, o: Option<Obj>): State {
    if o.Some? then s.(hist := s.hist.(leaked := s.hist.leaked + [o.value.id])) else s
  }

  /** A new onion becomes the current one; what was there before is simply overwritten. */
  function Install(s: State, o: Onion): State {
    var t := Leak(s, s.current);
    t.(current := Some(Obj(t.hist.next, o)), image := true,
       hist := t.hist.(next := t.hist.next + 1, accepted := o, peels := 0))
  }

  function ResetPow(s: State): State {
    if s.started then Free(s, s.inner).(inner := None, started := false, finished := false) else s
  }

  function ResetAll(s: State): State {
    ResetPow(Free(s, s.current).(current := None, captcha := None, image := false))
  }

  /** The current onion is freed and an inner one takes its place. */
  function Replace(s: State, o: Obj): State {
    var t := Free(s, s.current);
    t.(current := Some(o), hist := t.hist.(peels := t.hist.peels + 1))
  }

  /** The inner layer comes as a new object. */
  function PeelInPlace(s: State, inner: Onion): State {
    Replace(s.(hist := s.hist.(next := s.hist.next + 1)), Obj(s.hist.next, inner))
  }

  function PeelPow(s: State, ok: bool): State {
    if !s.started then
      if ok then s.(started := true, workers := s.workers + [Spawned]) else s
    else if !s.finished || s.inner == None then s
    else ResetPow(Replace(s, s.inner.value).(inner := None))
  }

  function PeelCaptcha(s: State, o: Obj, ok: bool): State
    requires o.onion.Captcha?
  {
    if s.captcha == None then
      if ok then s.(captcha := Some(o.id), hist := s.hist.(shown := s.hist.shown + [o.id])) else s
    else if ok then PeelInPlace(s, o.onion.inner) else s
  }

  function PeelCurrent(s: State, ok: bool): State {
    if s.current == None then s
    else
      var o := s.current.value;
      match o.onion
      case Base(net) =>
        if ok then s.(hist := s.hist.(nets := s.hist.nets + [Given(net, s.hist.accepted)])) else s
      case Pow(_) => PeelPow(s, ok)
      case Captcha(_) => PeelCaptcha(s, o, ok)
      case Signed(inner) => if ok then PeelInPlace(s, inner) else s
      case Bundle => s
  }

  /** Memory of an onion is read. */
  function Touch(s: State, id: nat): State {
    if id in s.hist.freed then s.(hist := s.hist.(afterFree := s.hist.afterFree + [id])) else s
  }

  /** A new inner onion, or none, goes into the variable. */
  function PutInner(s: State, o: Option<Onion>): State {
    if o == None then s.(inner := None)
    else s.(inner := Some(Obj(s.hist.next, o.value)), hist := s.hist.(next := s.hist.next + 1))
  }

  /** The worker's result overwrites what was in the variable before. */
  function DeliverInner(s: State, w: nat, found: bool): State
    requires Enabled(s, Deliver(w, found))
  {
    var o := s.workers[w].obj;
    PutInner(Leak(Touch(s, o.id), s.inner), if found then Some(o.onion.inner) else None)
      .(workers := s.workers[w := Delivered])
  }

  function Apply(s: State, a: Action): State
    requires Enabled(s, a)
  {
    match a
    case Image(extracted) => if extracted.Some? then Install(s, extracted.value) else s
    case Reset => ResetAll(s)
    case Peel(ok) => PeelCurrent(s, ok)
    case Begin(w) => s.(workers := s.workers[w := Computing(s.current.value)])
    case Deliver(w, found) => DeliverInner(s, w, found)
    case Finish(w) => s.(finished := true, workers := s.workers[w := Ended])
  }

  // ---------------------------------------------------------------- runs

  predicate Legal(s: State, acts: seq<Action>)
    decreases |acts|
  {
    acts == [] || (Enabled(s, acts[0]) && Legal(Apply(s, acts[0]), acts[1..]))
  }

  function Run(s: State, acts: seq<Action>): State
    requires Legal(s, acts)
    decreases |acts|
  {
    if acts == [] then s else Run(Apply(s, acts[0]), acts[1..])
  }

  lemma {:induction false} RunConcat(s: State, xs: seq<Action>, ys: seq<Action>)
    requires Legal(s, xs) && Legal(Run(s, xs), ys)
    ensures Legal(s, xs + ys) && Run(s, xs + ys) == Run(Run(s, xs), ys)
    decreases |xs|
  {
    if xs == [] {
      assert xs + ys == ys;
    } else {
      assert (xs + ys)[0] == xs[0] && (xs + ys)[1..] == xs[1..] + ys;
      RunConcat(Apply(s, xs[0]), xs[1..], ys);
    }
  }

  lemma RunCons(s: State, a: Action, rest: seq<Action>)
    requires Enabled(s, a) && Legal(Apply(s, a), rest)
    ensures Legal(s, [a] + rest) && Run(s, [a] + rest) == Run(Apply(s, a), rest)
  {
    assert ([a] + rest)[1..] == rest;
  }

  // ---------------------------------------------------------------- layers

  /** How many layers there are around the innermost one. */
  function Depth(o: Onion): nat {
    if o.Base? || o.Bundle? then 0 else 1 + Depth(o.inner)
  }

  /** What is left after a number of peels. */
  function Descend(o: Onion, n: nat): Option<Onion> {
    if n == 0 then Some(o)
    else if o.Base? || o.Bundle? then None
    else Descend(o.inner, n - 1)
  }

  function Innermost(o: Onion): Onion {
    if o.Base? || o.Bundle? then o else Innermost(o.inner)
  }

  lemma {:induction false} DescendNext(o: Onion, n: nat, p: Onion)
    requires Descend(o, n) == Some(p)
    ensures Depth(o) == n + Depth(p) && Innermost(o) == Innermost(p)
    ensures !p.Base? && !p.Bundle? ==> Descend(o, n + 1) == Some(p.inner)
  {
    if n > 0 {
      DescendNext(o.inner, n - 1, p);
    }
  }
}
