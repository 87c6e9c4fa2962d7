/** The daemon's request handling as it is written (server/djb.c): three lists changed in place
    by searching, removing and appending. Every method is tied to the exchange's steps: `model`
    is the state of the transition system, and a method's effect on it is the sequence of
    actions that the method performs when no other thread runs in between. */
module Daemon {
  import opened Collections
  import opened SeqNo
  import opened Exchange

  /** A djb_req_t. The puller it is paired with is overwritten each time it is forwarded. */
  class Request {
    const key: Key
    const callback: Callback
    var phcl: nat

    constructor (key: Key, callback: Callback)
      ensures this.key == key && this.callback == callback && phcl == 0
    {
      this.key, this.callback, phcl := key, callback, 0;
    }

    ghost function View(): Req
      reads this
    {
      Req(key, callback, phcl)
    }
  }

  ghost function Views(rs: seq<Request>): (vs: seq<Req>)
    reads rs
    ensures |vs| == |rs| && forall i :: 0 <= i < |rs| ==> vs[i] == rs[i].View()
  {
    seq(|rs|, i requires 0 <= i < |rs| reads rs => rs[i].View())
  }

  lemma ViewsRemove(rs: seq<Request>, i: nat)
    requires i < |rs|
    ensures Views(RemoveAt(rs, i)) == RemoveAt(Views(rs), i) && Views(rs)[i] == rs[i].View()
  {
  }

  class Djb {
    var lstProxyNew: seq<Request>
    var lstProxyOut: seq<Request>
    var lstApiPull: seq<nat>

    /* The exit hostname is looked up once, for the first proxied request. */
    var gotHostname: bool
    var exitHostname: Option<string>

    ghost var model: State

    ghost predicate Valid()
      reads this, lstProxyNew, lstProxyOut
    {
      && Views(lstProxyNew) == model.waiting
      && Views(lstProxyOut) == model.out
      && lstApiPull == model.pulls
      && Separate(lstProxyNew, lstProxyOut)
      && (!gotHostname ==> exitHostname == None)
    }

    /** `pr` is in somebody's hand, on none of the lists. */
    ghost predicate Unlisted(pr: Request)
      reads this
    {
      pr !in lstProxyNew && pr !in lstProxyOut
    }

    constructor (workers: nat, hands: nat)
      ensures Valid() && model == Init(workers, hands) && !gotHostname
    {
      lstProxyNew, lstProxyOut, lstApiPull := [], [], [];
      gotHostname, exitHostname := false, None;
      model := Init(workers, hands);
    }

    // -------------------------------------------------------------- enqueuing

    method ProxyAdd(key: Key, callback: Callback, memory: bool) returns (ok: bool)
      requires Valid() && Enabled(model, Accept(key, callback))
      modifies this`lstProxyNew, this`model
      ensures Valid() && ok == memory
      ensures model == if memory then Apply(old(model), Accept(key, callback)) else old(model)
      ensures Views(lstProxyNew) == old(Views(lstProxyNew)) + if memory then [Req(key, callback, 0)] else []
    {
      if !memory {
        return false;
      }
      var pr := new Request(key, callback);
      AddNew(pr);
      model := Apply(model, Accept(key, callback));
      return true;
    }

    method AddNew(pr: Request)
      requires Unlisted(pr) && Separate(lstProxyNew, lstProxyOut)
      modifies this`lstProxyNew
      ensures lstProxyNew == old(lstProxyNew) + [pr] && Separate(lstProxyNew, lstProxyOut)
      ensures Views(lstProxyNew) == old(Views(lstProxyNew)) + [pr.View()]
    {
      AppendSeparate(lstProxyNew, lstProxyOut, pr);
      lstProxyNew := lstProxyNew + [pr];
    }

    method AddOut(pr: Request)
      requires Unlisted(pr) && Separate(lstProxyNew, lstProxyOut)
      modifies this`lstProxyOut
      ensures lstProxyOut == old(lstProxyOut) + [pr] && Separate(lstProxyNew, lstProxyOut)
      ensures Views(lstProxyOut) == old(Views(lstProxyOut)) + [pr.View()]
    {
      AppendSeparate(lstProxyOut, lstProxyNew, pr);
      lstProxyOut := lstProxyOut + [pr];
    }

    method PullPost(puller: nat, memory: bool)
      requires Valid() && Enabled(model, Pull(puller))
      modifies this`lstApiPull, this`model
      ensures Valid()
      ensures model == if memory then Apply(old(model), Pull(puller)) else old(model)
      ensures lstApiPull == old(lstApiPull) + if memory then [puller] else []
    {
      if !memory {
        return;
      }
      lstApiPull := lstApiPull + [puller];
      model := Apply(model, Pull(puller));
    }

    /** The first request fixes the override for good: a forced hostname, else the preference. */
    method HandleProxy(hostname: string, forced: Option<string>, preference: Option<string>) returns (host: string)
      requires Valid()
      modifies this`gotHostname, this`exitHostname
      ensures Valid() && gotHostname
      ensures exitHostname == if old(gotHostname) then old(exitHostname)
                              else if forced.Some? then forced else preference
      ensures host == if exitHostname.Some? then exitHostname.value else hostname
    {
      if !gotHostname {
        gotHostname := true;
        var h := forced;
        if h == None {
          h := preference;
        }
        exitHostname := h;
      }
      host := hostname;
      if exitHostname.Some? {
        host := exitHostname.value;
      }
    }

    // -------------------------------------------------------------- search and remove

    method FindReq(k: Key) returns (pr: Request?)
      modifies this`lstProxyOut
      ensures var i := IndexOfKey(old(Views(lstProxyOut)), k);
              if i < |old(lstProxyOut)|
              then pr == old(lstProxyOut)[i] && lstProxyOut == RemoveAt(old(lstProxyOut), i)
              else pr == null && lstProxyOut == old(lstProxyOut)
    {
      pr := null;
      ghost var vs := Views(lstProxyOut);
      for i := 0 to |lstProxyOut|
        invariant lstProxyOut == old(lstProxyOut) && pr == null
        invariant forall j :: 0 <= j < i ==> lstProxyOut[j].key != k
      {
        var r := lstProxyOut[i];
        assert vs[i].key == r.key;
        if r.key == k {
          FirstKey(vs, k, i);
          pr := r;
          lstProxyOut := RemoveAt(lstProxyOut, i);
          break;
        }
      }
      if pr == null {
        assert forall j :: 0 <= j < |vs| ==> vs[j].key != k;
      }
    }

    method FindReqDh(push: Push) returns (pr: Request?, status: nat)
      modifies this`lstProxyOut
      ensures match Find(old(Views(lstProxyOut)), push)
              case Refused(code) => pr == null && status == code && lstProxyOut == old(lstProxyOut)
              case Found(i) => pr == old(lstProxyOut)[i] && lstProxyOut == RemoveAt(old(lstProxyOut), i)
    {
      if push.httpcode == "" {
        return null, 504;
      }
      if push.httptext == "" {
        return null, 504;
      }
      var key := ParseSeqNo(push.seqno);
      if key == None {
        return null, 504;
      }
      pr := FindReq(key.value);
      status := if pr == null then 404 else 200;
    }

    method FindPhcl(p: nat) returns (pr: Request?)
      modifies this`lstProxyOut
      ensures var i := IndexOfPuller(old(Views(lstProxyOut)), p);
              if i < |old(lstProxyOut)|
              then pr == old(lstProxyOut)[i] && lstProxyOut == RemoveAt(old(lstProxyOut), i)
              else pr == null && lstProxyOut == old(lstProxyOut)
    {
      pr := null;
      ghost var vs := Views(lstProxyOut);
      for i := 0 to |lstProxyOut|
        invariant lstProxyOut == old(lstProxyOut) && pr == null
        invariant forall j :: 0 <= j < i ==> vs[j].phcl != p
      {
        var r := lstProxyOut[i];
        if r.phcl == p {
          FirstPuller(vs, p, i);
          pr := r;
          lstProxyOut := RemoveAt(lstProxyOut, i);
          break;
        }
      }
    }

    // -------------------------------------------------------------- pushes and closes

    /** The first locked operation of a push. */
    method TakeForPush(ghost h: nat, push: Push) returns (pr: Request?)
      requires Valid() && Enabled(model, PushTake(h, push))
      modifies this`lstProxyOut, this`model
      ensures Valid() && model == Apply(old(model), PushTake(h, push))
      ensures pr == null <==> Find(old(model).out, push).Refused?
      ensures pr != null ==> Unlisted(pr) && model.hands[h] == Pushing(pr.View(), push.seqno)
                             && pr.View() == Target(old(model), push)
    {
      ghost var before := lstProxyOut;
      ghost var l := Find(model.out, push);
      var status;
      pr, status := FindReqDh(push);
      assert pr == null <==> l.Refused?;
      TakenByPush(model, h, push);
      if pr != null {
        RemoveSeparate(lstProxyNew, before, l.index);
        ViewsRemove(before, l.index);
      }
      model := Apply(model, PushTake(h, push));
    }

    /** The rest of a push whose record is in hand. `callbackDone` is what the request's own
        callback returns, `connected` whether its client's connection is still valid, `hasBody`
        whether the push has a body to forward. */
    method FinishPush(ghost h: nat, pr: Request, callbackDone: bool, connected: bool, hasBody: bool)
      returns (done: bool)
      requires Valid() && Unlisted(pr)
      requires h < |model.hands| && model.hands[h].Pushing? && model.hands[h].r == pr.View()
      modifies this`lstProxyOut, this`model
      ensures Valid() && model == FinishAlone(old(model), h, callbackDone, connected)
      ensures done == if pr.callback != NoCallback then callbackDone else !connected || hasBody
    {
      if pr.callback != NoCallback {
        if !callbackDone {
          AddOut(pr);
          model := Apply(model, PushPutBack(h));
          return false;
        }
        model := Apply(model, PushDone(h, true));
        return true;
      }
      if !connected {
        model := Apply(model, PushDone(h, false));
        return true;
      }
      model := Apply(model, PushDone(h, true));
      return hasBody;
    }

    method Push(ghost h: nat, push: Push, callbackDone: bool, connected: bool, hasBody: bool) returns (done: bool)
      requires Valid() && Enabled(model, PushTake(h, push))
      modifies this`lstProxyOut, this`model
      ensures Valid()
      ensures model == PushAlone(old(model), h, push, callbackDone, connected)
      ensures done == (Find(old(model).out, push).Refused?
                       || if Target(old(model), push).callback != NoCallback then callbackDone
                          else !connected || hasBody)
    {
      var pr := TakeForPush(h, push);
      if pr == null {
        return true;
      }
      done := FinishPush(h, pr, callbackDone, connected, hasBody);
    }

    /** The first locked operation of a close. */
    method TakeForClose(ghost h: nat, p: nat) returns (pr: Request?)
      requires Valid() && Enabled(model, CloseTake(h, p))
      modifies this`lstProxyOut, this`model
      ensures Valid() && model == Apply(old(model), CloseTake(h, p))
      ensures pr == null <==> model.hands[h].Free?
      ensures pr != null ==> Unlisted(pr) && model.hands[h] == Closing(pr.View())
    {
      ghost var before, i := lstProxyOut, IndexOfPuller(model.out, p);
      pr := FindPhcl(p);
      if pr != null {
        RemoveSeparate(lstProxyNew, before, i);
        ViewsRemove(before, i);
      }
      model := Apply(model, CloseTake(h, p));
    }

    method Close(ghost h: nat, p: nat)
      requires Valid() && Enabled(model, CloseTake(h, p))
      modifies this`lstProxyOut, this`lstProxyNew, this`model
      ensures Valid()
      ensures model == CloseAlone(old(model), h, p)
    {
      var pr := TakeForClose(h, p);
      if pr != null {
        AddNew(pr);
        model := Apply(model, ClosePut(h));
      }
    }

    // -------------------------------------------------------------- workers

    /** `valid` says whether the puller's connection is still open. */
    method HandleForward(ghost w: nat, pr: Request, puller: nat, valid: bool)
      requires Valid() && Unlisted(pr)
      requires w < |model.workers| && model.workers[w].Forwarding?
      requires model.workers[w].r == pr.View() && model.workers[w].puller == puller
      modifies this`lstProxyOut, this`model, pr`phcl
      ensures Valid()
      ensures model == if valid then Apply(Apply(old(model), Publish(w)), Release(w))
                       else Apply(old(model), Drop(w))
      ensures Views(lstProxyOut) == old(Views(lstProxyOut)) + if valid then [Req(pr.key, pr.callback, puller)] else []
    {
      ghost var vs, news := Views(lstProxyOut), Views(lstProxyNew);
      if !valid {
        model := Apply(model, Drop(w));
        return;
      }
      pr.phcl := puller;
      assert Views(lstProxyOut) == vs && Views(lstProxyNew) == news;
      AddOut(pr);
      model := Apply(model, Publish(w));
      model := Apply(model, Release(w));
    }

    /** The two list operations of a worker's round; each waits until its list has an entry. */
    method GetNextProxy(ghost w: nat) returns (pr: Request)
      requires Valid() && Enabled(model, Dequeue(w))
      modifies this`lstProxyNew, this`model
      ensures Valid() && model == Apply(old(model), Dequeue(w)) && lstProxyNew == old(lstProxyNew)[1..]
      ensures Unlisted(pr) && pr == old(lstProxyNew)[0] && model.workers[w].r == pr.View()
    {
      HeadTaken(lstProxyNew, lstProxyOut);
      DequeueEffect(model, w);
      pr := lstProxyNew[0];
      lstProxyNew := lstProxyNew[1..];
      model := Apply(model, Dequeue(w));
    }

    method GetNextPull(ghost w: nat) returns (puller: nat)
      requires Valid() && Enabled(model, Pair(w))
      modifies this`lstApiPull, this`model
      ensures Valid() && model == Apply(old(model), Pair(w)) && puller == model.workers[w].puller
      ensures old(lstApiPull) == [puller] + lstApiPull
    {
      puller := lstApiPull[0];
      lstApiPull := lstApiPull[1..];
      model := Apply(model, Pair(w));
    }

    /** One round of the worker's loop. Without a pull it ends holding its request, or gives it up
        when the wait for a pull is ended by a shutdown. */
    method WorkerRound(ghost w: nat, broken: set<nat>, shutdown: bool) returns (served: bool)
      requires Valid() && Enabled(model, Dequeue(w))
      modifies this`lstProxyNew, this`lstProxyOut, this`lstApiPull, this`model, lstProxyNew
      ensures Valid() && lstProxyNew == old(lstProxyNew)[1..]
      ensures served <==> old(model).pulls != []
      ensures model == if served then Served(old(model), w, broken) else Unserved(old(model), w, shutdown)
    {
      var pr := GetNextProxy(w);
      if lstApiPull == [] {
        if shutdown {
          model := Apply(model, GiveUp(w));
        }
        return false;
      }
      var puller := GetNextPull(w);
      HandleForward(w, pr, puller, puller !in broken);
      return true;
    }

    /** A worker that is alone runs until one of its list operations would wait. The connections of
        `broken` are invalid. With `rounds` the daemon stops after that many rounds: the worker then
        leaves at the head of its loop, or when it would wait. */
    method WorkerThread(ghost w: nat, broken: set<nat>, rounds: Option<nat>)
      requires Valid() && w < |model.workers| && model.workers[w].Idle?
      modifies this`lstProxyNew, this`lstProxyOut, this`lstApiPull, this`model, lstProxyNew
      ensures Valid() && model == WorkerAlone(old(model), w, broken, rounds)
    {
      ghost var start, had := model, lstProxyNew;
      var left := rounds;
      while left != Some(0) && lstProxyNew != []
        invariant Valid() && w < |model.workers| && model.workers[w].Idle?
        invariant forall i :: 0 <= i < |lstProxyNew| ==> lstProxyNew[i] in had
        invariant WorkerAlone(model, w, broken, left) == WorkerAlone(start, w, broken, rounds)
        invariant left.Some? <==> rounds.Some?
        decreases |lstProxyNew|
      {
        RoundEffect(model, w, broken);
        var served := WorkerRound(w, broken, rounds.Some?);
        if !served {
          return;
        }
        left := Fewer(left);
      }
      if rounds.Some? {
        model := Apply(model, Retire(w));
      }
    }
  }

  /** A worker's actions for one request that gets a puller, whose connection may be broken. */
  function Served(s: State, w: nat, broken: set<nat>): State
    requires Enabled(s, Dequeue(w)) && s.pulls != []
  {
    var t := Apply(Apply(s, Dequeue(w)), Pair(w));
    if s.pulls[0] in broken then Apply(t, Drop(w)) else Apply(Apply(t, Publish(w)), Release(w))
  }

  /** A worker's actions for one request that gets none. */
  function Unserved(s: State, w: nat, shutdown: bool): State
    requires Enabled(s, Dequeue(w))
  {
    var t := Apply(s, Dequeue(w));
    if shutdown then Apply(t, GiveUp(w)) else t
  }

  function Fewer(rounds: Option<nat>): Option<nat> {
    if rounds.Some? && rounds.value > 0 then Some(rounds.value - 1) else rounds
  }

  /** A worker that runs on its own. */
  function WorkerAlone(s: State, w: nat, broken: set<nat>, rounds: Option<nat>): State
    requires w < |s.workers| && s.workers[w].Idle?
    decreases |s.waiting|
  {
    if rounds == Some(0) || s.waiting == [] then
      if rounds.Some? then Apply(s, Retire(w)) else s
    else if s.pulls == [] then Unserved(s, w, rounds.Some?)
    else
      RoundEffect(s, w, broken);
      WorkerAlone(Served(s, w, broken), w, broken, Fewer(rounds))
  }

  function Lesser(x: nat, y: nat): nat { if x < y then x else y }

  function IsIn(broken: set<nat>): nat -> nat { (p: nat) => if p in broken then 1 else 0 }

  /** What a round does: it takes the first request and the first pull, and publishes the request
      or loses it. */
  lemma RoundEffect(s: State, w: nat, broken: set<nat>)
    requires Enabled(s, Dequeue(w))
    ensures var t := Apply(s, Dequeue(w));
            && t.workers[w].Awaiting? && w < |t.workers|
            && t.out == s.out && t.pulls == s.pulls && t.waiting == s.waiting[1..] && t.hist.lost == s.hist.lost
    ensures s.pulls != [] ==>
              var u, r := Served(s, w, broken), s.waiting[0];
              && w < |u.workers| && u.workers[w].Idle?
              && u.pulls == s.pulls[1..] && u.waiting == s.waiting[1..]
              && (if s.pulls[0] in broken then u.out == s.out && u.hist.lost == s.hist.lost + [r.key]
                  else u.out == s.out + [r.(phcl := s.pulls[0])] && u.hist.lost == s.hist.lost)
  {
  }

  /** How many rounds a worker alone completes. */
  function Rounds(s: State, rounds: Option<nat>): nat {
    var pairs := Lesser(|s.waiting|, |s.pulls|);
    if rounds.Some? then Lesser(pairs, rounds.value) else pairs
  }

  /** It has then a request in hand and no pull for it. */
  predicate EndsHolding(s: State, rounds: Option<nat>) {
    |s.waiting| > |s.pulls| && (rounds.Some? ==> rounds.value > |s.pulls|)
  }

  /** What the worker leaves behind after `k` rounds, `more` saying that it dequeued one request
      more and `dropped` that it lost that one. */
  ghost predicate Leaves(s: State, t: State, broken: set<nat>, k: nat, more: bool, dropped: bool)
    requires k <= |s.pulls| && k + (if more then 1 else 0) <= |s.waiting|
  {
    var bad := Total(s.pulls[..k], IsIn(broken));
    && |t.out| == |s.out| + k - bad
    && |t.hist.lost| == |s.hist.lost| + bad + (if dropped then 1 else 0)
    && t.pulls == s.pulls[k..]
    && t.waiting == s.waiting[if more then k + 1 else k..]
  }

  lemma RoundsLeft(s: State, u: State, rounds: Option<nat>)
    requires rounds != Some(0) && s.waiting != [] && s.pulls != []
    requires u.waiting == s.waiting[1..] && u.pulls == s.pulls[1..]
    ensures Rounds(s, rounds) == Rounds(u, Fewer(rounds)) + 1
    ensures EndsHolding(s, rounds) <==> EndsHolding(u, Fewer(rounds))
  {
  }

  /** One round in front of the others. */
  lemma LeavesAfter(s: State, u: State, t: State, w: nat, broken: set<nat>, k: nat, more: bool, dropped: bool)
    requires Enabled(s, Dequeue(w)) && s.pulls != [] && u == Served(s, w, broken)
    requires k < |s.pulls| && k + 1 + (if more then 1 else 0) <= |s.waiting|
    requires k <= |u.pulls| && k + (if more then 1 else 0) <= |u.waiting| && Leaves(u, t, broken, k, more, dropped)
    ensures Leaves(s, t, broken, k + 1, more, dropped)
  {
    RoundEffect(s, w, broken);
    assert s.pulls[..k + 1][0] == s.pulls[0] && s.pulls[..k + 1][1..] == u.pulls[..k];
  }

  /** A worker that can do no further round. */
  lemma LastRound(s: State, w: nat, broken: set<nat>, rounds: Option<nat>)
    requires w < |s.workers| && s.workers[w].Idle? && (rounds == Some(0) || s.waiting == [] || s.pulls == [])
    ensures var t := WorkerAlone(s, w, broken, rounds);
            && Rounds(s, rounds) == 0
            && Leaves(s, t, broken, 0, EndsHolding(s, rounds), rounds.Some? && EndsHolding(s, rounds))
            && w < |t.workers| && (t.workers[w].Exited? <==> rounds.Some?)
  {
  }

  /** A worker alone gets through as many requests as can be paired before the daemon stops. It
      loses one for every broken connection among the pulls it takes, and one more when a shutdown
      finds it waiting for a pull with a request in hand; it forwards the others. */
  lemma {:induction false} WorkerAlonePairs(s: State, w: nat, broken: set<nat>, rounds: Option<nat>)
    requires w < |s.workers| && s.workers[w].Idle?
    ensures var t := WorkerAlone(s, w, broken, rounds);
            && Leaves(s, t, broken, Rounds(s, rounds), EndsHolding(s, rounds), rounds.Some? && EndsHolding(s, rounds))
            && w < |t.workers| && (t.workers[w].Exited? <==> rounds.Some?)
    decreases |s.waiting|
  {
    if rounds == Some(0) || s.waiting == [] || s.pulls == [] {
      LastRound(s, w, broken, rounds);
    } else {
      var u := Served(s, w, broken);
      var t := WorkerAlone(s, w, broken, rounds);
      var holding := EndsHolding(s, rounds);
      RoundEffect(s, w, broken);
      RoundsLeft(s, u, rounds);
      WorkerAlonePairs(u, w, broken, Fewer(rounds));
      LeavesAfter(s, u, t, w, broken, Rounds(u, Fewer(rounds)), holding, rounds.Some? && holding);
    }
  }

  lemma TakenByPush(s: State, h: nat, push: Push)
    requires Enabled(s, PushTake(h, push))
    ensures var t := Apply(s, PushTake(h, push));
            match Find(s.out, push)
            case Refused(_) => t == s
            case Found(i) => t == s.(out := RemoveAt(s.out, i), hands := s.hands[h := Pushing(s.out[i], push.seqno)])
  {
  }

  /** The head of one of two lists is taken. */
  lemma HeadTaken(xs: seq<Request>, ys: seq<Request>)
    requires Separate(xs, ys) && xs != []
    ensures Separate(xs[1..], ys) && xs[0] !in xs[1..] && xs[0] !in ys
    ensures Views(xs[1..]) == Views(xs)[1..] && Views(xs)[0] == xs[0].View()
  {
    assert xs[1..] == RemoveAt(xs, 0);
    RemoveSeparate(ys, xs, 0);
  }

  lemma DequeueEffect(s: State, w: nat)
    requires Enabled(s, Dequeue(w))
    ensures var t := Apply(s, Dequeue(w));
            && t.waiting == s.waiting[1..] && t.out == s.out && t.pulls == s.pulls
            && w < |t.workers| && t.workers[w].Awaiting? && t.workers[w].r == s.waiting[0]
  {
  }

  /** Two lists of distinct records with none in common. */
  ghost predicate Separate(xs: seq<Request>, ys: seq<Request>) {
    && NoDuplicates(xs) && NoDuplicates(ys)
    && forall i, j :: 0 <= i < |xs| && 0 <= j < |ys| ==> xs[i] != ys[j]
  }

  lemma AppendSeparate(xs: seq<Request>, ys: seq<Request>, r: Request)
    requires Separate(xs, ys) && r !in xs && r !in ys
    ensures Separate(xs + [r], ys) && Separate(ys, xs + [r])
  {
  }

  lemma RemoveSeparate(xs: seq<Request>, ys: seq<Request>, i: nat)
    requires Separate(xs, ys) && i < |ys|
    ensures Separate(xs, RemoveAt(ys, i)) && Separate(RemoveAt(ys, i), xs)
    ensures ys[i] !in xs && ys[i] !in RemoveAt(ys, i)
  {
  }

  lemma {:induction false} FirstKey(rs: seq<Req>, k: Key, i: nat)
    requires i < |rs| && rs[i].key == k && forall j :: 0 <= j < i ==> rs[j].key != k
    ensures IndexOfKey(rs, k) == i
  {
  }

  lemma {:induction false} FirstPuller(rs: seq<Req>, p: nat, i: nat)
    requires i < |rs| && rs[i].phcl == p && forall j :: 0 <= j < i ==> rs[j].phcl != p
    ensures IndexOfPuller(rs, p) == i
  {
  }

  function Target(s: State, push: Push): Req
    requires Find(s.out, push).Found?
  {
    s.out[Find(s.out, push).index]
  }

  /** What is left of a push whose record is in hand, with no other step in between. */
  function FinishAlone(s: State, h: nat, callbackDone: bool, connected: bool): State
    requires h < |s.hands| && s.hands[h].Pushing?
  {
    if s.hands[h].r.callback == NoCallback then Apply(s, PushDone(h, connected))
    else if callbackDone then Apply(s, PushDone(h, true))
    else Apply(s, PushPutBack(h))
  }

  /** A push that runs to its end with no other step in between. */
  function PushAlone(s: State, h: nat, push: Push, callbackDone: bool, connected: bool): State
    requires Enabled(s, PushTake(h, push))
  {
    var t := Apply(s, PushTake(h, push));
    if t.hands[h].Pushing? then FinishAlone(t, h, callbackDone, connected) else t
  }

  /** A push changes nothing when its code or text is missing, its number cannot be read, or nobody
      waits under it. */
  lemma PushAloneRefused(s: State, h: nat, push: Push, callbackDone: bool, connected: bool)
    requires Enabled(s, PushTake(h, push))
    requires push.httpcode == "" || push.httptext == "" || ParseSeqNo(push.seqno) == None
             || forall r :: r in s.out ==> ParseSeqNo(push.seqno) != Some(r.key)
    ensures PushAlone(s, h, push, callbackDone, connected) == s
  {
    TakenByPush(s, h, push);
  }

  lemma FinishAloneMeans(s: State, h: nat, callbackDone: bool, connected: bool)
    requires h < |s.hands| && s.hands[h].Pushing?
    ensures var r := s.hands[h].r;
            FinishAlone(s, h, callbackDone, connected)
            == if r.callback != NoCallback && !callbackDone then s.(out := s.out + [r], hands := s.hands[h := Free])
               else s.(hands := s.hands[h := Free],
                       hist := s.hist.(answers := s.hist.answers
                                                  + [Answer(r.key, s.hands[h].seqno,
                                                            r.callback != NoCallback || connected)]))
  {
  }

  /** Any other takes the first record with its number off the list. One of the daemon's own
      requests whose callback is not done goes back to the end of the list; any other is answered,
      once, and the answer is delivered unless it is a client's request and the client is gone.
      Everybody's hands are as before. */
  lemma PushAloneAnswers(s: State, h: nat, push: Push, i: nat, callbackDone: bool, connected: bool)
    requires Enabled(s, PushTake(h, push)) && push.httpcode != "" && push.httptext != ""
    requires i < |s.out| && ParseSeqNo(push.seqno) == Some(s.out[i].key)
    requires forall j :: 0 <= j < i ==> s.out[j].key != s.out[i].key
    ensures var r, rest := s.out[i], s.out[..i] + s.out[i + 1..];
            PushAlone(s, h, push, callbackDone, connected)
            == if r.callback != NoCallback && !callbackDone then s.(out := rest + [r])
               else s.(out := rest,
                       hist := s.hist.(answers := s.hist.answers
                                                  + [Answer(r.key, push.seqno, r.callback != NoCallback || connected)]))
  {
    FirstKey(s.out, s.out[i].key, i);
    assert Find(s.out, push) == Found(i);
    TakenByPush(s, h, push);
    var t := s.(out := RemoveAt(s.out, i), hands := s.hands[h := Pushing(s.out[i], push.seqno)]);
    FinishAloneMeans(t, h, callbackDone, connected);
    assert t.hands[h := Free] == s.hands;
  }

  /** A close that runs to its end with no other step in between. */
  function CloseAlone(s: State, h: nat, p: nat): State
    requires Enabled(s, CloseTake(h, p))
  {
    var t := Apply(s, CloseTake(h, p));
    if t.hands[h].Free? then t else Apply(t, ClosePut(h))
  }

  /** A close of a puller that no outstanding request was forwarded to moves nothing. */
  lemma CloseAlonePlain(s: State, h: nat, p: nat)
    requires Enabled(s, CloseTake(h, p)) && forall r :: r in s.out ==> r.phcl != p
    ensures CloseAlone(s, h, p) == s.(hist := s.hist.(closed := s.hist.closed + {p}))
  {
  }

  /** Any other moves the first such request to the end of the queue. Everybody's hands are as
      before. */
  lemma CloseAloneReschedules(s: State, h: nat, p: nat, i: nat)
    requires Enabled(s, CloseTake(h, p))
    requires i < |s.out| && s.out[i].phcl == p && forall j :: 0 <= j < i ==> s.out[j].phcl != p
    ensures CloseAlone(s, h, p)
            == s.(out := s.out[..i] + s.out[i + 1..], waiting := s.waiting + [s.out[i]],
                  hist := s.hist.(closed := s.hist.closed + {p}, enqueued := s.hist.enqueued + [s.out[i].key]))
  {
    FirstPuller(s.out, p, i);
    assert s.hands[h := Closing(s.out[i])][h := Free] == s.hands;
  }
}
