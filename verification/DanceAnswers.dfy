/** Which answers a dance goes on from: those of pushes that gave the code 200 for the daemon's own
    request of that phase, and no others. */
module DanceAnswers {
  import opened Collections
  import opened SeqNo
  import Decimal
  import X = Exchange
  import opened Dance
  import opened DanceSafety
  import opened DancePhases

  // ---------------------------------------------------------------- one answer

  /** The push names an outstanding request that the daemon made in this phase. */
  ghost predicate Names(x: X.State, push: X.Push, ph: Phase) {
    exists i :: && 0 <= i < |x.out| && ParseSeqNo(push.seqno) == Some(x.out[i].key)
                && x.out[i].callback == if ph == Initial then X.InitialAnswer else X.RedirectAnswer
  }

  /** The callback sees the push: its number is that of the callback's request, and its code and text
      are the push's. */
  lemma CallbackSees(s: State, t: nat, push: X.Push)
    requires Enabled(s, TakeAnswer(t, push))
    ensures var s' := Apply(s, TakeAnswer(t, push));
            && s'.pcs == s.pcs[t := s'.pcs[t]] && s'.pcs[t].Answered?
            && Names(s.x, push, s'.pcs[t].ph)
            && s'.pcs[t].code == Decimal.Atoi(push.httpcode) && s'.pcs[t].text == push.httptext
            && s'.log == s.log && s'.sh == s.sh && s'.running == s.running
  {
    var i := X.Find(s.x.out, push).index;
    assert ParseSeqNo(push.seqno) == Some(s.x.out[i].key);
  }

  lemma AnsweredStep(s: State, t: nat, c: Choice)
    requires t < |s.pcs| && s.pcs[t].Answered?
    ensures Enabled(s, Step(t, c))
    ensures var s', ph := Apply(s, Step(t, c)), s.pcs[t].ph;
            if s.pcs[t].code != 200 then
              && s'.log == s.log && s'.pcs[t] == Leave(false) && s'.sh.current.status == Err
              && (c.fits ==> s'.sh.current.text == AnswerFailed(ph, s.pcs[t].code, s.pcs[t].text))
            else if ph == Initial then s'.log == s.log + [Answer200(Initial)] && s'.pcs[t] == CheckRunning
            else if c.body.Decoded? then
              s'.log == s.log + [Answer200(Redirect)] && s'.pcs[t] == Parse(c.body.parses)
            else && s'.log == s.log
                 && if c.body == Unread then s'.pcs[t] == PutBack && s'.sh == s.sh
                    else s'.pcs[t] == Leave(false) && s'.sh.current.status == Err
  {
  }

  /** A push with any printed code but 200 ends the dance with an error: its callback logs nothing
      and is about to sit down. */
  lemma FailedAnswerLeaves(s: State, t: nat, push: X.Push, n: nat, c: Choice)
    requires Enabled(s, TakeAnswer(t, push)) && push.httpcode == Decimal.Print(n) && n != 200
    ensures var s1 := Apply(s, TakeAnswer(t, push));
            && Enabled(s1, Step(t, c)) && s1.pcs[t].Answered? && Names(s.x, push, s1.pcs[t].ph)
            && var s2 := Apply(s1, Step(t, c));
               && s2.log == s.log && s2.pcs[t] == Leave(false) && s2.sh.current.status == Err
               && (c.fits ==> s2.sh.current.text == AnswerFailed(s1.pcs[t].ph, n, push.httptext))
  {
    Decimal.AtoiOfPrint(n);
    CallbackSees(s, t, push);
    AnsweredStep(Apply(s, TakeAnswer(t, push)), t, c);
  }

  /** A push with the printed code 200 is an answer to the phase of the request it names; that of the
      redirect gateway has to bring a body that can be decoded. */
  lemma GoodAnswerCounts(s: State, t: nat, push: X.Push, c: Choice)
    requires Enabled(s, TakeAnswer(t, push)) && push.httpcode == Decimal.Print(200)
    ensures var s1 := Apply(s, TakeAnswer(t, push));
            && Enabled(s1, Step(t, c)) && s1.pcs[t].Answered? && Names(s.x, push, s1.pcs[t].ph)
            && var ph, s2 := s1.pcs[t].ph, Apply(s1, Step(t, c));
               if ph == Initial || c.body.Decoded? then s2.log == s.log + [Answer200(ph)] else s2.log == s.log
  {
    Decimal.AtoiOfPrint(200);
    CallbackSees(s, t, push);
    AnsweredStep(Apply(s, TakeAnswer(t, push)), t, c);
  }

  // ---------------------------------------------------------------- what a step logs

  lemma NextAnswers(pc: Pc, c: Choice, running: bool, net: Option<Net>)
    requires Stepping(pc, net)
    ensures var e := Next(pc, c, running, net);
            && !e.pc.Answered?
            && (e.event.Some? && e.event.value.Answer200? ==>
                  pc.Answered? && pc.code == 200 && e.event == Some(Answer200(pc.ph)))
  {
  }

  lemma StepLogs(s: State, a: Action)
    requires Enabled(s, a)
    ensures var s' := Apply(s, a);
            && s.log <= s'.log && |s'.log| <= |s.log| + 1
            && (|s'.log| > |s.log| && s'.log[|s.log|].Answer200? ==>
                  && a.Step? && s.pcs[a.t].Answered? && s.pcs[a.t].code == 200
                  && s'.log[|s.log|] == Answer200(s.pcs[a.t].ph))
  {
    if a.Step? {
      NextAnswers(s.pcs[a.t], a.c, s.running, s.sh.net);
    }
  }

  /** Only taking an answer leads to where a callback starts, and while one is there nobody logs
      anything. */
  lemma AnsweredStays(s: State, a: Action, t: nat)
    requires Enabled(s, a) && OnCourse(s) && t < |s.pcs|
    requires Apply(s, a).pcs[t].Answered? && !(a.TakeAnswer? && a.t == t)
    ensures Apply(s, a).pcs[t] == s.pcs[t] && Apply(s, a).log == s.log
  {
    if a.Step? {
      StepKeepsAnswered(s, a.t, a.c, t);
    } else if a.TakeAnswer? {
      CallbackSees(s, a.t, a.push);
    } else {
      OthersStay(s, a, t);
      TokenMeansDancing(s, t);
      OthersLogNothing(s, a);
    }
  }

  /** One thread moves, to a place where no callback starts; the others stay. */
  ghost predicate Moves(s: State, s': State, u: nat) {
    u < |s.pcs| == |s'.pcs| && !s'.pcs[u].Answered? && s'.pcs == s.pcs[u := s'.pcs[u]]
  }

  lemma PollMoves(s: State, u: nat)
    requires Enabled(s, Poll(u))
    ensures Moves(s, ApplyPoll(s, u), u)
  {
  }

  lemma AsideMoves(s: State, a: Action)
    requires Enabled(s, a) && Locked(s) && SteppingAside(a)
    ensures Moves(s, Apply(s, a), a.t)
  {
    StepsAside(s, a);
  }

  lemma OthersStay(s: State, a: Action, t: nat)
    requires Enabled(s, a) && Locked(s) && !a.Step? && !a.TakeAnswer? && t < |s.pcs|
    ensures |Apply(s, a).pcs| == |s.pcs| && (Apply(s, a).pcs[t].Answered? ==> Apply(s, a).pcs[t] == s.pcs[t])
  {
    if SteppingAside(a) {
      AsideMoves(s, a);
    } else if a.Poll? {
      PollMoves(s, a.t);
    }
  }

  lemma OthersLogNothing(s: State, a: Action)
    requires Enabled(s, a) && OnCourse(s) && !a.Step? && !a.TakeAnswer? && s.sh.dancing
    ensures Apply(s, a).log == s.log
  {
    if a.SetNet? {
      SetNetLogs(s, a.t, a.net);
    } else if a.NetStep? {
      NetStepLogs(s, a.t, a.c);
    }
  }

  lemma StepKeepsAnswered(s: State, u: nat, c: Choice, t: nat)
    requires Enabled(s, Step(u, c)) && OnCourse(s) && t < |s.pcs| && Apply(s, Step(u, c)).pcs[t].Answered?
    ensures Apply(s, Step(u, c)).pcs[t] == s.pcs[t] && Apply(s, Step(u, c)).log == s.log
  {
    NextAnswers(s.pcs[u], c, s.running, s.sh.net);
    assert u != t && s.pcs[t].Answered?;
    TokenMeansDancing(s, t);
    IdleNext(s.pcs[u], c, s.running, s.sh.net);
  }

  // ---------------------------------------------------------------- over runs

  lemma {:induction false} LegalSplit(s: State, acts: seq<Action>, k: nat)
    requires Legal(s, acts) && k <= |acts|
    ensures Legal(s, acts[..k]) && Legal(Run(s, acts[..k]), acts[k..])
    ensures Run(Run(s, acts[..k]), acts[k..]) == Run(s, acts)
    decreases k
  {
    if k == 0 {
      assert acts[..0] == [] && acts[0..] == acts;
    } else {
      assert acts[..k][0] == acts[0] && acts[..k][1..] == acts[1..][..k - 1] && acts[1..][k - 1..] == acts[k..];
      LegalSplit(Apply(s, acts[0]), acts[1..], k - 1);
    }
  }

  /** The last step of a run. */
  lemma LastStep(s: State, acts: seq<Action>)
    requires Legal(s, acts) && acts != []
    ensures var last := |acts| - 1;
            && Legal(s, acts[..last]) && Enabled(Run(s, acts[..last]), acts[last])
            && Run(s, acts) == Apply(Run(s, acts[..last]), acts[last])
  {
    var last := |acts| - 1;
    LegalSplit(s, acts, last);
    assert acts[last..][0] == acts[last] && acts[last..][1..] == [];
  }

  /** Step `k` of the run takes a push with this code for the daemon's request of this phase, when
      just this had been logged. */
  ghost predicate Took(s0: State, acts: seq<Action>, k: nat, ph: Phase, code: int, log: seq<Event>) {
    && k < |acts| && acts[k].TakeAnswer? && Decimal.Atoi(acts[k].push.httpcode) == code
    && Legal(s0, acts[..k])
    && var s := Run(s0, acts[..k]);
       s.log == log && Names(s.x, acts[k].push, ph)
  }

  lemma TookLater(s0: State, acts: seq<Action>, n: nat, k: nat, ph: Phase, code: int, log: seq<Event>)
    requires n <= |acts| && Took(s0, acts[..n], k, ph, code, log)
    ensures Took(s0, acts, k, ph, code, log)
  {
    assert acts[..n][..k] == acts[..k] && acts[..n][k] == acts[k];
  }

  lemma {:induction false} AnsweredWasTaken(n: nat, m: nat, acts: seq<Action>, t: nat)
    requires Legal(Init(n, m), acts) && t < |Run(Init(n, m), acts).pcs| && Run(Init(n, m), acts).pcs[t].Answered?
    ensures var s := Run(Init(n, m), acts);
            exists k: nat :: Took(Init(n, m), acts, k, s.pcs[t].ph, s.pcs[t].code, s.log)
    decreases |acts|
  {
    var s0 := Init(n, m);
    if acts != [] {
      LastStep(s0, acts);
      var last := |acts| - 1;
      var s, a := Run(s0, acts[..last]), acts[last];
      InitOnCourse(n, m);
      RunOnCourse(s0, acts[..last]);
      if a.TakeAnswer? && a.t == t {
        CallbackSees(s, t, a.push);
        assert Took(s0, acts, last, Apply(s, a).pcs[t].ph, Apply(s, a).pcs[t].code, s.log);
      } else {
        SameThreads(s, a);
        AnsweredStays(s, a, t);
        AnsweredWasTaken(n, m, acts[..last], t);
        var k: nat :| Took(s0, acts[..last], k, s.pcs[t].ph, s.pcs[t].code, s.log);
        TookLater(s0, acts, last, k, s.pcs[t].ph, s.pcs[t].code, s.log);
      }
    }
  }

  lemma SameThreads(s: State, a: Action)
    requires Enabled(s, a)
    ensures |Apply(s, a).pcs| == |s.pcs|
  {
  }

  ghost predicate A200WasTaken(s0: State, acts: seq<Action>, ph: Phase, log: seq<Event>) {
    exists k: nat :: Took(s0, acts, k, ph, 200, log)
  }

  /** In every run: for each 200 that a dance logged, a push was taken, right before it in the log,
      that gave the code 200 for the daemon's request of that phase. */
  lemma {:induction false} Each200WasPushed(n: nat, m: nat, acts: seq<Action>, i: nat, ph: Phase)
    requires Legal(Init(n, m), acts)
    requires i < |Run(Init(n, m), acts).log| && Run(Init(n, m), acts).log[i] == Answer200(ph)
    ensures A200WasTaken(Init(n, m), acts, ph, Run(Init(n, m), acts).log[..i])
    decreases |acts|
  {
    var s0 := Init(n, m);
    if acts != [] {
      LastStep(s0, acts);
      var last := |acts| - 1;
      var s, a := Run(s0, acts[..last]), acts[last];
      var log := Run(s0, acts).log;
      StepLogs(s, a);
      if i < |s.log| {
        assert s.log[..i] == log[..i];
        Each200WasPushed(n, m, acts[..last], i, ph);
        var k: nat :| Took(s0, acts[..last], k, ph, 200, s.log[..i]);
        TookLater(s0, acts, last, k, ph, 200, s.log[..i]);
      } else {
        assert log[..i] == s.log;
        AnsweredWasTaken(n, m, acts[..last], a.t);
        var k: nat :| Took(s0, acts[..last], k, ph, 200, s.log);
        TookLater(s0, acts, last, k, ph, 200, s.log);
      }
    }
  }

  /** A redirect request was preceded by a push of a 200 for the initial request of the same dance,
      and a completion by one for its redirect request. */
  lemma RedirectNeedsA200(n: nat, m: nat, acts: seq<Action>, i: nat, gw: string)
    requires Legal(Init(n, m), acts)
    requires i < |Run(Init(n, m), acts).log| && Run(Init(n, m), acts).log[i] == Asked(Redirect, gw)
    ensures i >= 2 && A200WasTaken(Init(n, m), acts, Initial, Run(Init(n, m), acts).log[..i - 2])
  {
    RedirectComesAfterTheWait(n, m, acts, i, gw);
    var log := Run(Init(n, m), acts).log;
    var net: Net, w: nat :|
      && Produced(net, w)
      && EndsWith(log[..i], [Started(net), Asked(Initial, Named(net.initial)), Answer200(Initial), Walked(w)]);
    assert log[..i][i - 4..][2] == log[i - 2];
    Each200WasPushed(n, m, acts, i - 2, Initial);
  }

  lemma CompletionNeedsA200(n: nat, m: nat, acts: seq<Action>, i: nat)
    requires Legal(Init(n, m), acts)
    requires i < |Run(Init(n, m), acts).log| && Run(Init(n, m), acts).log[i] == Completed
    ensures i >= 2 && A200WasTaken(Init(n, m), acts, Redirect, Run(Init(n, m), acts).log[..i - 2])
  {
    CompletionComesAfterTheBridges(n, m, acts, i);
    var log := Run(Init(n, m), acts).log;
    var gw: string :| EndsWith(log[..i], [Asked(Redirect, gw), Answer200(Redirect), BridgesSet]);
    assert log[..i][i - 3..][1] == log[i - 2];
    Each200WasPushed(n, m, acts, i - 2, Redirect);
  }
}
