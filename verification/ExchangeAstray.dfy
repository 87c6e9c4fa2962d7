/** Above the printing bound an answer can go to the wrong client: the push made for one request
    is read as another's, and completes it. */
module ExchangeAstray {
  import opened Collections
  import opened SeqNo
  import opened Exchange
  import opened ExchangeSafety
  import opened ExchangeStranding

  const LONG: Key := Key(0x1_0000_0000, BOUND)
  const SHORT: Key := Key(0x1_0000_0000, 0x1_0000_0000)

  /** In any state: the push that echoes the number printed for the one takes the other. */
  lemma EchoFindsAnother(s: State, i: nat, push: Push)
    requires Conserved(s) && i < |s.out| && s.out[i].key == SHORT
    requires push.httpcode != "" && push.httptext != "" && push.seqno == PrintSeqNo(LONG)
    ensures Find(s.out, push) == Found(i)
  {
    SeqNoAstray();
    FirstWithItsKey(s, i);
  }

  lemma SecondIsTaken(s: State, push: Push, x: Req, y: Req)
    requires s.out == [x, y] && |s.hands| > 0 && s.hands[0].Free? && Find(s.out, push) == Found(1)
    ensures Enabled(s, PushTake(0, push))
    ensures var t := Apply(s, PushTake(0, push));
            t.hands == s.hands[0 := Pushing(y, push.seqno)] && t.out == [x] && t.hist == s.hist
  {
    assert RemoveAt(s.out, 1) == [x];
  }

  /** The whole run: two requests are forwarded, the first one's answer is pushed, and the second
      one's client gets it. */
  lemma AnswerGoesAstray(n: nat, m: nat, push: Push)
    requires n > 0 && m > 0
    requires push.httpcode != "" && push.httptext != "" && push.seqno == PrintSeqNo(LONG)
    ensures var acts := TwoOverSeven(LONG, SHORT) + [PushTake(0, push)] + [PushDone(0, true)];
            && Legal(Init(n, m), acts)
            && var s := Run(Init(n, m), acts);
               s.hist.answers == [Answer(SHORT, PrintSeqNo(LONG), true)] && s.out == [Req(LONG, NoCallback, 7)]
  {
    var s0, acts := Init(n, m), TwoOverSeven(LONG, SHORT);
    TwoForwarded(n, m, LONG, SHORT);
    InitConserved(n, m);
    RunConserves(s0, acts);
    EchoFindsAnother(Run(s0, acts), 1, push);
    SecondIsTaken(Run(s0, acts), push, Req(LONG, NoCallback, 7), Req(SHORT, NoCallback, 7));
    Extend(s0, acts, PushTake(0, push));
    Extend(s0, acts + [PushTake(0, push)], PushDone(0, true));
  }
}
