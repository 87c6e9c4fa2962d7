/** The status log behaves as a stuttering queue, however many polls there are. */
module DanceStatus {
  import opened Collections
  import opened Dance

  /** The messages that were taken from the queue, in the order of the replies. */
  function Queued(rs: seq<PollReply>): seq<Message> {
    if rs == [] then []
    else Queued(rs[..|rs| - 1]) + (if rs[|rs| - 1].queued then [rs[|rs| - 1].message] else [])
  }

  lemma QueuedAppend(rs: seq<PollReply>, r: PollReply)
    ensures Queued(rs + [r]) == Queued(rs) + if r.queued then [r.message] else []
  {
    assert (rs + [r])[..|rs|] == rs;
  }

  /** Everything appended was replied or is still queued, in order and once each. */
  ghost predicate Logged(s: State) {
    s.appended == Queued(s.replies) + s.sh.messages
  }

  /** What is shown is what was appended last, and so it was for every reply that found the queue
      empty. */
  ghost predicate Repeats(s: State) {
    && s.appended != [] && s.sh.current == s.appended[|s.appended| - 1]
    && forall i :: 0 <= i < |s.replies| && !s.replies[i].queued ==>
         && 0 < s.replies[i].seen <= |s.appended|
         && s.replies[i].message == s.appended[s.replies[i].seen - 1]
  }

  /** acs_status finds memory for its message. */
  predicate HasMemory(a: Action) {
    (a.Step? || a.NetStep?) ==> a.c.memory
  }

  lemma AppendKeeps(s: State, s': State, n: Note, memory: bool)
    requires s'.replies == s.replies && s'.appended == Append(s.appended, n, memory)
    requires s'.sh.messages == Append(s.sh.messages, n, memory)
    requires memory ==> s'.sh.current == Posted(n)
    ensures Logged(s) ==> Logged(s')
    ensures Repeats(s) && memory ==> Repeats(s')
  {
    var queued, ms := Queued(s.replies), s.sh.messages;
    assert memory ==> queued + (ms + [Posted(n)]) == queued + ms + [Posted(n)];
  }

  lemma ReplyKeepsLogged(s: State, t: nat)
    requires Enabled(s, GiveReply(t)) && Logged(s)
    ensures Logged(ApplyReply(s, t))
  {
    if s.sh.messages != [] {
      var m, rest := s.sh.messages[0], s.sh.messages[1..];
      QueuedAppend(s.replies, PollReply(m, true, |s.appended|));
      assert s.sh.messages == [m] + rest;
      assert Queued(s.replies) + [m] + rest == Queued(s.replies) + ([m] + rest);
    } else if s.pcs[t] == Waiting {
      QueuedAppend(s.replies, PollReply(s.sh.current, false, |s.appended|));
      assert Queued(s.replies) + [] == Queued(s.replies);
    }
  }

  lemma ReplyKeepsRepeats(s: State, t: nat)
    requires Enabled(s, GiveReply(t)) && Repeats(s)
    ensures Repeats(ApplyReply(s, t))
  {
    var s' := ApplyReply(s, t);
    assert s'.appended == s.appended && s'.sh.current == s.sh.current;
    forall i | 0 <= i < |s'.replies| && !s'.replies[i].queued
      ensures 0 < s'.replies[i].seen <= |s.appended| && s'.replies[i].message == s.appended[s'.replies[i].seen - 1]
    {
      if i < |s.replies| {
        assert s'.replies[i] == s.replies[i];
      }
    }
  }

  lemma PerformKeeps(s: State, t: nat, c: Choice, e: Effect)
    requires Enabled(s, Step(t, c))
    ensures Logged(s) ==> Logged(Perform(s, t, c, e))
    ensures Repeats(s) && c.memory ==> Repeats(Perform(s, t, c, e))
  {
    if e.note.Some? {
      AppendKeeps(s, Perform(s, t, c, e), e.note.value, c.memory);
    }
  }

  lemma NetStepKeeps(s: State, t: nat, c: Choice)
    requires Enabled(s, NetStep(t, c))
    ensures Logged(s) ==> Logged(ApplyNetStep(s, t, c))
    ensures Repeats(s) && c.memory ==> Repeats(ApplyNetStep(s, t, c))
  {
    var s' := ApplyNetStep(s, t, c);
    match s.pcs[t]
    case Rejected(_) => AppendKeeps(s, s', Bad(AlreadyDancing), c.memory);
    case Describe(net) => AppendKeeps(s, s', Note(Ok, NetIs(net), c.fits), c.memory);
    case Ready(_) => AppendKeeps(s, s', Good(ReadyToDance), c.memory);
    case NetBad(_) => AppendKeeps(s, s', Bad(NotAnObject), c.memory);
    case Release(_) =>
  }

  lemma QuietKeeps(s: State, s': State)
    requires s'.appended == s.appended && s'.replies == s.replies
    requires s'.sh.messages == s.sh.messages && s'.sh.current == s.sh.current
    ensures Logged(s) ==> Logged(s')
    ensures Repeats(s) ==> Repeats(s')
  {
  }

  lemma QuietStep(s: State, a: Action)
    requires Enabled(s, a) && !a.Step? && !a.GiveReply? && !a.NetStep?
    ensures var s' := Apply(s, a);
            && s'.appended == s.appended && s'.replies == s.replies
            && s'.sh.messages == s.sh.messages && s'.sh.current == s.sh.current
  {
  }

  lemma StepKeepsLog(s: State, a: Action)
    requires Enabled(s, a)
    ensures Logged(s) ==> Logged(Apply(s, a))
    ensures Repeats(s) && HasMemory(a) ==> Repeats(Apply(s, a))
  {
    if a.Step? {
      PerformKeeps(s, a.t, a.c, Next(s.pcs[a.t], a.c, s.running, s.sh.net));
    } else if a.GiveReply? {
      if Logged(s) {
        ReplyKeepsLogged(s, a.t);
      }
      if Repeats(s) {
        ReplyKeepsRepeats(s, a.t);
      }
    } else if a.NetStep? {
      NetStepKeeps(s, a.t, a.c);
    } else {
      QuietStep(s, a);
      QuietKeeps(s, Apply(s, a));
    }
  }

  lemma {:induction false} RunKeepsLog(s: State, acts: seq<Action>)
    requires Legal(s, acts)
    ensures Logged(s) ==> Logged(Run(s, acts))
    ensures Repeats(s) && (forall i :: 0 <= i < |acts| ==> HasMemory(acts[i])) ==> Repeats(Run(s, acts))
    decreases |acts|
  {
    if acts != [] {
      StepKeepsLog(s, acts[0]);
      assert forall i :: 0 <= i < |acts| - 1 ==> acts[1..][i] == acts[i + 1];
      RunKeepsLog(Apply(s, acts[0]), acts[1..]);
    }
  }

  lemma InitLogged(n: nat, m: nat)
    ensures Logged(Init(n, m)) && Repeats(Init(n, m))
  {
    var g := Posted(Good(Initialized));
    assert Queued([]) + [g] == [g];
  }

  /** Across any number of pollers the queued replies are a prefix of the messages appended, in
      order and once each; while memory lasts, every reply given with the queue empty repeats the
      message appended last before it. */
  lemma StatusIsAStutteringQueue(n: nat, m: nat, acts: seq<Action>)
    requires Legal(Init(n, m), acts)
    ensures var s := Run(Init(n, m), acts);
            && Queued(s.replies) + s.sh.messages == s.appended
            && Queued(s.replies) <= s.appended
            && ((forall i :: 0 <= i < |acts| ==> HasMemory(acts[i])) ==>
                  forall i :: 0 <= i < |s.replies| && !s.replies[i].queued ==>
                    && 0 < s.replies[i].seen <= |s.appended|
                    && s.replies[i].message == s.appended[s.replies[i].seen - 1])
  {
    InitLogged(n, m);
    RunKeepsLog(Init(n, m), acts);
    var s := Run(Init(n, m), acts);
    assert Queued(s.replies) <= Queued(s.replies) + s.sh.messages;
  }
}
