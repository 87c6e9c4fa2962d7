/** DONE: every report of it belongs to a completion of its own, and while it is the current status
    no dance was started since the last completion. */
module DanceDone {
  import opened Collections
  import opened Dance
  import opened DancePhases
  import opened DanceStatus

  function IsDone(): Message -> nat { (m: Message) => if m.status == Done then 1 else 0 }

  function IsCompleted(): Event -> nat { (e: Event) => if e == Completed then 1 else 0 }

  function Dones(ms: seq<Message>): nat { Total(ms, IsDone()) }

  function Completions(log: seq<Event>): nat { Total(log, IsCompleted()) }

  /** The last dance was completed, and none was started since. */
  predicate CompletedSince(log: seq<Event>) {
    log != []
    && var last := log[|log| - 1];
       last == Completed || (!last.Started? && CompletedSince(log[..|log| - 1]))
  }

  lemma CompletedAppend(log: seq<Event>, e: Event)
    ensures CompletedSince(log + [e]) == (e == Completed || (!e.Started? && CompletedSince(log)))
  {
    assert (log + [e])[..|log|] == log;
  }

  /** What one step adds: `note` is what it reports, `event` what it logs. */
  ghost predicate Reports(s: State, s': State, note: Option<Note>, event: Option<Event>, memory: bool) {
    && s'.appended == (if note.Some? then Append(s.appended, note.value, memory) else s.appended)
    && s'.log == (if event.Some? then s.log + [event.value] else s.log)
    && (note == None ==> s'.sh.current == s.sh.current)
    && (note.Some? ==> s'.sh.current == Write(s.sh, note.value, memory).current)
    && (note.Some? && note.value.status == Done <==> event == Some(Completed))
    && (note.Some? && note.value.status == Done ==> note.value.fits)
    && (event.Some? && event.value.Started? ==> note == None && s.sh.current.status != Done)
  }

  lemma NextReportsDone(pc: Pc, c: Choice, running: bool, net: Option<Net>)
    requires Stepping(pc, net)
    ensures var e := Next(pc, c, running, net);
            && (e.note.Some? && e.note.value.status == Done <==> e.event == Some(Completed))
            && (e.note.Some? && e.note.value.status == Done ==> e.note.value.fits)
            && (e.event.Some? ==> !e.event.value.Started?)
  {
  }

  /** The count of DONEs does not run ahead of the completions; with memory it keeps up. */
  ghost predicate Counted(s: State) {
    && Dones(s.appended) <= Completions(s.log)
    && (s.sh.current.status == Done ==> CompletedSince(s.log))
  }

  lemma ReportCounts(s: State, s': State, note: Option<Note>, event: Option<Event>, memory: bool)
    requires Reports(s, s', note, event, memory)
    ensures Counted(s) ==> Counted(s')
    ensures memory ==> Dones(s'.appended) + Completions(s.log) == Dones(s.appended) + Completions(s'.log)
  {
    if note.Some? {
      TotalAppend(s.appended, Posted(note.value), IsDone());
    }
    if event.Some? {
      TotalAppend(s.log, event.value, IsCompleted());
      CompletedAppend(s.log, event.value);
    }
  }

  lemma ThreadReports(s: State, t: nat, c: Choice)
    requires Enabled(s, Step(t, c))
    ensures var e := Next(s.pcs[t], c, s.running, s.sh.net);
            Reports(s, Apply(s, Step(t, c)), e.note, e.event, c.memory)
  {
    NextReportsDone(s.pcs[t], c, s.running, s.sh.net);
  }

  function NetNote(pc: Pc, c: Choice): Option<Note> {
    match pc
    case Rejected(_) => Some(Bad(AlreadyDancing))
    case Describe(net) => Some(Note(Ok, NetIs(net), c.fits))
    case Ready(_) => Some(Good(ReadyToDance))
    case NetBad(_) => Some(Bad(NotAnObject))
    case _ => None
  }

  lemma NetReports(s: State, t: nat, c: Choice)
    requires Enabled(s, NetStep(t, c))
    ensures Reports(s, Apply(s, NetStep(t, c)), NetNote(s.pcs[t], c), None, c.memory)
  {
  }

  /** What a step logs that reports nothing. */
  function QuietEvent(s: State, s': State): Option<Event> {
    if |s'.log| == |s.log| || s'.log == [] then None else Some(s'.log[|s'.log| - 1])
  }

  lemma QuietReports(s: State, a: Action)
    requires Enabled(s, a) && !a.Step? && !a.NetStep?
    ensures Reports(s, Apply(s, a), None, QuietEvent(s, Apply(s, a)), true)
  {
  }

  lemma StepCounts(s: State, a: Action)
    requires Enabled(s, a)
    ensures var s' := Apply(s, a);
            && (Counted(s) ==> Counted(s'))
            && (HasMemory(a) ==> Dones(s'.appended) + Completions(s.log) == Dones(s.appended) + Completions(s'.log))
  {
    var s' := Apply(s, a);
    match a
    case Step(t, c) =>
      ThreadReports(s, t, c);
      var e := Next(s.pcs[t], c, s.running, s.sh.net);
      ReportCounts(s, s', e.note, e.event, c.memory);
    case NetStep(t, c) =>
      NetReports(s, t, c);
      ReportCounts(s, s', NetNote(s.pcs[t], c), None, c.memory);
    case _ =>
      QuietReports(s, a);
      ReportCounts(s, s', None, QuietEvent(s, s'), true);
  }

  lemma {:induction false} RunCounts(s: State, acts: seq<Action>)
    requires Legal(s, acts) && Counted(s)
    ensures Counted(Run(s, acts))
    ensures (forall i :: 0 <= i < |acts| ==> HasMemory(acts[i])) ==>
              Dones(Run(s, acts).appended) + Completions(s.log) == Dones(s.appended) + Completions(Run(s, acts).log)
    decreases |acts|
  {
    if acts != [] {
      StepCounts(s, acts[0]);
      assert forall i :: 0 <= i < |acts| - 1 ==> acts[1..][i] == acts[i + 1];
      RunCounts(Apply(s, acts[0]), acts[1..]);
    }
  }

  lemma InitCounts(n: nat, m: nat)
    ensures Counted(Init(n, m)) && Dones(Init(n, m).appended) == 0 && Completions(Init(n, m).log) == 0
  {
    var g := Posted(Good(Initialized));
    assert [g][1..] == [] && Init(n, m).appended == [g];
  }

  /** In every run DONE was reported, and told to pollers from the queue, at most as often as
      dances were completed, and with memory exactly as often as that; and each completion was one
      after the bridges had been set. */
  lemma EachDoneHasItsCompletion(n: nat, m: nat, acts: seq<Action>)
    requires Legal(Init(n, m), acts)
    ensures var s := Run(Init(n, m), acts);
            && Dones(Queued(s.replies)) <= Dones(s.appended) <= Completions(s.log)
            && ((forall i :: 0 <= i < |acts| ==> HasMemory(acts[i])) ==> Dones(s.appended) == Completions(s.log))
            && forall i :: 0 <= i < |s.log| && s.log[i] == Completed ==> AfterTheBridges(s.log, i)
  {
    var s := Run(Init(n, m), acts);
    InitCounts(n, m);
    RunCounts(Init(n, m), acts);
    StatusIsAStutteringQueue(n, m, acts);
    TotalConcat(Queued(s.replies), s.sh.messages, IsDone());
    forall i | 0 <= i < |s.log| && s.log[i] == Completed
      ensures AfterTheBridges(s.log, i)
    {
      CompletionComesAfterTheBridges(n, m, acts, i);
    }
  }

  lemma {:induction false} CompletionSince(log: seq<Event>) returns (i: nat)
    requires CompletedSince(log)
    ensures i < |log| && log[i] == Completed && forall k :: i < k < |log| ==> !log[k].Started?
    decreases |log|
  {
    var last := |log| - 1;
    if log[last] == Completed {
      i := last;
    } else {
      i := CompletionSince(log[..last]);
      assert forall k :: i < k < last ==> log[k] == log[..last][k];
    }
  }

  /** While DONE is the current status, which is what a poll is told that finds the queue empty, the
      last dance was completed, after the bridges had been set, and none was started since. */
  lemma CurrentDoneIsFresh(n: nat, m: nat, acts: seq<Action>)
    requires Legal(Init(n, m), acts) && Run(Init(n, m), acts).sh.current.status == Done
    ensures var log := Run(Init(n, m), acts).log;
            exists i :: && 0 <= i < |log| && log[i] == Completed && AfterTheBridges(log, i)
                        && forall k :: i < k < |log| ==> !log[k].Started?
  {
    InitCounts(n, m);
    RunCounts(Init(n, m), acts);
    var log := Run(Init(n, m), acts).log;
    var i := CompletionSince(log);
    CompletionComesAfterTheBridges(n, m, acts, i);
  }

  /** Whoever is told DONE, or finds it as the current status, is told so after a completion. */
  lemma DoneMeansBridges(n: nat, m: nat, acts: seq<Action>)
    requires Legal(Init(n, m), acts)
    requires var s := Run(Init(n, m), acts);
             s.sh.current.status == Done || exists g :: g in s.appended && g.status == Done
    ensures var log := Run(Init(n, m), acts).log;
            exists i :: 0 <= i < |log| && log[i] == Completed && AfterTheBridges(log, i)
  {
    var s := Run(Init(n, m), acts);
    if s.sh.current.status == Done {
      CurrentDoneIsFresh(n, m, acts);
    } else {
      EachDoneHasItsCompletion(n, m, acts);
      TotalZero(s.appended, IsDone());
      TotalZero(s.log, IsCompleted());
      var k :| 0 <= k < |s.appended| && s.appended[k].status == Done;
      assert IsDone()(s.appended[k]) == 1;
    }
  }
}
