/** The dance's code as it is written (server/acs.c): module-level variables updated by functions
    that call each other. Run by one thread alone, each function does exactly what the steps of
    the dance do from the place it stands for. */
module AcsState {
  import opened Collections
  import opened Dance
  import opened DanceRefs

  // ---------------------------------------------------------------- one thread alone

  /** What one thread sees: where it is, the shared variables, what was logged. */
  datatype Local = Local(pc: Pc, sh: Shared, log: seq<Event>)

  function LocalStep(l: Local, c: Choice, running: bool): Local
    requires Stepping(l.pc, l.sh.net)
  {
    var e := Next(l.pc, c, running, l.sh.net);
    var sh := l.sh.(dancing := l.sh.dancing && !Leaving(l.pc));
    Local(e.pc,
          if e.note.Some? then Write(sh, e.note.value, c.memory) else sh,
          if e.event.Some? then l.log + [e.event.value] else l.log)
  }

  /** A step of the whole system is this step of its thread. */
  lemma StepIsLocal(s: State, t: nat, c: Choice)
    requires Enabled(s, Step(t, c))
    ensures var s' := Apply(s, Step(t, c));
            Local(s'.pcs[t], s'.sh, s'.log) == LocalStep(Local(s.pcs[t], s.sh, s.log), c, s.running)
  {
  }

  function Rank(pc: Pc): nat {
    match pc
    case CheckTime => 20
    case Announce => 19
    case Gateway(ph, _) => if ph == Initial then 18 else 11
    case Ask(ph, _, _) => if ph == Initial then 17 else 10
    case Answered(ph, _, _) => if ph == Initial then 16 else 9
    case CheckRunning => 15
    case Walk => 14
    case Sleeping(_) => 13
    case CheckAgain => 12
    case Parse(_) => 8
    case Finish => 7
    case SlipLeave(_, _) => 3
    case Sent(_, _) => 2
    case Leave(_) => 2
    case ReportNoNet => 2
    case _ => 0
  }

  /** The thread's steps until it waits for something else. */
  function Alone(l: Local, c: Choice, running: bool): Local
    decreases Rank(l.pc)
  {
    if Stepping(l.pc, l.sh.net) then Alone(LocalStep(l, c, running), c, running) else l
  }

  /** The end of a function that sits down. */
  lemma AloneLeaves(polling: bool, sh: Shared, log: seq<Event>, c: Choice, running: bool)
    ensures Alone(Local(Leave(polling), sh, log), c, running)
            == Local(Back(polling), sh.(dancing := false), log + [Ended])
  {
  }

  lemma AloneSends(ph: Phase, polling: bool, sh: Shared, log: seq<Event>, c: Choice, running: bool)
    ensures Alone(Local(Sent(ph, polling), sh, log), c, running)
            == Local(Back(polling), Write(sh, Good(RequestSent(ph)), c.memory), log)
  {
  }

  // ---------------------------------------------------------------- the code

  class Acs {
    var dancing: bool
    var net: Option<Net>
    var current: Message
    var messages: seq<Message>
    var refs: Counts
    var freed: seq<nat>
    ghost var log: seq<Event>

    ghost function View(): Shared
      reads this
    {
      Shared(dancing, net, None, current, messages)
    }

    ghost function At(pc: Pc): Local
      reads this
    {
      Local(pc, View(), log)
    }

    /** Outside a set call the current NET has one reference and everything else was freed once. */
    ghost predicate RefsValid()
      reads this
    {
      && FreedOnce(refs, freed)
      && (forall r: nat :: CountOf(refs, r) == if net.Some? && net.value.root == r then 1 else 0)
    }

    constructor ()
      ensures !dancing && net == None && RefsValid() && log == []
      ensures messages == [current] && current == Message(Ok, Initialized)
    {
      dancing, net, refs, freed, log := false, None, map[], [], [];
      current := Message(Ok, Initialized);
      messages := [Message(Ok, Initialized)];
    }

    method AcsStatus(n: Note, memory: bool)
      modifies this`current, this`messages
      ensures View() == Write(old(View()), n, memory)
    {
      var text, status := n.text, n.status;
      if !n.fits {
        text, status := TooLong, Err;
      }
      if memory {
        messages := messages + [Message(status, text)];
      } else {
        status := Err;
      }
      current := Message(status, text);
    }

    method Sitdown()
      modifies this`dancing, this`log
      ensures View() == old(View()).(dancing := false) && log == old(log) + [Ended]
    {
      dancing := false;
      log := log + [Ended];
    }

    method KeepRunning(c: Choice, running: bool) returns (ok: bool)
      modifies this`dancing, this`log, this`current, this`messages
      ensures ok == running
      ensures if running then View() == old(View()) && log == old(log)
              else View() == Write(old(View()), Bad(Slipped), c.memory).(dancing := false) && log == old(log) + [Ended]
    {
      if running {
        return true;
      }
      AcsStatus(Bad(Slipped), c.memory);
      Sitdown();
      return false;
    }

    method NetString(ph: Phase, c: Choice) returns (gw: Option<string>)
      modifies this`dancing, this`log, this`current, this`messages
      ensures gw == GatewayOf(old(net), ph)
      ensures if gw.Some? then View() == old(View()) && log == old(log)
              else && View() == Write(old(View()), Bad(NoGateway(ph)), c.memory).(dancing := false)
                   && log == old(log) + [Ended]
    {
      gw := None;
      if net.Some? {
        gw := if ph == Initial then net.value.initial else net.value.redirect;
      }
      if gw == None {
        AcsStatus(Bad(NoGateway(ph)), c.memory);
        Sitdown();
      }
    }

    /** Puts a request into the exchange. When the daemon is shutting down it reports success. */
    method Request(ph: Phase, gateway: string, c: Choice, running: bool) returns (ok: bool)
      modifies this`dancing, this`log, this`current, this`messages
      ensures ok == (!running || c.grant.Granted?)
      ensures !running ==> && View() == Write(old(View()), Bad(Slipped), c.memory).(dancing := false)
                           && log == old(log) + [Ended]
      ensures running ==>
                match c.grant
                case ClientFailed => View() == Write(old(View()), Bad(NoClient), c.memory) && log == old(log)
                case UserdataFailed => View() == Write(old(View()), Bad(NoUserdata), c.memory) && log == old(log)
                case RecordFailed => View() == old(View()) && log == old(log)
                case Granted(_) => View() == old(View()) && log == old(log) + [Asked(ph, gateway)]
    {
      var up := KeepRunning(c, running);
      if !up {
        return true;
      }
      if c.grant == ClientFailed {
        AcsStatus(Bad(NoClient), c.memory);
        return false;
      }
      if c.grant == UserdataFailed {
        AcsStatus(Bad(NoUserdata), c.memory);
        return false;
      }
      if c.grant.Granted? {
        log := log + [Asked(ph, gateway)];
      }
      return c.grant.Granted?;
    }

    /** acs_initial when polling, acs_redirect when not: the two differ in the gateway. */
    method AskGateway(ph: Phase, polling: bool, c: Choice, running: bool)
      modifies this`dancing, this`log, this`current, this`messages
      ensures At(Back(polling)) == Alone(old(At(Gateway(ph, polling))), c, running)
    {
      ghost var start := At(Gateway(ph, polling));
      var gw := NetString(ph, c);
      if gw == None {
        assert LocalStep(start, c, running)
            == Local(Leave(polling), Write(start.sh, Bad(NoGateway(ph)), c.memory), start.log);
        AloneLeaves(polling, Write(start.sh, Bad(NoGateway(ph)), c.memory), start.log, c, running);
        return;
      }
      assert LocalStep(start, c, running) == Local(Ask(ph, gw.value, polling), start.sh, start.log);
      AskLater(start, ph, gw.value, polling, c, running);
      var ok := Request(ph, gw.value, c, running);
      if !ok {
        Sitdown();
      } else {
        AcsStatus(Good(RequestSent(ph)), c.memory);
      }
    }

    method AcsWhen(c: Choice) returns (ok: bool)
      modifies this`dancing, this`log, this`current, this`messages
      ensures var n := CheckWhen(old(net), c.now);
              && ok == (n.status == Ok)
              && (ok ==> View() == Write(old(View()), n, c.memory) && log == old(log))
              && (!ok ==> View() == Write(old(View()), n, c.memory).(dancing := false) && log == old(log) + [Ended])
      ensures ok <==> || old(net) == None || old(net).value.when == NoWhen
                      || (old(net).value.when.Interval? && old(net).value.when.start <= c.now < old(net).value.when.end)
    {
      if net == None || net.value.when == NoWhen {
        AcsStatus(Good(AlwaysValid), c.memory);
        return true;
      }
      if net.value.when == NotAString {
        AcsStatus(Bad(WhenNotString), c.memory);
        Sitdown();
        return false;
      }
      if net.value.when == Malformed {
        AcsStatus(Bad(WhenMalformed), c.memory);
        Sitdown();
        return false;
      }
      if c.now < net.value.when.start {
        AcsStatus(Bad(WhenTooEarly), c.memory);
        Sitdown();
        return false;
      }
      if c.now >= net.value.when.end {
        AcsStatus(Bad(WhenExpired), c.memory);
        Sitdown();
        return false;
      }
      AcsStatus(Good(WhenValid), c.memory);
      return true;
    }

    /** The first half of acs_progress: a poll that finds nobody dancing and a good status starts
        the dance. */
    method ProgressStart(c: Choice, running: bool)
      modifies this`dancing, this`log, this`current, this`messages
      ensures At(Reply) == Alone(Polled(old(View()), old(log)), c, running)
    {
      if dancing || current.status != Ok {
        return;
      }
      if net == None {
        AcsStatus(Bad(NoNetSetup), c.memory);
        return;
      }
      dancing := true;
      log := log + [Started(net.value)];
      ghost var start := At(CheckTime);
      CheckTimeLater(start, c, running);
      var ok := AcsWhen(c);
      if ok {
        AcsStatus(Good(Starting), c.memory);
        AskGateway(Initial, true, c, running);
      }
    }

    /** Ends the dance with an error. */
    method Fail(n: Note, c: Choice, running: bool)
      modifies this`dancing, this`log, this`current, this`messages
      ensures At(Return) == Alone(Local(Leave(false), Write(old(View()), n, c.memory), old(log)), c, running)
    {
      AcsStatus(n, c.memory);
      AloneLeaves(false, View(), log, c, running);
      Sitdown();
    }

    /** Sleeping, and what follows when the sleep was not cut short. */
    method Moonwalk(w: nat, c: Choice, running: bool)
      modifies this`dancing, this`log, this`current, this`messages
      ensures At(Return) == Alone(old(At(Sleeping(w))), c, running)
    {
      ghost var asleep := At(Sleeping(w));
      if !c.slept {
        AcsStatus(Bad(MoonwalkAborted), c.memory);
        assert LocalStep(asleep, c, running) == At(Return);
        assert Alone(At(Return), c, running) == At(Return);
        return;
      }
      AcsStatus(Good(MoonwalkDone), c.memory);
      log := log + [Walked(w)];
      assert LocalStep(asleep, c, running) == At(CheckAgain);
      AfterCheck(At(CheckAgain), c, running);
      var up := KeepRunning(c, running);
      if up {
        AskGateway(Redirect, false, c, running);
      }
    }

    /** The wait between the two requests. With both numbers there, a window of zero is a division
        by zero: `alive` is false and nothing happened. */
    method AcsWait(c: Choice, running: bool) returns (alive: bool)
      modifies this`dancing, this`log, this`current, this`messages
      ensures alive <==> !(old(net).Some? && old(net).value.window == Some(0) && old(net).value.wait.Some?)
      ensures At(if alive then Return else Walk) == Alone(old(At(Walk)), c, running)
    {
      ghost var start := At(Walk);
      if net == None || net.value.window == None {
        Fail(Bad(NoWindow), c, running);
        return true;
      }
      if net.value.wait == None {
        Fail(Bad(NoWait), c, running);
        return true;
      }
      if net.value.window.value == 0 {
        return false;
      }
      var w := WalkTime(net.value.wait.value, net.value.window.value, c.random);
      AcsStatus(Good(Moonwalking(w)), c.memory);
      assert LocalStep(start, c, running) == At(Sleeping(w));
      Moonwalk(w, c, running);
      return true;
    }

    method InitialAnswer(code: int, text: string, c: Choice, running: bool) returns (alive: bool)
      modifies this`dancing, this`log, this`current, this`messages
      ensures !alive ==> running && code == 200 && old(net).Some? && old(net).value.window == Some(0)
      ensures At(if alive then Return else Walk) == Alone(old(At(Answered(Initial, code, text))), c, running)
    {
      ghost var start := At(Answered(Initial, code, text));
      if code != 200 {
        Fail(Note(Err, AnswerFailed(Initial, code, text), c.fits), c, running);
        return true;
      }
      AcsStatus(Note(Ok, AnswerOk(Initial, text), c.fits), c.memory);
      ghost var before := log;
      log := log + [Answer200(Initial)];
      assert LocalStep(start, c, running) == At(CheckRunning);
      assert Alone(start, c, running) == Alone(At(CheckRunning), c, running);
      AfterCheck(At(CheckRunning), c, running);
      var up := KeepRunning(c, running);
      if !up {
        return true;
      }
      alive := AcsWait(c, running);
    }

    /** The redirect answer's last part: the decoded body is or is not a list of bridges. */
    method SetBridges(parses: bool, c: Choice, running: bool)
      modifies this`dancing, this`log, this`current, this`messages
      ensures At(Return) == Alone(old(At(Parse(parses))), c, running)
    {
      ghost var parsing := At(Parse(parses));
      if parses {
        AcsStatus(Good(DanceComplete), c.memory);
        log := log + [BridgesSet];
        assert LocalStep(parsing, c, running) == At(Finish);
        assert Alone(parsing, c, running) == Alone(At(Finish), c, running);
        ghost var finishing := At(Finish);
        AcsStatus(Note(Done, LaunchNow, true), c.memory);
        log := log + [Completed];
        assert LocalStep(finishing, c, running) == At(Leave(false));
      } else {
        AcsStatus(Bad(BadBridgeList), c.memory);
        assert LocalStep(parsing, c, running) == At(Leave(false));
      }
      AloneLeaves(false, View(), log, c, running);
      Sitdown();
    }

    /** Returns whether the callback is done with its request. */
    method RedirectAnswer(code: int, text: string, c: Choice, running: bool) returns (done: bool)
      modifies this`dancing, this`log, this`current, this`messages
      ensures At(if done then Return else PutBack) == Alone(old(At(Answered(Redirect, code, text))), c, running)
      ensures !done <==> code == 200 && c.body == Unread
    {
      ghost var start := At(Answered(Redirect, code, text));
      if code != 200 {
        Fail(Note(Err, AnswerFailed(Redirect, code, text), c.fits), c, running);
        return true;
      }
      if c.body == Missing {
        Fail(Bad(NoLength), c, running);
        return true;
      }
      if c.body == NoRoom {
        Fail(Bad(NoBodyMemory), c, running);
        return true;
      }
      if c.body == Unread {
        return false;
      }
      if c.body == Undecodable {
        Fail(Bad(DestegFailed), c, running);
        return true;
      }
      AcsStatus(Note(Ok, AnswerOk(Redirect, text), c.fits), c.memory);
      log := log + [Answer200(Redirect)];
      assert LocalStep(start, c, running) == At(Parse(c.body.parses));
      SetBridges(c.body.parses, c, running);
      return true;
    }

    /** The second half of acs_progress: `arrived` is what the wait brings when the queue is
        empty. */
    method ProgressReply(arrived: seq<Message>) returns (m: Message)
      modifies this`messages
      ensures var queue := if old(messages) != [] then old(messages) else arrived;
              if queue != [] then m == queue[0] && messages == queue[1..]
              else m == current && messages == []
    {
      if messages != [] {
        m := messages[0];
        messages := messages[1..];
        return;
      }
      messages := arrived;
      if messages != [] {
        m := messages[0];
        messages := messages[1..];
      } else {
        m := current;
      }
    }

    /** json_decref */
    method DropRef(root: nat)
      requires FreedOnce(refs, freed) && CountOf(refs, root) > 0
      modifies this`refs, this`freed
      ensures FreedOnce(refs, freed) && refs.Keys == old(refs).Keys
      ensures forall r: nat :: CountOf(refs, r) == CountOf(old(refs), r) - if r == root then 1 else 0
    {
      DecrefFreesOnce(refs, freed, root);
      refs, freed := Decref(refs, freed, root).0, Decref(refs, freed, root).1;
    }

    /** json_incref, and the first reference of a parsed value */
    method AddRef(root: nat)
      requires FreedOnce(refs, freed) && (root in refs ==> refs[root] > 0)
      modifies this`refs
      ensures FreedOnce(refs, freed) && refs.Keys == old(refs).Keys + {root}
      ensures forall r: nat :: CountOf(refs, r) == CountOf(old(refs), r) + if r == root then 1 else 0
    {
      IncrefFreesNothing(refs, freed, root);
      refs := Incref(refs, root);
    }

    /** The accepted value is described and kept. */
    method Install(given: Net, c: Choice)
      requires FreedOnce(refs, freed) && CountOf(refs, given.root) > 0
      modifies this`refs, this`current, this`messages, this`log
      ensures View() == Write(Write(old(View()), Note(Ok, NetIs(given), c.fits), c.memory),
                              Good(ReadyToDance), c.memory)
      ensures log == old(log) + [Installed(given)]
      ensures FreedOnce(refs, freed) && refs.Keys == old(refs).Keys
      ensures forall r: nat :: CountOf(refs, r) == CountOf(old(refs), r) + if r == given.root then 1 else 0
    {
      log := log + [Installed(given)];
      AcsStatus(Note(Ok, NetIs(given), c.fits), c.memory);
      AddRef(given.root);
      AcsStatus(Good(ReadyToDance), c.memory);
    }

    /** The reference to the old NET goes. */
    method Forget(given: Option<Net>)
      requires RefsHeldWith(given)
      modifies this`net, this`refs, this`freed
      ensures View() == old(View()).(net := given)
      ensures FreedOnce(refs, freed) && refs.Keys == old(refs).Keys
      ensures forall r: nat :: CountOf(refs, r) == if given.Some? && given.value.root == r then 1 else 0
    {
      if net.Some? {
        assert CountOf(refs, net.value.root) > 0;
        DropRef(net.value.root);
      }
      net := given;
    }

    /** acs_set_net on a value its caller holds a reference of; None resets. */
    method SetNet(given: Option<Net>, c: Choice) returns (ok: bool)
      requires RefsHeldWith(given)
      modifies this`net, this`refs, this`freed, this`current, this`messages, this`log
      ensures RefsHeldWith(given) && ok == !old(dancing) && refs.Keys == old(refs).Keys
      ensures (View(), log) == NetSet(old(View()), old(log), given, c)
    {
      if dancing {
        AcsStatus(Bad(AlreadyDancing), c.memory);
        return false;
      }
      Forget(given);
      if given.Some? {
        if given.value.isObject {
          Install(given.value, c);
        } else {
          AcsStatus(Bad(NotAnObject), c.memory);
          net := None;
        }
      }
      return true;
    }

    /** As RefsValid, while a caller holds one more reference of a value that is not the current
        NET when it comes. */
    ghost predicate RefsHeldWith(given: Option<Net>)
      reads this
    {
      && FreedOnce(refs, freed)
      && forall r: nat :: CountOf(refs, r) == (if net.Some? && net.value.root == r then 1 else 0)
                                              + (if given.Some? && given.value.root == r then 1 else 0)
    }

    /** acs_setup and rdv_peel_base: parse a value, set it, drop the parser's reference. */
    method Setup(given: Net, c: Choice) returns (ok: bool)
      requires RefsValid() && given.root !in refs
      modifies this`net, this`refs, this`freed, this`current, this`messages, this`log
      ensures RefsValid() && ok == !old(dancing)
      ensures (View(), log) == NetSet(old(View()), old(log), Some(given), c)
      ensures given.root in freed <==> !(ok && given.isObject)
    {
      assert net.Some? ==> CountOf(refs, net.value.root) == 1;
      AddRef(given.root);
      ok := SetNet(Some(given), c);
      DropRef(given.root);
      assert CountOf(refs, given.root) == if ok && given.isObject then 1 else 0;
    }

    /** acs_exit */
    method Exit(c: Choice)
      requires RefsValid()
      modifies this
      ensures !dancing && net == None && messages == []
      ensures RefsValid() && forall r: nat :: CountOf(refs, r) == 0
    {
      Sitdown();
      var ok := SetNet(None, c);
      while messages != []
        invariant RefsValid() && net == None && !dancing
        decreases |messages|
      {
        messages := messages[1..];
      }
    }
  }

  /** A set call that runs to its end with no other step in between. */
  function NetSet(sh: Shared, log: seq<Event>, given: Option<Net>, c: Choice): (Shared, seq<Event>) {
    if sh.dancing then (Write(sh, Bad(AlreadyDancing), c.memory), log)
    else if given == None then (sh.(net := None), log)
    else if given.value.isObject then
      (Write(Write(sh.(net := given), Note(Ok, NetIs(given.value), c.fits), c.memory), Good(ReadyToDance), c.memory),
       log + [Installed(given.value)])
    else (Write(sh.(net := given), Bad(NotAnObject), c.memory).(net := None), log)
  }

  /** A set call's steps after its first, up to its end. */
  function FinishSet(s: State, t: nat, c: Choice): (r: State)
    requires t < |s.pcs|
    ensures |r.pcs| == |s.pcs| && !Setting(r.pcs[t])
    decreases SetRank(s.pcs[t])
  {
    if Setting(s.pcs[t]) then FinishSet(ApplyNetStep(s, t, c), t, c) else s
  }

  function SetRank(pc: Pc): nat {
    match pc
    case Describe(_) => 3
    case Ready(_) => 2
    case Rejected(_) => 2
    case NetBad(_) => 2
    case Release(_) => 1
    case _ => 0
  }

  lemma ReleaseFinishes(s: State, t: nat, c: Choice)
    requires t < |s.pcs| && s.pcs[t].Release?
    ensures var done := FinishSet(s, t, c);
            done.sh == s.sh && done.log == s.log && done.pcs[t] == Idle
  {
    assert !Setting(ApplyNetStep(s, t, c).pcs[t]);
  }

  lemma AcceptedFinishes(s: State, t: nat, c: Choice)
    requires t < |s.pcs| && s.pcs[t].Describe?
    ensures var done, net := FinishSet(s, t, c), s.pcs[t].net;
            && done.sh == Write(Write(s.sh, Note(Ok, NetIs(net), c.fits), c.memory),
                                Good(ReadyToDance), c.memory).(lock := None)
            && done.log == s.log && done.pcs[t] == Idle
  {
    var s1 := ApplyNetStep(s, t, c);
    var s2 := ApplyNetStep(s1, t, c);
    ReleaseFinishes(s2, t, c);
  }

  /** The set call's steps in the whole system come to what the code does in one go. */
  lemma SetCallIsNetSet(s: State, t: nat, net: Net, c: Choice)
    requires Enabled(s, SetNet(t, net))
    ensures var done := FinishSet(Apply(s, SetNet(t, net)), t, c);
            (done.sh, done.log) == NetSet(s.sh, s.log, Some(net), c) && done.pcs[t] == Idle
  {
    var s1 := ApplySetNet(s, t, net);
    if s1.pcs[t].Describe? {
      AcceptedFinishes(s1, t, c);
    } else {
      ReleaseFinishes(ApplyNetStep(s1, t, c), t, c);
    }
  }

  /** Where a poll starts. */
  function Polled(sh: Shared, log: seq<Event>): Local {
    if sh.dancing || sh.current.status != Ok then Local(Reply, sh, log)
    else if sh.net == None then Local(ReportNoNet, sh, log)
    else Local(CheckTime, sh.(dancing := true), log + [Started(sh.net.value)])
  }

  /** From a request to the end of the function that makes it. */
  lemma AskLater(start: Local, ph: Phase, gw: string, polling: bool, c: Choice, running: bool)
    ensures var sh, log := start.sh, start.log;
            Alone(Local(Ask(ph, gw, polling), sh, log), c, running) ==
            if !running then
              Local(Back(polling),
                    Write(Write(sh, Bad(Slipped), c.memory).(dancing := false), Good(RequestSent(ph)), c.memory),
                    log + [Ended])
            else match c.grant
                 case ClientFailed =>
                   Local(Back(polling), Write(sh, Bad(NoClient), c.memory).(dancing := false), log + [Ended])
                 case UserdataFailed =>
                   Local(Back(polling), Write(sh, Bad(NoUserdata), c.memory).(dancing := false), log + [Ended])
                 case RecordFailed => Local(Back(polling), sh.(dancing := false), log + [Ended])
                 case Granted(_) =>
                   Local(Back(polling), Write(sh, Good(RequestSent(ph)), c.memory), log + [Asked(ph, gw)])
  {
    var sh, log := start.sh, start.log;
    var next := LocalStep(Local(Ask(ph, gw, polling), sh, log), c, running);
    if !running {
      var after := LocalStep(next, c, running);
      AloneSends(ph, polling, after.sh, after.log, c, running);
    } else if c.grant.Granted? {
      AloneSends(ph, polling, next.sh, next.log, c, running);
    } else {
      AloneLeaves(polling, next.sh, next.log, c, running);
    }
  }

  lemma CheckTimeLater(start: Local, c: Choice, running: bool)
    requires start.pc == CheckTime
    ensures var n := CheckWhen(start.sh.net, c.now);
            var sh := Write(start.sh, n, c.memory);
            Alone(start, c, running) ==
            if n.status == Ok then
              Alone(Local(Gateway(Initial, true), Write(sh, Good(Starting), c.memory), start.log), c, running)
            else Local(Reply, sh.(dancing := false), start.log + [Ended])
  {
    var next := LocalStep(start, c, running);
    if next.pc.Leave? {
      AloneLeaves(true, next.sh, next.log, c, running);
    } else {
      var after := LocalStep(next, c, running);
    }
  }

  /** A check whether the daemon is still running. */
  lemma AfterCheck(start: Local, c: Choice, running: bool)
    requires start.pc == CheckRunning || start.pc == CheckAgain
    ensures Alone(start, c, running) ==
            if running then
              Alone(Local(if start.pc == CheckRunning then Walk else Gateway(Redirect, false), start.sh, start.log),
                    c, running)
            else Local(Return, Write(start.sh, Bad(Slipped), c.memory).(dancing := false), start.log + [Ended])
  {
    if !running {
      var next := LocalStep(start, c, running);
      AloneLeaves(false, next.sh, next.log, c, running);
    }
  }
}
