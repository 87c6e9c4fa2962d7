/** What the dance's callbacks and polls come to from their start to their end, run by one thread
    alone: every outcome with the messages it leaves in order, the events it logs, and whether the
    dance goes on. The tables mention neither the single steps nor how a message is put. */
module AcsOutcomes {
  import opened Collections
  import opened Dance
  import opened AcsState

  // ---------------------------------------------------------------- messages

  /** Some messages were put, one after the other. Without memory none is queued, and the last one is
      shown as an error. */
  function Tell(sh: Shared, ms: seq<Message>, memory: bool): Shared {
    if ms == [] then sh
    else
      var last := ms[|ms| - 1];
      sh.(current := if memory then last else Message(Err, last.text),
          messages := if memory then sh.messages + ms else sh.messages)
  }

  /** A message with a text of any length: a long one is replaced by an error. */
  function Fitted(fits: bool, status: Status, text: Text): Message {
    if fits then Message(status, text) else Message(Err, TooLong)
  }

  lemma WriteTells(sh: Shared, n: Note, memory: bool)
    ensures Write(sh, n, memory) == Tell(sh, [Fitted(n.fits, n.status, n.text)], memory)
  {
  }

  lemma TellMore(sh: Shared, ms: seq<Message>, more: seq<Message>, memory: bool)
    ensures Tell(Tell(sh, ms, memory), more, memory) == Tell(sh, ms + more, memory)
  {
    assert sh.messages + ms + more == sh.messages + (ms + more);
    if more == [] {
      assert ms + more == ms;
    }
  }

  /** One more note after those already told. */
  lemma TellNext(sh: Shared, ms: seq<Message>, n: Note, memory: bool)
    ensures Write(Tell(sh, ms, memory), n, memory) == Tell(sh, ms + [Fitted(n.fits, n.status, n.text)], memory)
  {
    WriteTells(Tell(sh, ms, memory), n, memory);
    TellMore(sh, ms, [Fitted(n.fits, n.status, n.text)], memory);
  }

  // ---------------------------------------------------------------- asking a gateway

  /** The end of a poll or of a callback: with the messages `ms` put and the events logged, and the
      dance over or not. */
  function Ends(sh: Shared, log: seq<Event>, polling: bool, over: bool, ms: seq<Message>, events: seq<Event>,
                memory: bool): Local {
    Local(if polling then Reply else Return,
          Tell(sh, ms, memory).(dancing := sh.dancing && !over),
          log + events)
  }

  /** The gateway that a NET names for a request, if it names one. */
  function Wanted(net: Option<Net>, ph: Phase): Option<string> {
    match ph
    case Initial => if net.Some? then net.value.initial else None
    case Redirect => if net.Some? then net.value.redirect else None
  }

  /** From looking up the gateway on. Without one the dance ends with an error; with one it goes on if
      and only if the daemon is running and the request's three allocations succeed. */
  lemma AskOutcome(ph: Phase, polling: bool, sh: Shared, log: seq<Event>, c: Choice, running: bool)
    ensures var end := Alone(Local(Gateway(ph, polling), sh, log), c, running);
            var gw, m := Wanted(sh.net, ph), c.memory;
            if gw == None then end == Ends(sh, log, polling, true, [Message(Err, NoGateway(ph))], [Ended], m)
            else if !running then
              end == Ends(sh, log, polling, true, [Message(Err, Slipped), Message(Ok, RequestSent(ph))], [Ended], m)
            else if c.grant == ClientFailed then
              end == Ends(sh, log, polling, true, [Message(Err, NoClient)], [Ended], m)
            else if c.grant == UserdataFailed then
              end == Ends(sh, log, polling, true, [Message(Err, NoUserdata)], [Ended], m)
            else if c.grant == RecordFailed then end == Ends(sh, log, polling, true, [], [Ended], m)
            else end == Ends(sh, log, polling, false, [Message(Ok, RequestSent(ph))], [Asked(ph, gw.value)], m)
  {
    var start := Local(Gateway(ph, polling), sh, log);
    var gw := Wanted(sh.net, ph);
    if gw == None {
      var next := LocalStep(start, c, running);
      AloneLeaves(polling, next.sh, next.log, c, running);
    } else {
      assert LocalStep(start, c, running) == Local(Ask(ph, gw.value, polling), sh, log);
      AskLater(start, ph, gw.value, polling, c, running);
    }
  }

  // ---------------------------------------------------------------- one step after others

  /** After the messages `ms` and the events so far a step says something, and logs something; or it
      does neither. */
  lemma LogsOn(pc: Pc, sh: Shared, log: seq<Event>, ms: seq<Message>, events: seq<Event>, next: Pc, n: Note, e: Event,
               c: Choice, running: bool)
    requires Stepping(pc, sh.net) && !Leaving(pc)
    requires Next(pc, c, running, sh.net) == Effect(next, Some(n), Some(e), false)
    ensures Alone(Local(pc, Tell(sh, ms, c.memory), log + events), c, running)
         == Alone(Local(next, Tell(sh, ms + [Fitted(n.fits, n.status, n.text)], c.memory), log + (events + [e])),
                  c, running)
  {
    TellNext(sh, ms, n, c.memory);
    assert log + events + [e] == log + (events + [e]);
    assert LocalStep(Local(pc, Tell(sh, ms, c.memory), log + events), c, running)
        == Local(next, Tell(sh, ms + [Fitted(n.fits, n.status, n.text)], c.memory), log + (events + [e]));
  }

  lemma SaysOn(pc: Pc, sh: Shared, log: seq<Event>, ms: seq<Message>, next: Pc, n: Note, stuck: bool,
               c: Choice, running: bool)
    requires Stepping(pc, sh.net) && !Leaving(pc)
    requires Next(pc, c, running, sh.net) == Effect(next, Some(n), None, stuck)
    ensures Alone(Local(pc, Tell(sh, ms, c.memory), log), c, running)
         == Alone(Local(next, Tell(sh, ms + [Fitted(n.fits, n.status, n.text)], c.memory), log), c, running)
  {
    TellNext(sh, ms, n, c.memory);
    assert LocalStep(Local(pc, Tell(sh, ms, c.memory), log), c, running)
        == Local(next, Tell(sh, ms + [Fitted(n.fits, n.status, n.text)], c.memory), log);
  }

  lemma GoesOn(l: Local, next: Pc, c: Choice, running: bool)
    requires Stepping(l.pc, l.sh.net) && !Leaving(l.pc) && Next(l.pc, c, running, l.sh.net) == Go(next)
    ensures Alone(l, c, running) == Alone(l.(pc := next), c, running)
  {
    assert LocalStep(l, c, running) == l.(pc := next);
  }

  /** A step that ends the dance with an error. */
  lemma FailsHere(pc: Pc, sh: Shared, log: seq<Event>, ms: seq<Message>, events: seq<Event>, n: Note,
                  c: Choice, running: bool)
    requires Stepping(pc, sh.net) && !Leaving(pc) && Next(pc, c, running, sh.net) == Say(Leave(false), n)
    ensures Alone(Local(pc, Tell(sh, ms, c.memory), log + events), c, running)
         == Ends(sh, log, false, true, ms + [Fitted(n.fits, n.status, n.text)], events + [Ended], c.memory)
  {
    SaysOn(pc, sh, log + events, ms, Leave(false), n, false, c, running);
    EndsHere(sh, log, ms + [Fitted(n.fits, n.status, n.text)], events, c, running);
  }

  lemma EndsHere(sh: Shared, log: seq<Event>, ms: seq<Message>, events: seq<Event>, c: Choice, running: bool)
    ensures Alone(Local(Leave(false), Tell(sh, ms, c.memory), log + events), c, running)
         == Ends(sh, log, false, true, ms, events + [Ended], c.memory)
  {
    AloneLeaves(false, Tell(sh, ms, c.memory), log + events, c, running);
    assert log + events + [Ended] == log + (events + [Ended]);
  }

  /** A step that ends the dance with an error before anything was said or logged. */
  lemma FailsFirst(pc: Pc, sh: Shared, log: seq<Event>, n: Note, c: Choice, running: bool)
    requires Stepping(pc, sh.net) && !Leaving(pc) && Next(pc, c, running, sh.net) == Say(Leave(false), n)
    ensures Alone(Local(pc, sh, log), c, running)
         == Ends(sh, log, false, true, [Fitted(n.fits, n.status, n.text)], [Ended], c.memory)
  {
    assert log + [] == log && [] + [Fitted(n.fits, n.status, n.text)] == [Fitted(n.fits, n.status, n.text)];
    FailsHere(pc, sh, log, [], [], n, c, running);
  }

  // ---------------------------------------------------------------- the initial answer

  /** The waiting time in 64 bits. */
  function Rest(net: Net, random: nat): nat
    requires net.wait.Some? && net.window.Some? && net.window.value > 0
  {
    (net.wait.value + random % net.window.value) % TWO_TO_THE_64
  }

  /** From the wait on, after the messages `ms` and the events logged so far. */
  lemma WalkOutcome(sh: Shared, log: seq<Event>, ms: seq<Message>, events: seq<Event>, c: Choice, running: bool)
    ensures var start := Local(Walk, Tell(sh, ms, c.memory), log + events);
            var end, m := Alone(start, c, running), c.memory;
            if sh.net == None || sh.net.value.window == None then
              end == Ends(sh, log, false, true, ms + [Message(Err, NoWindow)], events + [Ended], m)
            else if sh.net.value.wait == None then
              end == Ends(sh, log, false, true, ms + [Message(Err, NoWait)], events + [Ended], m)
            else if sh.net.value.window.value == 0 then end == start
            else
              var w := Rest(sh.net.value, c.random);
              end == Alone(Local(Sleeping(w), Tell(sh, ms + [Message(Ok, Moonwalking(w))], m), log + events),
                           c, running)
  {
    if sh.net == None || sh.net.value.window == None {
      FailsHere(Walk, sh, log, ms, events, Bad(NoWindow), c, running);
    } else if sh.net.value.wait == None {
      FailsHere(Walk, sh, log, ms, events, Bad(NoWait), c, running);
    } else if sh.net.value.window.value > 0 {
      var w := Rest(sh.net.value, c.random);
      SaysOn(Walk, sh, log + events, ms, Sleeping(w), Good(Moonwalking(w)), false, c, running);
    }
  }

  /** From the sleep on. One that is cut short leaves the dance hanging: it is not over, and nobody
      carries it on. */
  lemma SleepOutcome(w: nat, sh: Shared, log: seq<Event>, ms: seq<Message>, events: seq<Event>,
                     c: Choice, running: bool)
    ensures var end, m := Alone(Local(Sleeping(w), Tell(sh, ms, c.memory), log + events), c, running), c.memory;
            var told, logged := ms + [Message(Ok, MoonwalkDone)], events + [Walked(w)];
            if !c.slept then end == Ends(sh, log, false, false, ms + [Message(Err, MoonwalkAborted)], events, m)
            else if !running then
              end == Ends(sh, log, false, true, told + [Message(Err, Slipped)], logged + [Ended], m)
            else end == Alone(Local(Gateway(Redirect, false), Tell(sh, told, m), log + logged), c, running)
  {
    if c.slept {
      SleptOutcome(w, sh, log, ms, events, c, running);
    } else {
      SaysOn(Sleeping(w), sh, log + events, ms, Return, Bad(MoonwalkAborted), true, c, running);
    }
  }

  lemma SleptOutcome(w: nat, sh: Shared, log: seq<Event>, ms: seq<Message>, events: seq<Event>,
                     c: Choice, running: bool)
    requires c.slept
    ensures var told, logged := ms + [Message(Ok, MoonwalkDone)], events + [Walked(w)];
            Alone(Local(Sleeping(w), Tell(sh, ms, c.memory), log + events), c, running)
            == if running then
                 Alone(Local(Gateway(Redirect, false), Tell(sh, told, c.memory), log + logged), c, running)
               else Ends(sh, log, false, true, told + [Message(Err, Slipped)], logged + [Ended], c.memory)
  {
    var told, logged := ms + [Message(Ok, MoonwalkDone)], events + [Walked(w)];
    LogsOn(Sleeping(w), sh, log, ms, events, CheckAgain, Good(MoonwalkDone), Walked(w), c, running);
    if running {
      GoesOn(Local(CheckAgain, Tell(sh, told, c.memory), log + logged), Gateway(Redirect, false), c, running);
    } else {
      FailsHere(CheckAgain, sh, log, told, logged, Bad(Slipped), c, running);
    }
  }

  /** The callback of the initial request. Only a code of 200 is an answer; what follows it is the wait,
      if the daemon is still running. */
  lemma InitialAnswerOutcome(code: int, text: string, sh: Shared, log: seq<Event>, c: Choice, running: bool)
    ensures var end, m := Alone(Local(Answered(Initial, code, text), sh, log), c, running), c.memory;
            var good := Fitted(c.fits, Ok, AnswerOk(Initial, text));
            if code != 200 then
              end == Ends(sh, log, false, true, [Fitted(c.fits, Err, AnswerFailed(Initial, code, text))], [Ended], m)
            else if !running then
              end == Ends(sh, log, false, true, [good, Message(Err, Slipped)], [Answer200(Initial), Ended], m)
            else end == Alone(Local(Walk, Tell(sh, [good], m), log + [Answer200(Initial)]), c, running)
  {
    if code != 200 {
      var n := Note(Err, AnswerFailed(Initial, code, text), c.fits);
      FailsFirst(Answered(Initial, code, text), sh, log, n, c, running);
    } else {
      InitialGoodOutcome(text, sh, log, c, running);
    }
  }

  lemma InitialGoodOutcome(text: string, sh: Shared, log: seq<Event>, c: Choice, running: bool)
    ensures var good, logged := [Fitted(c.fits, Ok, AnswerOk(Initial, text))], [Answer200(Initial)];
            Alone(Local(Answered(Initial, 200, text), sh, log), c, running)
            == if running then Alone(Local(Walk, Tell(sh, good, c.memory), log + logged), c, running)
               else Ends(sh, log, false, true, good + [Message(Err, Slipped)], logged + [Ended], c.memory)
  {
    var good, logged := [Fitted(c.fits, Ok, AnswerOk(Initial, text))], [Answer200(Initial)];
    assert log + [] == log && [] + good == good && [] + logged == logged;
    LogsOn(Answered(Initial, 200, text), sh, log, [], [], CheckRunning, Note(Ok, AnswerOk(Initial, text), c.fits),
           Answer200(Initial), c, running);
    if running {
      GoesOn(Local(CheckRunning, Tell(sh, good, c.memory), log + logged), Walk, c, running);
    } else {
      FailsHere(CheckRunning, sh, log, good, logged, Bad(Slipped), c, running);
    }
  }

  // ---------------------------------------------------------------- the redirect answer

  /** The callback of the redirect request. It completes the dance if and only if the code is 200 and
      the body could be read, decoded and parsed; with the body still to be read it asks for it and
      changes nothing. */
  lemma RedirectAnswerOutcome(code: int, text: string, sh: Shared, log: seq<Event>, c: Choice, running: bool)
    ensures var end, m := Alone(Local(Answered(Redirect, code, text), sh, log), c, running), c.memory;
            if code != 200 then
              end == Ends(sh, log, false, true, [Fitted(c.fits, Err, AnswerFailed(Redirect, code, text))], [Ended], m)
            else if c.body == Missing then end == Ends(sh, log, false, true, [Message(Err, NoLength)], [Ended], m)
            else if c.body == NoRoom then end == Ends(sh, log, false, true, [Message(Err, NoBodyMemory)], [Ended], m)
            else if c.body == Unread then end == Local(PutBack, sh, log)
            else if c.body == Undecodable then
              end == Ends(sh, log, false, true, [Message(Err, DestegFailed)], [Ended], m)
            else
              var good := Fitted(c.fits, Ok, AnswerOk(Redirect, text));
              if !c.body.parses then
                end == Ends(sh, log, false, true, [good, Message(Err, BadBridgeList)], [Answer200(Redirect), Ended], m)
              else
                end == Ends(sh, log, false, true, [good, Message(Ok, DanceComplete), Message(Done, LaunchNow)],
                            [Answer200(Redirect), BridgesSet, Completed, Ended], m)
  {
    var pc := Answered(Redirect, code, text);
    if code != 200 {
      FailsFirst(pc, sh, log, Note(Err, AnswerFailed(Redirect, code, text), c.fits), c, running);
    } else if c.body == Unread {
      GoesOn(Local(pc, sh, log), PutBack, c, running);
    } else if !c.body.Decoded? {
      var t := if c.body == Missing then NoLength else if c.body == NoRoom then NoBodyMemory else DestegFailed;
      FailsFirst(pc, sh, log, Bad(t), c, running);
    } else {
      DecodedOutcome(text, sh, log, c, running);
      var good := Fitted(c.fits, Ok, AnswerOk(Redirect, text));
      assert [good] + [Message(Ok, DanceComplete)] + [Message(Done, LaunchNow)]
          == [good, Message(Ok, DanceComplete), Message(Done, LaunchNow)];
      assert [Answer200(Redirect)] + [BridgesSet] + [Completed] + [Ended]
          == [Answer200(Redirect), BridgesSet, Completed, Ended];
    }
  }

  lemma DecodedOutcome(text: string, sh: Shared, log: seq<Event>, c: Choice, running: bool)
    requires c.body.Decoded?
    ensures var good, logged := [Fitted(c.fits, Ok, AnswerOk(Redirect, text))], [Answer200(Redirect)];
            Alone(Local(Answered(Redirect, 200, text), sh, log), c, running)
            == if c.body.parses then
                 Ends(sh, log, false, true, good + [Message(Ok, DanceComplete)] + [Message(Done, LaunchNow)],
                      logged + [BridgesSet] + [Completed] + [Ended], c.memory)
               else Ends(sh, log, false, true, good + [Message(Err, BadBridgeList)], logged + [Ended], c.memory)
  {
    var good, logged := [Fitted(c.fits, Ok, AnswerOk(Redirect, text))], [Answer200(Redirect)];
    assert log + [] == log && [] + good == good && [] + logged == logged;
    LogsOn(Answered(Redirect, 200, text), sh, log, [], [], Parse(c.body.parses),
           Note(Ok, AnswerOk(Redirect, text), c.fits), Answer200(Redirect), c, running);
    if c.body.parses {
      BridgesOutcome(sh, log, good, logged, c, running);
    } else {
      FailsHere(Parse(false), sh, log, good, logged, Bad(BadBridgeList), c, running);
    }
  }

  lemma BridgesOutcome(sh: Shared, log: seq<Event>, ms: seq<Message>, events: seq<Event>, c: Choice, running: bool)
    ensures Alone(Local(Parse(true), Tell(sh, ms, c.memory), log + events), c, running)
         == Ends(sh, log, false, true, ms + [Message(Ok, DanceComplete)] + [Message(Done, LaunchNow)],
                 events + [BridgesSet] + [Completed] + [Ended], c.memory)
  {
    LogsOn(Parse(true), sh, log, ms, events, Finish, Good(DanceComplete), BridgesSet, c, running);
    FinishOutcome(sh, log, ms + [Message(Ok, DanceComplete)], events + [BridgesSet], c, running);
  }

  lemma FinishOutcome(sh: Shared, log: seq<Event>, ms: seq<Message>, events: seq<Event>, c: Choice, running: bool)
    ensures Alone(Local(Finish, Tell(sh, ms, c.memory), log + events), c, running)
         == Ends(sh, log, false, true, ms + [Message(Done, LaunchNow)], events + [Completed] + [Ended], c.memory)
  {
    LogsOn(Finish, sh, log, ms, events, Leave(false), Note(Done, LaunchNow, true), Completed, c, running);
    EndsHere(sh, log, ms + [Message(Done, LaunchNow)], events + [Completed], c, running);
  }

  // ---------------------------------------------------------------- a poll

  /** The text of the validity check, and whether the dance may start: without a word of the NET about
      it, or within its interval. */
  function Validity(net: Net, now: nat): (Text, bool) {
    if net.when.Interval? then
      if now < net.when.start then (WhenTooEarly, false)
      else if now < net.when.end then (WhenValid, true) else (WhenExpired, false)
    else if net.when == NoWhen then (AlwaysValid, true)
    else (if net.when == NotAString then WhenNotString else WhenMalformed, false)
  }

  /** The first half of a poll. It starts a dance if and only if nobody dances, the status is good and
      there is a NET; it asks the initial gateway if and only if the NET is valid now. */
  lemma PollOutcome(sh: Shared, log: seq<Event>, c: Choice, running: bool)
    ensures var end, m := Alone(Polled(sh, log), c, running), c.memory;
            if sh.dancing || sh.current.status != Ok then end == Local(Reply, sh, log)
            else if sh.net == None then end == Ends(sh, log, true, true, [Message(Err, NoNetSetup)], [], m)
            else
              var (text, valid) := Validity(sh.net.value, c.now);
              if !valid then
                end == Ends(sh, log, true, true, [Message(Err, text)], [Started(sh.net.value), Ended], m)
              else
                end == Alone(Local(Gateway(Initial, true),
                                   Tell(sh.(dancing := true), [Message(Ok, text), Message(Ok, Starting)], m),
                                   log + [Started(sh.net.value)]), c, running)
  {
    if !sh.dancing && sh.current.status == Ok {
      if sh.net == None {
        WriteTells(sh, Bad(NoNetSetup), c.memory);
        assert LocalStep(Polled(sh, log), c, running)
            == Ends(sh, log, true, true, [Message(Err, NoNetSetup)], [], c.memory);
      } else {
        CheckOutcome(sh, log, c, running);
      }
    }
  }

  lemma CheckOutcome(sh: Shared, log: seq<Event>, c: Choice, running: bool)
    requires sh.net.Some? && !sh.dancing
    ensures var net := sh.net.value;
            var (text, valid) := Validity(net, c.now);
            Alone(Local(CheckTime, sh.(dancing := true), log + [Started(net)]), c, running)
            == if valid then
                 Alone(Local(Gateway(Initial, true),
                             Tell(sh.(dancing := true), [Message(Ok, text), Message(Ok, Starting)], c.memory),
                             log + [Started(net)]), c, running)
               else Ends(sh, log, true, true, [Message(Err, text)], [Started(net), Ended], c.memory)
  {
    var start := Local(CheckTime, sh.(dancing := true), log + [Started(sh.net.value)]);
    var n := CheckWhen(sh.net, c.now);
    CheckTimeLater(start, c, running);
    WriteTells(start.sh, n, c.memory);
    TellNext(start.sh, [Message(n.status, n.text)], Good(Starting), c.memory);
    assert log + [Started(sh.net.value)] + [Ended] == log + [Started(sh.net.value), Ended];
    assert [Message(n.status, n.text)] + [Message(Ok, Starting)] == [Message(n.status, n.text), Message(Ok, Starting)];
  }

  /** The poll's first step in the whole system is where it starts alone. */
  lemma PollIsPolled(s: State, t: nat)
    requires Enabled(s, Poll(t))
    ensures var s' := Apply(s, Poll(t));
            Local(s'.pcs[t], s'.sh, s'.log) == Polled(s.sh, s.log) && s'.x == s.x
  {
  }

  /** Its second half: the head of the queue; or, with an empty queue, one wait and then, if the queue
      is still empty, what is shown. */
  lemma ReplyMeans(s: State, t: nat)
    requires Enabled(s, GiveReply(t))
    ensures var s' := Apply(s, GiveReply(t));
            if s.sh.messages != [] then
              && s'.pcs == s.pcs[t := Idle] && s.sh.messages == [s'.replies[|s.replies|].message] + s'.sh.messages
              && |s'.replies| == |s.replies| + 1 && s'.sh.current == s.sh.current
            else if s.pcs[t] == Reply then s' == s.(pcs := s.pcs[t := Waiting])
            else
              && s'.pcs == s.pcs[t := Idle] && s'.sh == s.sh
              && |s'.replies| == |s.replies| + 1 && s'.replies[|s.replies|].message == s.sh.current
  {
  }

  // ---------------------------------------------------------------- a set call

  /** A set call while somebody dances is refused with an error; another one without a value drops the
      NET and says nothing; one with an object installs it and leaves the status good, unless
      memory is short; one with anything else leaves no NET and an error. */
  lemma SetOutcome(sh: Shared, log: seq<Event>, given: Option<Net>, c: Choice)
    ensures NetSet(sh, log, given, c)
         == if sh.dancing then (Tell(sh, [Message(Err, AlreadyDancing)], c.memory), log)
            else if given == None then (sh.(net := None), log)
            else if !given.value.isObject then (Tell(sh.(net := None), [Message(Err, NotAnObject)], c.memory), log)
            else (Tell(sh.(net := given),
                       [Fitted(c.fits, Ok, NetIs(given.value)), Message(Ok, ReadyToDance)], c.memory),
                  log + [Installed(given.value)])
  {
    if sh.dancing {
      WriteTells(sh, Bad(AlreadyDancing), c.memory);
    } else if given.Some? && given.value.isObject {
      var first := Fitted(c.fits, Ok, NetIs(given.value));
      WriteTells(sh.(net := given), Note(Ok, NetIs(given.value), c.fits), c.memory);
      TellNext(sh.(net := given), [first], Good(ReadyToDance), c.memory);
      assert [first] + [Message(Ok, ReadyToDance)] == [first, Message(Ok, ReadyToDance)];
    } else {
      WriteTells(sh.(net := given), Bad(NotAnObject), c.memory);
    }
  }

  /** A call without a value, in the whole system, comes to the same. */
  lemma ResetCallIsNetSet(s: State, t: nat, c: Choice)
    requires Enabled(s, ResetNet(t))
    ensures var done := FinishSet(Apply(s, ResetNet(t)), t, c);
            (done.sh, done.log) == NetSet(s.sh, s.log, None, c) && done.pcs[t] == Idle
  {
    var s1 := ApplyReset(s, t);
    if s1.pcs[t].Rejected? {
      assert !Setting(ApplyNetStep(s1, t, c).pcs[t]);
    }
  }
}
