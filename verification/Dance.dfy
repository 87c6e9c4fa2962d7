/** The ACS dance running on top of the proxy exchange (server/acs.c).

    A poll of /acs/progress/ starts the dance, which puts a request to the initial gateway into
    the exchange; the callback that a push runs for that request waits and puts a second one, to
    the redirect gateway, into it; that one's callback completes the dance. The daemon's HTTP
    threads run all of this, so thread `t` here is the thread `t` that holds records in the
    exchange. Every section between two lock operations is one action. */
module Dance {
  import opened Collections
  import opened SeqNo
  import Decimal
  import X = Exchange

  datatype Phase = Initial | Redirect

  /** The optional field "when" of a NET, parsed. */
  datatype When = NoWhen | NotAString | Malformed | Interval(start: nat, end: nat)

  /** A parsed NET. `root` identifies the JSON value, whose references are counted. */
  datatype Net = Net(
    root: nat,
    isObject: bool,
    initial: Option<string>,
    redirect: Option<string>,
    window: Option<nat>,
    wait: Option<nat>,
    when: When)

  // ---------------------------------------------------------------- status messages

  datatype Status = Err | Ok | Done

  /** The texts that acs_status is called with. */
  datatype Text =
    | Initialized
    | NoNetSetup
    | AlwaysValid
    | WhenNotString
    | WhenMalformed
    | WhenTooEarly
    | WhenExpired
    | WhenValid
    | Starting
    | NoGateway(ph: Phase)
    | NoClient
    | NoUserdata
    | RequestSent(ph: Phase)
    | Slipped
    | AnswerFailed(ph: Phase, code: int, text: string)
    | AnswerOk(ph: Phase, text: string)
    | NoWindow
    | NoWait
    | Moonwalking(w: nat)
    | MoonwalkAborted
    | MoonwalkDone
    | NoLength
    | NoBodyMemory
    | DestegFailed
    | DanceComplete
    | LaunchNow
    | BadBridgeList
    | AlreadyDancing
    | NotAnObject
    | NetIs(net: Net)
    | ReadyToDance
    | TooLong

  /** A call of acs_status; `fits` is whether the formatted text fits its 256 bytes. */
  datatype Note = Note(status: Status, text: Text, fits: bool)

  function Good(text: Text): Note { Note(Ok, text, true) }
  function Bad(text: Text): Note { Note(Err, text, true) }

  datatype Message = Message(status: Status, text: Text)

  function Posted(n: Note): Message {
    if n.fits then Message(n.status, n.text) else Message(Err, TooLong)
  }

  /** What the two mutexes protect. `lock` is the thread inside acs_set_net, which holds the
      dancing mutex throughout. */
  datatype Shared = Shared(
    dancing: bool,
    net: Option<Net>,
    lock: Option<nat>,
    current: Message,
    messages: seq<Message>)

  /** acs_status: without memory the message is shown but not queued, and the status is an error. */
  function Write(sh: Shared, n: Note, memory: bool): Shared {
    var m := Posted(n);
    if memory then sh.(current := m, messages := sh.messages + [m])
    else sh.(current := Message(Err, m.text))
  }

  // ---------------------------------------------------------------- threads

  /** Where a thread is. `polling` tells a poll of /acs/progress/ from a push's callback. */
  datatype Pc =
    | Idle
    // acs_progress
    | ReportNoNet
    | CheckTime
    | Announce
    | Reply
    | Waiting
    // acs_initial, acs_redirect, acs_request, acs_sitdown
    | Gateway(ph: Phase, polling: bool)
    | Ask(ph: Phase, gateway: string, polling: bool)
    | Sent(ph: Phase, polling: bool)
    | SlipLeave(ph: Phase, polling: bool)
    | Leave(polling: bool)
    // acs_initial_answer, acs_wait, acs_redirect_answer
    | Answered(ph: Phase, code: int, text: string)
    | CheckRunning
    | Walk
    | Sleeping(w: nat)
    | CheckAgain
    | Parse(ok: bool)
    | Finish
    | Return
    | PutBack
    // acs_set_net, with the root its caller still holds
    | Rejected(refused: Option<Net>)
    | Describe(net: Net)
    | Ready(net: Net)
    | NetBad(net: Net)
    | Release(net: Net)

  /** The state of the redirect answer's body when its callback runs. */
  datatype Body = Missing | NoRoom | Unread | Undecodable | Decoded(parses: bool)

  /** How the allocations of acs_request went. */
  datatype Grant = ClientFailed | UserdataFailed | RecordFailed | Granted(key: Key)

  /** What one step may depend on besides the state. */
  datatype Choice = Choice(
    memory: bool,
    fits: bool,
    now: nat,
    random: nat,
    slept: bool,
    body: Body,
    grant: Grant)

  /** What the dance did so far. */
  datatype Event =
    | Installed(net: Net)
    | Started(net: Net)
    | Asked(ph: Phase, gateway: string)
    | Answer200(ph: Phase)
    | Walked(w: nat)
    | BridgesSet
    | Completed
    | Ended

  datatype Effect = Effect(pc: Pc, note: Option<Note>, event: Option<Event>, stuck: bool)

  function Say(pc: Pc, n: Note): Effect { Effect(pc, Some(n), None, false) }
  function Go(pc: Pc): Effect { Effect(pc, None, None, false) }

  function CallbackOf(ph: Phase): X.Callback {
    match ph
    case Initial => X.InitialAnswer
    case Redirect => X.RedirectAnswer
  }

  function GatewayOf(net: Option<Net>, ph: Phase): Option<string> {
    if net == None then None
    else if ph == Initial then net.value.initial
    else net.value.redirect
  }

  /** acs_when. A dance may start without a NET's say in the matter, or within its interval: from
      its first second on, and not at its last or after. */
  function CheckWhen(net: Option<Net>, now: nat): (n: Note)
    ensures n.status == Ok <==> || net == None || net.value.when == NoWhen
                                || (net.value.when.Interval? && net.value.when.start <= now < net.value.when.end)
    ensures n.status == Ok || n.status == Err
    ensures n.fits
  {
    if net == None then Good(AlwaysValid)
    else match net.value.when
         case NoWhen => Good(AlwaysValid)
         case NotAString => Bad(WhenNotString)
         case Malformed => Bad(WhenMalformed)
         case Interval(start, end) =>
           if now < start then Bad(WhenTooEarly) else if now >= end then Bad(WhenExpired) else Good(WhenValid)
  }

  /** What the check says: which of its five texts, by the NET and the time alone. */
  lemma WhenSays(net: Option<Net>, now: nat)
    ensures var n := CheckWhen(net, now);
            && (n.text == AlwaysValid <==> net == None || net.value.when == NoWhen)
            && (n.text == WhenNotString <==> net.Some? && net.value.when == NotAString)
            && (n.text == WhenMalformed <==> net.Some? && net.value.when == Malformed)
            && (n.text == WhenTooEarly <==> net.Some? && net.value.when.Interval? && now < net.value.when.start)
            && (n.text == WhenExpired <==>
                  && net.Some? && net.value.when.Interval?
                  && net.value.when.start <= now && net.value.when.end <= now)
            && (n.text == WhenValid <==>
                  net.Some? && net.value.when.Interval? && net.value.when.start <= now < net.value.when.end)
  {
  }

  /** The waiting time: 64-bit arithmetic. */
  function WalkTime(wait: nat, window: nat, random: nat): nat
    requires window > 0
  {
    (wait + random % window) % TWO_TO_THE_64
  }

  /** The dance's own steps: what a thread does next, given the shared NET. */
  predicate Stepping(pc: Pc, net: Option<Net>) {
    match pc
    case Idle => false
    case Reply => false
    case Waiting => false
    case Return => false
    case PutBack => false
    case Rejected(_) => false
    case Describe(_) => false
    case Ready(_) => false
    case NetBad(_) => false
    case Release(_) => false
    // with both numbers there, a window of zero is a division by zero: the daemon does not get past it
    case Walk => net.Some? && net.value.wait.Some? ==> net.value.window != Some(0)
    case _ => true
  }

  predicate Leaving(pc: Pc) {
    pc.Leave? || pc.SlipLeave?
  }

  /** acs_request puts a request into the exchange. */
  predicate Asking(pc: Pc, c: Choice, running: bool) {
    pc.Ask? && running && c.grant.Granted?
  }

  function Back(polling: bool): Pc {
    if polling then Reply else Return
  }

  function Next(pc: Pc, c: Choice, running: bool, net: Option<Net>): Effect
    requires Stepping(pc, net)
  {
    match pc
    case ReportNoNet => Say(Reply, Bad(NoNetSetup))
    case CheckTime =>
      var n := CheckWhen(net, c.now);
      Say(if n.status == Ok then Announce else Leave(true), n)
    case Announce => Say(Gateway(Initial, true), Good(Starting))
    case Gateway(ph, polling) =>
      (match GatewayOf(net, ph)
       case None => Say(Leave(polling), Bad(NoGateway(ph)))
       case Some(gw) => Go(Ask(ph, gw, polling)))
    case Ask(ph, gw, polling) =>
      if !running then Say(SlipLeave(ph, polling), Bad(Slipped))
      else (match c.grant
            case ClientFailed => Say(Leave(polling), Bad(NoClient))
            case UserdataFailed => Say(Leave(polling), Bad(NoUserdata))
            case RecordFailed => Go(Leave(polling))
            case Granted(_) => Effect(Sent(ph, polling), None, Some(Asked(ph, gw)), false))
    case Sent(ph, polling) => Say(Back(polling), Good(RequestSent(ph)))
    case SlipLeave(ph, polling) => Effect(Sent(ph, polling), None, Some(Ended), false)
    case Leave(polling) => Effect(Back(polling), None, Some(Ended), false)
    case Answered(ph, code, text) =>
      if code != 200 then Say(Leave(false), Note(Err, AnswerFailed(ph, code, text), c.fits))
      else if ph == Initial then
        Effect(CheckRunning, Some(Note(Ok, AnswerOk(Initial, text), c.fits)), Some(Answer200(Initial)), false)
      else (match c.body
            case Missing => Say(Leave(false), Bad(NoLength))
            case NoRoom => Say(Leave(false), Bad(NoBodyMemory))
            case Unread => Go(PutBack)
            case Undecodable => Say(Leave(false), Bad(DestegFailed))
            case Decoded(parses) =>
              Effect(Parse(parses), Some(Note(Ok, AnswerOk(Redirect, text), c.fits)), Some(Answer200(Redirect)), false))
    case CheckRunning => if running then Go(Walk) else Say(Leave(false), Bad(Slipped))
    case Walk =>
      if net == None || net.value.window == None then Say(Leave(false), Bad(NoWindow))
      else if net.value.wait == None then Say(Leave(false), Bad(NoWait))
      else
        var w := WalkTime(net.value.wait.value, net.value.window.value, c.random);
        Say(Sleeping(w), Good(Moonwalking(w)))
    case Sleeping(w) =>
      if c.slept then Effect(CheckAgain, Some(Good(MoonwalkDone)), Some(Walked(w)), false)
      else Effect(Return, Some(Bad(MoonwalkAborted)), None, true)
    case CheckAgain => if running then Go(Gateway(Redirect, false)) else Say(Leave(false), Bad(Slipped))
    case Parse(ok) =>
      if ok then Effect(Finish, Some(Good(DanceComplete)), Some(BridgesSet), false)
      else Say(Leave(false), Bad(BadBridgeList))
    case Finish => Effect(Leave(false), Some(Note(Done, LaunchNow, true)), Some(Completed), false)
  }

  // ---------------------------------------------------------------- the whole system

  /** A reply to a poll: popped from the queue, or the current message. `seen` is how many
      messages had been queued before it. */
  datatype PollReply = PollReply(message: Message, queued: bool, seen: nat)

  datatype State = State(
    x: X.State,
    pcs: seq<Pc>,
    sh: Shared,
    running: bool,
    // history
    log: seq<Event>,
    stuck: nat,
    appended: seq<Message>,
    replies: seq<PollReply>,
    refs: map<nat, nat>,
    freed: seq<nat>)

  datatype Action =
    | Other(a: X.Action)
    | TakeAnswer(t: nat, push: X.Push)
    | Step(t: nat, c: Choice)
    | EndPush(t: nat)
    | RetryPush(t: nat)
    | Poll(t: nat)
    | GiveReply(t: nat)
    | SetNet(t: nat, net: Net)
    | ResetNet(t: nat)
    | NetStep(t: nat, c: Choice)
    | Stop

  function Init(workers: nat, threads: nat): State {
    var m := Posted(Good(Initialized));
    State(X.Init(workers, threads), seq(threads, _ => Idle), Shared(false, None, None, m, [m]), true,
          [], 0, [m], [], map[], [])
  }

  predicate Available(s: State, t: nat) {
    t < |s.pcs| && t < |s.x.hands| && s.pcs[t] == Idle && s.x.hands[t].Free?
  }

  /** Exchange steps that do not concern the daemon's own requests in a thread's hand. */
  predicate Foreign(s: State, a: X.Action) {
    && X.Enabled(s.x, a)
    && match a
       case Accept(_, callback) => callback == X.NoCallback
       case PushTake(h, push) =>
         && h < |s.pcs| && s.pcs[h] == Idle
         && var l := X.Find(s.x.out, push);
            (l.Found? ==> s.x.out[l.index].callback == X.NoCallback)
       case PushPutBack(_) => false
       case PushDone(h, _) => h < |s.pcs| && s.pcs[h] == Idle
       case CloseTake(h, _) => h < |s.pcs| && s.pcs[h] == Idle
       case _ => true
  }

  /** Losing one of the daemon's own requests. */
  predicate LosesOwn(x: X.State, a: X.Action)
    requires X.Enabled(x, a)
  {
    (a.GiveUp? || a.Drop?) && x.workers[a.w].r.callback != X.NoCallback
  }

  predicate Enabled(s: State, a: Action) {
    match a
    case Other(b) => Foreign(s, b)
    case TakeAnswer(t, push) =>
      && Available(s, t) && X.Enabled(s.x, X.PushTake(t, push))
      && var l := X.Find(s.x.out, push);
         l.Found? && s.x.out[l.index].callback != X.NoCallback
    case Step(t, c) =>
      && t < |s.pcs| && Stepping(s.pcs[t], s.sh.net)
      && (Leaving(s.pcs[t]) ==> s.sh.lock == None)
      && (Asking(s.pcs[t], c, s.running) ==> c.grant.key !in s.x.hist.accepted)
    case EndPush(t) => t < |s.pcs| && s.pcs[t] == Return && X.Enabled(s.x, X.PushDone(t, true))
    case RetryPush(t) => t < |s.pcs| && s.pcs[t] == PutBack && X.Enabled(s.x, X.PushPutBack(t))
    case Poll(t) => Available(s, t) && s.sh.lock == None
    case GiveReply(t) => t < |s.pcs| && (s.pcs[t] == Reply || s.pcs[t] == Waiting)
    case SetNet(t, net) => Available(s, t) && s.sh.lock == None && net.root !in s.refs
    case ResetNet(t) => Available(s, t) && s.sh.lock == None
    case NetStep(t, _) => t < |s.pcs| && Setting(s.pcs[t])
    case Stop => true
  }

  predicate Setting(pc: Pc) {
    pc.Rejected? || pc.Describe? || pc.Ready? || pc.NetBad? || pc.Release?
  }

  /** Queueing a message. */
  function Append(ms: seq<Message>, n: Note, memory: bool): seq<Message> {
    if memory then ms + [Posted(n)] else ms
  }

  function Apply(s: State, a: Action): State
    requires Enabled(s, a)
  {
    match a
    case Other(b) => ApplyOther(s, b)
    case TakeAnswer(t, push) => ApplyTake(s, t, push)
    case Step(t, c) => Perform(s, t, c, Next(s.pcs[t], c, s.running, s.sh.net))
    case EndPush(t) => s.(x := X.Apply(s.x, X.PushDone(t, true)), pcs := s.pcs[t := Idle])
    case RetryPush(t) => s.(x := X.Apply(s.x, X.PushPutBack(t)), pcs := s.pcs[t := Idle])
    case Poll(t) => ApplyPoll(s, t)
    case GiveReply(t) => ApplyReply(s, t)
    case SetNet(t, net) => ApplySetNet(s, t, net)
    case ResetNet(t) => ApplyReset(s, t)
    case NetStep(t, c) => ApplyNetStep(s, t, c)
    case Stop => s.(running := false)
  }

  function ApplyOther(s: State, b: X.Action): State
    requires Foreign(s, b)
  {
    s.(x := X.Apply(s.x, b), stuck := if LosesOwn(s.x, b) then s.stuck + 1 else s.stuck)
  }

  function ApplyTake(s: State, t: nat, push: X.Push): State
    requires Enabled(s, TakeAnswer(t, push))
  {
    var r := s.x.out[X.Find(s.x.out, push).index];
    var ph := if r.callback == X.InitialAnswer then Initial else Redirect;
    s.(x := X.Apply(s.x, X.PushTake(t, push)),
       pcs := s.pcs[t := Answered(ph, Decimal.Atoi(push.httpcode), push.httptext)])
  }

  /** What the dance's step puts into the exchange. */
  function Exchanged(s: State, pc: Pc, c: Choice): X.State
    requires Asking(pc, c, s.running) ==> c.grant.key !in s.x.hist.accepted
  {
    if Asking(pc, c, s.running) then X.Apply(s.x, X.Accept(c.grant.key, CallbackOf(pc.ph))) else s.x
  }

  function Perform(s: State, t: nat, c: Choice, e: Effect): State
    requires t < |s.pcs|
    requires Asking(s.pcs[t], c, s.running) ==> c.grant.key !in s.x.hist.accepted
  {
    var sh := s.sh.(dancing := s.sh.dancing && !Leaving(s.pcs[t]));
    s.(x := Exchanged(s, s.pcs[t], c),
       pcs := s.pcs[t := e.pc],
       sh := if e.note.Some? then Write(sh, e.note.value, c.memory) else sh,
       log := if e.event.Some? then s.log + [e.event.value] else s.log,
       stuck := s.stuck + (if e.stuck then 1 else 0),
       appended := if e.note.Some? then Append(s.appended, e.note.value, c.memory) else s.appended)
  }

  /** The check at the start of acs_progress, under both mutexes. */
  function ApplyPoll(s: State, t: nat): State
    requires t < |s.pcs|
  {
    if s.sh.dancing || s.sh.current.status != Ok then s.(pcs := s.pcs[t := Reply])
    else if s.sh.net == None then s.(pcs := s.pcs[t := ReportNoNet])
    else s.(sh := s.sh.(dancing := true), log := s.log + [Started(s.sh.net.value)], pcs := s.pcs[t := CheckTime])
  }

  /** A poll waits once when the queue is empty, then answers with what there is. */
  function ApplyReply(s: State, t: nat): State
    requires t < |s.pcs| && (s.pcs[t] == Reply || s.pcs[t] == Waiting)
  {
    if s.sh.messages != [] then
      s.(sh := s.sh.(messages := s.sh.messages[1..]),
         replies := s.replies + [PollReply(s.sh.messages[0], true, |s.appended|)],
         pcs := s.pcs[t := Idle])
    else if s.pcs[t] == Reply then s.(pcs := s.pcs[t := Waiting])
    else s.(replies := s.replies + [PollReply(s.sh.current, false, |s.appended|)], pcs := s.pcs[t := Idle])
  }

  /** The reference counts of the values parsed so far, and the values freed so far. */
  type Counts = map<nat, nat>

  function CountOf(refs: Counts, root: nat): nat {
    if root in refs then refs[root] else 0
  }

  function Incref(refs: Counts, root: nat): Counts {
    refs[root := CountOf(refs, root) + 1]
  }

  /** Dropping one reference; the last one frees the value. */
  function Decref(refs: Counts, freed: seq<nat>, root: nat): (Counts, seq<nat>) {
    var left := if CountOf(refs, root) > 0 then CountOf(refs, root) - 1 else 0;
    (refs[root := left], if left == 0 then freed + [root] else freed)
  }

  /** The same for the NET that is being replaced, if there is one. */
  function DropOld(refs: Counts, freed: seq<nat>, before: Option<Net>): (Counts, seq<nat>) {
    if before.Some? then Decref(refs, freed, before.value.root) else (refs, freed)
  }

  /** A caller of acs_set_net comes with a freshly parsed value, of which it holds a reference. */
  function ApplySetNet(s: State, t: nat, net: Net): State
    requires t < |s.pcs|
  {
    if s.sh.dancing then
      s.(refs := Incref(s.refs, net.root), pcs := s.pcs[t := Rejected(Some(net))])
    else
      var (refs, freed) := DropOld(s.refs, s.freed, s.sh.net);
      s.(refs := Incref(refs, net.root), freed := freed,
         sh := s.sh.(net := Some(net), lock := Some(t)),
         log := if net.isObject then s.log + [Installed(net)] else s.log,
         pcs := s.pcs[t := if net.isObject then Describe(net) else NetBad(net)])
  }

  function ApplyReset(s: State, t: nat): State
    requires t < |s.pcs|
  {
    if s.sh.dancing then s.(pcs := s.pcs[t := Rejected(None)])
    else
      var (refs, freed) := DropOld(s.refs, s.freed, s.sh.net);
      s.(refs := refs, freed := freed, sh := s.sh.(net := None))
  }

  function ApplyNetStep(s: State, t: nat, c: Choice): State
    requires t < |s.pcs| && Setting(s.pcs[t])
  {
    match s.pcs[t]
    case Rejected(refused) =>
      s.(sh := Write(s.sh, Bad(AlreadyDancing), c.memory),
         appended := Append(s.appended, Bad(AlreadyDancing), c.memory),
         pcs := s.pcs[t := if refused.Some? then Release(refused.value) else Idle])
    case Describe(net) =>
      s.(sh := Write(s.sh, Note(Ok, NetIs(net), c.fits), c.memory),
         appended := Append(s.appended, Note(Ok, NetIs(net), c.fits), c.memory),
         pcs := s.pcs[t := Ready(net)])
    case Ready(net) =>
      s.(sh := Write(s.sh, Good(ReadyToDance), c.memory).(lock := None),
         appended := Append(s.appended, Good(ReadyToDance), c.memory),
         refs := Incref(s.refs, net.root),
         pcs := s.pcs[t := Release(net)])
    case NetBad(net) =>
      s.(sh := Write(s.sh, Bad(NotAnObject), c.memory).(net := None, lock := None),
         appended := Append(s.appended, Bad(NotAnObject), c.memory),
         pcs := s.pcs[t := Release(net)])
    case Release(net) =>
      var (refs, freed) := Decref(s.refs, s.freed, net.root);
      s.(refs := refs, freed := freed, pcs := s.pcs[t := Idle])
  }

  // ---------------------------------------------------------------- runs

  predicate Legal(s: State, acts: seq<Action>)
    decreases |acts|
  {
    acts == [] || (Enabled(s, acts[0]) && Legal(Apply(s, acts[0]), acts[1..]))
  }

  function Run(s: State, acts: seq<Action>): State
    requires Legal(s, acts)
    decreases |acts|
  {
    if acts == [] then s else Run(Apply(s, acts[0]), acts[1..])
  }
}
