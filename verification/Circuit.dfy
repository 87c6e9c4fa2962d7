/** The circuit of one tab (plugin/jumpbox_plugin_chrome/circuit.js): requests to the daemon and
    to the stego server, and restart timers, each started by the callback of the one before.
    Everything in flight is counted, so that "one at a time" is a theorem and not a shape. */
module Circuits {
  import opened Collections
  import opened Headers
  import opened Relay
  import opened Transparency

  /** The counters, how many requests of either kind are in flight, and the timers that run. */
  datatype State = State(
    requestsIn: nat, requestsOut: nat, restarts: nat,
    toDaemon: nat, toServer: nat, timers: seq<nat>)

  /** What calls back. An XMLHttpRequest reports every change of its state; 4 is the last. */
  datatype Event =
    | DaemonReply(readyState: nat, answer: Reply)
    | ServerReply(readyState: nat, response: Reply)
    | TimerFired(index: nat)

  predicate Enabled(s: State, e: Event) {
    match e
    case DaemonReply(_, _) => s.toDaemon > 0
    case ServerReply(_, _) => s.toServer > 0
    case TimerFired(i) => i < |s.timers|
  }

  const READY: nat := 4

  /** Restarts back off in steps of a second, and start over every ten restarts. */
  function Wait(restarts: nat): nat {
    2000 + (restarts % 10) * 1000
  }

  function Ask(s: State): State {
    s.(toDaemon := s.toDaemon + 1, requestsOut := s.requestsOut + 1)
  }

  function Step(s: State, e: Event): State
    requires Enabled(s, e)
  {
    match e
    case DaemonReply(readyState, answer) =>
      if readyState != READY then s
      else
        var t := s.(toDaemon := s.toDaemon - 1);
        if answer.status == 200 then
          if Translated(answer).Thrown? then t
          else t.(toServer := t.toServer + 1, requestsIn := t.requestsIn + 1)
        else if answer.status == 0 then
          t.(restarts := t.restarts + 1, timers := t.timers + [Wait(t.restarts + 1)])
        else t
    case ServerReply(readyState, response) =>
      if readyState != READY then s
      else
        var t := s.(toServer := s.toServer - 1);
        if response.body == None then t else Ask(t)
    case TimerFired(i) => Ask(s.(timers := RemoveAt(s.timers, i)))
  }

  function Init(): State { Ask(State(0, 0, 0, 0, 0, [])) }

  predicate Legal(s: State, events: seq<Event>)
    decreases |events|
  {
    events == [] || (Enabled(s, events[0]) && Legal(Step(s, events[0]), events[1..]))
  }

  function Run(s: State, events: seq<Event>): State
    requires Legal(s, events)
    decreases |events|
  {
    if events == [] then s else Run(Step(s, events[0]), events[1..])
  }

  // ---------------------------------------------------------------- the callbacks

  class Circuit {
    var requestsIn: nat
    var requestsOut: nat
    var restarts: nat

    ghost var toDaemon: nat
    ghost var toServer: nat
    ghost var timers: seq<nat>

    ghost function View(): State
      reads this
    {
      State(requestsIn, requestsOut, restarts, toDaemon, toServer, timers)
    }

    constructor ()
      ensures View() == Init()
    {
      requestsIn, requestsOut, restarts := 0, 0, 0;
      toDaemon, toServer, timers := 0, 0, [];
      new;
      JbNext();
    }

    method AddRequestIn()
      modifies this`requestsIn
      ensures requestsIn == old(requestsIn) + 1
    {
      requestsIn := requestsIn + 1;
    }

    method AddRequestOut()
      modifies this`requestsOut
      ensures requestsOut == old(requestsOut) + 1
    {
      requestsOut := requestsOut + 1;
    }

    /** A request to the daemon, with nothing to push. */
    method JbNext()
      modifies this`requestsOut, this`toDaemon
      ensures View() == Ask(old(View()))
    {
      toDaemon := toDaemon + 1;
      AddRequestOut();
    }

    method Restart() returns (w: nat)
      modifies this`restarts, this`timers
      ensures restarts == old(restarts) + 1 && w == Wait(restarts) && timers == old(timers) + [w]
    {
      restarts := restarts + 1;
      w := 2000 + (restarts % 10) * 1000;
      timers := timers + [w];
    }

    method HandleTimer(ghost index: nat)
      requires Enabled(View(), TimerFired(index))
      modifies this`timers, this`requestsOut, this`toDaemon
      ensures View() == Step(old(View()), TimerFired(index))
    {
      timers := RemoveAt(timers, index);
      JbNext();
    }

    method HandleJbNextResponse(readyState: nat, answer: Reply)
      requires Enabled(View(), DaemonReply(readyState, answer))
      modifies this
      ensures View() == Step(old(View()), DaemonReply(readyState, answer))
    {
      if readyState == 4 {
        toDaemon := toDaemon - 1;
        if answer.status == 200 {
          var request := new Xhr();
          var thrown, contents := JbResponse2Request(answer, request);
          if thrown {
            return;
          }
          toServer := toServer + 1;
          AddRequestIn();
        } else {
          if answer.status == 0 {
            var w := Restart();
          }
        }
      }
    }

    method HandleSsPushResponse(readyState: nat, response: Reply, seqNo: string, uri: string)
      requires Enabled(View(), ServerReply(readyState, response))
      modifies this
      ensures View() == Step(old(View()), ServerReply(readyState, response))
    {
      if readyState == 4 {
        toServer := toServer - 1;
        var request := new Xhr();
        var thrown, contents := SsResponse2Request(response, seqNo, uri, request);
        if thrown {
          return;
        }
        toDaemon := toDaemon + 1;
        AddRequestOut();
      }
    }
  }

  // ---------------------------------------------------------------- one thing at a time

  function Pending(s: State): nat { s.toDaemon + s.toServer + |s.timers| }

  predicate Live(s: State) { Pending(s) > 0 }

  /** Events that end a circuit: an answer of the daemon that is neither 200 nor a failure to
      reach it, one that cannot be translated, and a server response without a body object. */
  predicate Fatal(e: Event) {
    match e
    case DaemonReply(readyState, answer) =>
      readyState == READY && answer.status != 0 && (answer.status == 200 ==> Translated(answer).Thrown?)
    case ServerReply(readyState, response) => readyState == READY && response.body == None
    case TimerFired(_) => false
  }

  /** Whether a circuit that stopped did so on the daemon's answer. `last` is the last event. */
  predicate Balanced(s: State, events: seq<Event>) {
    var owed := if Live(s) then s.toDaemon
                else if events != [] && events[|events| - 1].DaemonReply? then 1 else 0;
    && Pending(s) <= 1
    && s.requestsOut == s.requestsIn + s.restarts + owed
    && (s.timers != [] ==> s.timers == [Wait(s.restarts)])
    && (!Live(s) ==> events != [] && Fatal(events[|events| - 1]))
    && (Live(s) ==> forall e :: e in events ==> !Fatal(e))
  }

  lemma StepBalances(s: State, e: Event, events: seq<Event>)
    requires Enabled(s, e) && Balanced(s, events)
    ensures Balanced(Step(s, e), events + [e])
    ensures Live(Step(s, e)) <==> !Fatal(e)
  {
    assert (events + [e])[|events + [e]| - 1] == e;
  }

  lemma PastAndRest(past: seq<Event>, events: seq<Event>)
    ensures events == [] ==> past + events == past
    ensures events != [] ==> (past + [events[0]]) + events[1..] == past + events
  {
  }

  /** `all` is the whole history: what is past, and the events to come. */
  lemma {:induction false} RunBalances(s: State, past: seq<Event>, events: seq<Event>, all: seq<Event>)
    requires Legal(s, events) && Balanced(s, past) && all == past + events
    ensures Balanced(Run(s, events), all)
    decreases |events|
  {
    PastAndRest(past, events);
    if events != [] {
      StepBalances(s, events[0], past);
      RunBalances(Step(s, events[0]), past + [events[0]], events[1..], all);
    }
  }

  /** In every reachable state a circuit that has not stopped has exactly one thing pending. The
      requests sent to the daemon are those answered, plus the restarts, plus one when a request
      to the daemon is pending or the circuit stopped on the daemon's answer. It stopped if and
      only if there was a fatal event, and then that was the last. */
  lemma CircuitInvariant(events: seq<Event>)
    requires Legal(Init(), events)
    ensures var s := Run(Init(), events);
            var stopped := exists e :: e in events && Fatal(e);
            && Pending(s) == (if stopped then 0 else 1)
            && (stopped ==> Fatal(events[|events| - 1]))
            && s.requestsOut == s.requestsIn + s.restarts
                                + (if s.toDaemon == 1 || (stopped && events[|events| - 1].DaemonReply?) then 1 else 0)
            && (s.timers != [] ==> s.timers == [2000 + s.restarts % 10 * 1000])
  {
    RunBalances(Init(), [], events, events);
    var s := Run(Init(), events);
    if !Live(s) {
      assert events[|events| - 1] in events;
    }
  }

  // ---------------------------------------------------------------- what the counters count

  predicate Unreached(e: Event) { e.DaemonReply? && e.readyState == READY && e.answer.status == 0 }
  predicate Relayed(e: Event) {
    e.DaemonReply? && e.readyState == READY && e.answer.status == 200 && Translated(e.answer).Built?
  }

  /** Requests in are the daemon's answers that were sent on; restarts are the failures. */
  lemma {:induction false} CountersCount(s: State, events: seq<Event>)
    requires Legal(s, events)
    ensures var t := Run(s, events);
            && t.requestsIn == s.requestsIn + Total(events, e => if Relayed(e) then 1 else 0)
            && t.restarts == s.restarts + Total(events, e => if Unreached(e) then 1 else 0)
    decreases |events|
  {
    if events != [] {
      CountersCount(Step(s, events[0]), events[1..]);
    }
  }

  /** The daemon's own answer to a pull stops a circuit exactly when the client's method is
      neither GET nor POST. */
  lemma ForwardStopsCircuit(r: ClientRequest)
    ensures Fatal(DaemonReply(READY, Forward(r))) <==> r.verb != "GET" && r.verb != "POST"
  {
    TranslatedForward(r);
  }
}
