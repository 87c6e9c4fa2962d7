/** The rendezvous handlers and the proof-of-work thread as they are written
    (server/rendezvous.c): variables changed in place. Every method is tied to a step of the
    transition system in module Rendezvous. */
module RendezvousState {
  import opened Collections
  import opened Rendezvous
  import opened RendezvousPeels

  /** What a peel request is told. */
  datatype Answer =
    | NoOnion | NotImplemented | PeelingFailed
    | NetPassed | NetUnparsed
    | PowCommenced | PowNotCreated | PowWorking | PowFailed | PowDone
    | CaptchaImage | CaptchaSolved | CaptchaTryAgain
    | SignatureVerified | SignatureNot

  /** The answer follows from the state before the request and from what foreign code decides. */
  function AnswerTo(s: State, ok: bool): Answer {
    if s.current == None then NoOnion
    else
      match s.current.value.onion
      case Base(_) => if ok then NetPassed else NetUnparsed
      case Pow(_) =>
        if !s.started then (if ok then PowCommenced else PowNotCreated)
        else if !s.finished then PowWorking
        else if s.inner == None then PowFailed else PowDone
      case Captcha(_) =>
        if s.captcha == None then (if ok then CaptchaImage else PeelingFailed)
        else if ok then CaptchaSolved else CaptchaTryAgain
      case Signed(_) => if ok then SignatureVerified else SignatureNot
      case Bundle => NotImplemented
  }

  /** A request is answered with success if and only if it did what the answer says; after any other
      answer everything is as before, and the answer says what was wrong. */
  lemma AnswerMeans(s: State, ok: bool)
    ensures var t, answer := PeelCurrent(s, ok), AnswerTo(s, ok);
            && (answer in {SignatureVerified, CaptchaSolved, PowDone} <==> t.hist.peels > s.hist.peels)
            && (answer == NetPassed <==> |t.hist.nets| > |s.hist.nets|)
            && (answer == PowCommenced <==> |t.workers| > |s.workers|)
            && (answer == CaptchaImage <==> |t.hist.shown| > |s.hist.shown|)
            && (answer !in {SignatureVerified, CaptchaSolved, PowDone, NetPassed, PowCommenced, CaptchaImage}
                <==> t == s)
  {
    if s.current.Some? && s.current.value.onion.Pow? && s.started {
      PowPeel(s, ok);
    } else if ok && s.current.Some? {
      SuccessfulPeel(s);
    } else {
      FailedPeelKeeps(s);
    }
  }

  lemma AnswerSaysWhy(s: State, ok: bool)
    ensures AnswerTo(s, ok) == NoOnion <==> s.current == None
    ensures s.current.Some? ==>
              var o, answer := s.current.value.onion, AnswerTo(s, ok);
              && (answer == NotImplemented <==> o.Bundle?)
              && (answer in {NetPassed, NetUnparsed} <==> o.Base?)
              && (answer in {SignatureVerified, SignatureNot} <==> o.Signed?)
              && (answer in {CaptchaImage, PeelingFailed} <==> o.Captcha? && s.captcha == None)
              && (answer in {CaptchaSolved, CaptchaTryAgain} <==> o.Captcha? && s.captcha.Some?)
              && (answer in {PowCommenced, PowNotCreated} <==> o.Pow? && !s.started)
              && (answer == PowWorking <==> o.Pow? && s.started && !s.finished)
              && (answer == PowFailed <==> o.Pow? && s.started && s.finished && s.inner == None)
  {
  }

  class Rdv {
    var currentOnion: Option<Obj>
    var currentImage: bool
    var captchaImage: Option<nat>
    var powStarted: bool
    var powFinished: bool
    var powQuit: bool
    var powInnerOnion: Option<Obj>

    /* the next allocation's address */
    var heap: nat

    ghost var workers: seq<Worker>
    ghost var hist: History

    ghost function View(): State
      reads this
    {
      State(currentOnion, currentImage, captchaImage, powStarted, powFinished, powInnerOnion,
            workers, hist.(next := heap))
    }

    constructor ()
      ensures View() == Init()
    {
      currentOnion, currentImage, captchaImage := None, false, None;
      powStarted, powFinished, powQuit, powInnerOnion := false, false, false, None;
      heap, workers, hist := 0, [], History(0, Bundle, 0, [], [], [], [], []);
    }

    method NewOnion(onion: Onion) returns (o: Obj)
      modifies this`heap
      ensures o == Obj(old(heap), onion) && heap == old(heap) + 1
    {
      o := Obj(heap, onion);
      heap := heap + 1;
    }

    // -------------------------------------------------------------- resets

    method FreeOnion(o: Obj)
      modifies this`hist
      ensures View() == Free(old(View()), Some(o))
    {
      hist := hist.(freed := hist.freed + [o.id]);
    }

    method OnionReset()
      modifies this`hist, this`currentOnion
      ensures View() == Free(old(View()), old(currentOnion)).(current := None)
    {
      if currentOnion.Some? {
        FreeOnion(currentOnion.value);
        currentOnion := None;
      }
    }

    method PowReset()
      modifies this`hist, this`powQuit, this`powInnerOnion, this`powStarted, this`powFinished
      ensures View() == ResetPow(old(View()))
      ensures !powStarted && (old(powStarted) ==> !powFinished && powInnerOnion == None)
      ensures hist.freed == old(hist.freed) + if old(powStarted) && old(powInnerOnion).Some?
                                              then [old(powInnerOnion).value.id] else []
    {
      if powStarted {
        powQuit := true;
        var inner := powInnerOnion;
        if inner.Some? {
          powInnerOnion := None;
          FreeOnion(inner.value);
        }
        powStarted := false;
        powFinished := false;
      }
    }

    method CaptchaReset()
      modifies this`captchaImage
      ensures captchaImage == None
    {
      if captchaImage.Some? {
        captchaImage := None;
      }
    }

    method ImageReset()
      modifies this`currentImage
      ensures !currentImage
    {
      if currentImage {
        currentImage := false;
      }
    }

    method ResetRequest()
      modifies this
      ensures View() == Apply(old(View()), Reset)
      ensures currentOnion == None && captchaImage == None && !currentImage && !powStarted
      ensures hist.freed == old(hist.freed)
                            + (if old(currentOnion).Some? then [old(currentOnion).value.id] else [])
                            + if old(powStarted) && old(powInnerOnion).Some? then [old(powInnerOnion).value.id] else []
    {
      OnionReset();
      CaptchaReset();
      ImageReset();
      PowReset();
    }

    // -------------------------------------------------------------- a new image

    /** `extracted` is the decrypted onion, if it passed every check. */
    method ImageRequest(extracted: Option<Onion>) returns (ok: bool)
      modifies this`currentOnion, this`currentImage, this`heap, this`hist
      ensures View() == Apply(old(View()), Image(extracted)) && ok == extracted.Some?
      ensures extracted == None ==> View() == old(View())
      ensures extracted.Some? ==> && currentOnion == Some(Obj(old(heap), extracted.value)) && currentImage
                                  && hist.freed == old(hist.freed) && hist.accepted == extracted.value
    {
      if extracted == None {
        return false;
      }
      ghost var before := currentOnion;
      var onion := NewOnion(extracted.value);
      currentOnion := Some(onion);
      currentImage := true;
      hist := (if before.Some? then hist.(leaked := hist.leaked + [before.value.id]) else hist)
                .(accepted := extracted.value, peels := 0);
      return true;
    }

    // -------------------------------------------------------------- peeling

    /** The current onion is freed and an inner one takes its place. */
    method Switch(inner: Obj)
      requires currentOnion.Some?
      modifies this`currentOnion, this`hist
      ensures View() == Replace(old(View()), inner)
    {
      FreeOnion(currentOnion.value);
      currentOnion := Some(inner);
      hist := hist.(peels := hist.peels + 1);
    }

    method PeelBase(net: string, parses: bool) returns (answer: Answer)
      requires currentOnion.Some? && currentOnion.value.onion == Base(net)
      modifies this`hist
      ensures View() == PeelCurrent(old(View()), parses) && answer == AnswerTo(old(View()), parses)
      ensures hist == if parses then old(hist).(nets := old(hist).nets + [Given(net, old(hist).accepted)])
                      else old(hist)
    {
      if parses {
        hist := hist.(nets := hist.nets + [Given(net, hist.accepted)]);
        return NetPassed;
      }
      return NetUnparsed;
    }

    method PeelPow(threadOk: bool) returns (answer: Answer)
      requires currentOnion.Some? && currentOnion.value.onion.Pow?
      modifies this`currentOnion, this`powStarted, this`powFinished, this`powQuit, this`powInnerOnion
      modifies this`workers, this`hist
      ensures View() == PeelCurrent(old(View()), threadOk) && answer == AnswerTo(old(View()), threadOk)
      ensures if old(powStarted) && old(powFinished) && old(powInnerOnion).Some?
              then && currentOnion == old(powInnerOnion) && powInnerOnion == None && !powStarted && !powFinished
                   && hist.freed == old(hist).freed + [old(currentOnion).value.id]
              else && currentOnion == old(currentOnion) && powInnerOnion == old(powInnerOnion) && hist == old(hist)
                   && powStarted == (old(powStarted) || threadOk) && powFinished == old(powFinished)
    {
      if !powStarted {
        if threadOk {
          workers := workers + [Spawned];
          powStarted := true;
          return PowCommenced;
        }
        return PowNotCreated;
      }
      if !powFinished {
        return PowWorking;
      }
      if powInnerOnion == None {
        return PowFailed;
      }
      Switch(powInnerOnion.value);
      powInnerOnion := None;
      PowReset();
      return PowDone;
    }

    method PeelCaptchaNoImagePath(written: bool) returns (answer: Answer)
      requires currentOnion.Some? && currentOnion.value.onion.Captcha? && captchaImage == None && currentImage
      modifies this`captchaImage, this`hist
      ensures View() == PeelCurrent(old(View()), written) && answer == AnswerTo(old(View()), written)
      ensures captchaImage == if written then Some(currentOnion.value.id) else None
    {
      captchaImage := Some(currentOnion.value.id);
      if !written {
        captchaImage := None;
        return PeelingFailed;
      }
      hist := hist.(shown := hist.shown + [currentOnion.value.id]);
      return CaptchaImage;
    }

    method PeelCaptchaWithImagePath(solved: bool) returns (answer: Answer)
      requires currentOnion.Some? && currentOnion.value.onion.Captcha? && captchaImage.Some?
      modifies this`currentOnion, this`heap, this`hist
      ensures View() == PeelCurrent(old(View()), solved) && answer == AnswerTo(old(View()), solved)
      ensures !solved ==> View() == old(View())
      ensures solved ==> && currentOnion == Some(Obj(old(heap), old(currentOnion).value.onion.inner))
                         && hist.freed == old(hist).freed + [old(currentOnion).value.id]
    {
      if solved {
        var inner := NewOnion(currentOnion.value.onion.inner);
        Switch(inner);
        return CaptchaSolved;
      }
      return CaptchaTryAgain;
    }

    method PeelSigned(verified: bool) returns (answer: Answer)
      requires currentOnion.Some? && currentOnion.value.onion.Signed?
      modifies this`currentOnion, this`heap, this`hist
      ensures View() == PeelCurrent(old(View()), verified) && answer == AnswerTo(old(View()), verified)
      ensures !verified ==> View() == old(View())
      ensures verified ==> && currentOnion == Some(Obj(old(heap), old(currentOnion).value.onion.inner))
                           && hist.freed == old(hist).freed + [old(currentOnion).value.id]
    {
      if verified {
        var inner := NewOnion(currentOnion.value.onion.inner);
        Switch(inner);
        return SignatureVerified;
      }
      return SignatureNot;
    }

    method PeelRequest(ok: bool) returns (answer: Answer)
      requires Enabled(View(), Peel(ok))
      modifies this
      ensures View() == Apply(old(View()), Peel(ok)) && answer == AnswerTo(old(View()), ok)
      ensures !ok && !ResultWaits(old(View())) ==> View() == old(View())
    {
      FailedPeelKeeps(View());
      if currentOnion == None {
        return NoOnion;
      }
      match currentOnion.value.onion {
        case Base(net) => answer := PeelBase(net, ok);
        case Pow(_) => answer := PeelPow(ok);
        case Captcha(_) =>
          if captchaImage == None {
            answer := PeelCaptchaNoImagePath(ok);
          } else {
            answer := PeelCaptchaWithImagePath(ok);
          }
        case Signed(_) => answer := PeelSigned(ok);
        case Bundle => answer := NotImplemented;
      }
    }

    // -------------------------------------------------------------- the thread

    /** The thread's three accesses to the variables; other requests may run in between. */
    method WorkerReads(ghost w: nat) returns (onion: Obj)
      requires Enabled(View(), Begin(w))
      modifies this`workers
      ensures View() == Apply(old(View()), Begin(w)) && workers[w] == Computing(onion)
      ensures Some(onion) == currentOnion
    {
      onion := currentOnion.value;
      workers := workers[w := Computing(onion)];
    }

    method WorkerDelivers(ghost w: nat, onion: Obj, found: bool)
      requires Enabled(View(), Deliver(w, found)) && workers[w] == Computing(onion)
      modifies this`powInnerOnion, this`heap, this`workers, this`hist
      ensures View() == Apply(old(View()), Deliver(w, found))
      ensures powInnerOnion == if found then Some(Obj(old(heap), onion.onion.inner)) else None
    {
      if onion.id in hist.freed {
        hist := hist.(afterFree := hist.afterFree + [onion.id]);
      }
      if powInnerOnion.Some? {
        hist := hist.(leaked := hist.leaked + [powInnerOnion.value.id]);
      }
      powInnerOnion := None;
      if found {
        var inner := NewOnion(onion.onion.inner);
        powInnerOnion := Some(inner);
      }
      workers := workers[w := Delivered];
    }

    method WorkerFinishes(ghost w: nat)
      requires Enabled(View(), Finish(w))
      modifies this`powFinished, this`workers
      ensures View() == Apply(old(View()), Finish(w))
    {
      powFinished := true;
      workers := workers[w := Ended];
    }
  }
}
