/**
 One selection (selectTransport and cleanupAutoTransportResults of auto_transport.go): QUIC gets a head start, TLS
 follows after a delay or at once when QUIC fails, and the first success wins. Whatever is left over is received and
 closed by the cleanup.
 */
module AutoSelection {
  import opened AutoTransport
  import opened Content

  datatype Attempt = Opened | Refused(error: int)

  /** Where one attempt stands; `Sent` is a result in the channel that nobody has received yet. */
  datatype Stage = Idle | Dialing | Sent(attempt: Attempt) | Failed(error: int) | Held | Closed

  datatype Outcome = Won(mode: Mode) | Cancelled | BothFailed(quicError: int, tlsError: int)

  function Outstanding(stage: Stage): (n: nat) {
    if stage.Dialing? || stage.Sent? then 1 else 0
  }

  function Started(stage: Stage): (n: nat) {
    if stage.Idle? then 0 else 1
  }

  predicate Genuine(stage: Stage, dial: Attempt) {
    stage == Sent(Opened) || stage.Held? || stage.Closed? ==> dial == Opened
  }

  predicate Exact(stage: Stage, dial: Attempt) {
    match stage
    case Sent(attempt) => attempt == dial
    case Failed(error) => dial == Refused(error)
    case Held => dial == Opened
    case Closed => dial == Opened
    case _ => true
  }

  /** Nothing of this attempt is open or on its way. */
  predicate Over(stage: Stage) {
    stage.Idle? || stage.Failed? || stage.Closed?
  }

  class Selection {
    const quicDial: Attempt
    const tlsDial: Attempt
    const cancellable: bool
    var quic: Stage
    var tls: Stage
    var started: nat
    var completed: nat
    var tlsStarted: bool
    var timer: bool
    var quicErr: int
    var tlsErr: int
    // The caller's context is cancelled; the selection's own context is.
    var cancelled: bool
    var stopped: bool
    // How often each connection and the QUIC transport were closed.
    var quicConnCloses: nat
    var tlsConnCloses: nat
    var quicTransportCloses: nat

    constructor (quicDial: Attempt, tlsDial: Attempt, cancellable: bool)
      ensures this.quicDial == quicDial && this.tlsDial == tlsDial && this.cancellable == cancellable
      ensures Valid() && quic.Dialing? && tls.Idle? && timer && !cancelled && !stopped && quicTransportCloses == 0
    {
      this.quicDial, this.tlsDial, this.cancellable := quicDial, tlsDial, cancellable;
      quic, tls, started, completed, tlsStarted, timer := Dialing, Idle, 1, 0, false, true;
      cancelled, stopped, quicErr, tlsErr := false, false, 0, 0;
      quicConnCloses, tlsConnCloses, quicTransportCloses := 0, 0, 0;
    }

    /** The counters say what is outstanding; every close is of a connection that was open, once. */
    ghost predicate Valid()
      reads this
    {
      && !quic.Idle? && (tlsStarted <==> !tls.Idle?)
      && started == Started(quic) + Started(tls)
      && completed + Outstanding(quic) + Outstanding(tls) == started
      && quicConnCloses == (if quic.Closed? then 1 else 0)
      && tlsConnCloses == (if tls.Closed? then 1 else 0)
      && Genuine(quic, quicDial) && Genuine(tls, tlsDial)
      && (cancelled ==> cancellable)
      && (!cancelled && !stopped ==> Exact(quic, quicDial) && Exact(tls, tlsDial))
    }

    function StageOf(mode: Mode): (stage: Stage)
      reads this
    {
      if mode.Quic? then quic else tls
    }

    method StartTls()
      requires Valid()
      modifies this`tls, this`started, this`tlsStarted
      ensures Valid() && tlsStarted
      ensures tls == if old(tls).Idle? then Dialing else old(tls)
    {
      if tlsStarted {
        return;
      }
      tlsStarted := true;
      started := started + 1;
      tls := Dialing;
    }

    /** A dialing goroutine sends its result; after a cancellation it may have been aborted. */
    method Send(mode: Mode)
      requires Valid() && StageOf(mode).Dialing?
      modifies this`quic, this`tls
      ensures Valid() && Outstanding(quic) + Outstanding(tls) == old(Outstanding(quic) + Outstanding(tls)) <= 2
      ensures StageOf(mode).Sent? && StageOf(Other(mode)) == old(StageOf(Other(mode)))
    {
      var aborted: bool := *;
      if mode.Quic? {
        quic := Sent(if (cancelled || stopped) && aborted then Refused(-1) else quicDial);
      } else {
        tls := Sent(if (cancelled || stopped) && aborted then Refused(-1) else tlsDial);
      }
    }

    /** A result leaves the channel. */
    method Receive(mode: Mode) returns (usable: bool)
      requires Valid() && StageOf(mode).Sent?
      modifies this`quic, this`tls, this`completed
      ensures Valid() && completed == old(completed) + 1
      ensures usable == old(StageOf(mode)).attempt.Opened?
      ensures StageOf(mode) == if usable then Held else Failed(old(StageOf(mode)).attempt.error)
      ensures StageOf(Other(mode)) == old(StageOf(Other(mode)))
    {
      var attempt := StageOf(mode).attempt;
      usable := attempt.Opened?;
      if mode.Quic? {
        quic := if usable then Held else Failed(attempt.error);
      } else {
        tls := if usable then Held else Failed(attempt.error);
      }
      completed := completed + 1;
    }

    method CloseConn(mode: Mode)
      requires Valid() && StageOf(mode).Held?
      modifies this`quic, this`tls, this`quicConnCloses, this`tlsConnCloses
      ensures Valid() && StageOf(mode) == Closed && StageOf(Other(mode)) == old(StageOf(Other(mode)))
    {
      if mode.Quic? {
        quic, quicConnCloses := Closed, quicConnCloses + 1;
      } else {
        tls, tlsConnCloses := Closed, tlsConnCloses + 1;
      }
    }

    ghost predicate OnlyHeld(winner: Option<Mode>)
      reads this
    {
      (quic.Held? <==> winner == Some(Quic)) && (tls.Held? <==> winner == Some(Tls))
    }

    /** Some outstanding attempt sends, or its result is received. */
    method Await() returns (mode: Mode, received: bool, usable: bool)
      requires Valid() && Outstanding(quic) + Outstanding(tls) > 0
      modifies this`quic, this`tls, this`completed
      ensures Valid() && completed == old(completed) + (if received then 1 else 0)
      ensures StageOf(Other(mode)) == old(StageOf(Other(mode)))
      ensures received ==> old(StageOf(mode)).Sent? && (if usable then StageOf(mode).Held? else StageOf(mode).Failed?)
      ensures !received ==> old(StageOf(mode)).Dialing? && StageOf(mode).Sent?
    {
      mode := *;
      if Outstanding(StageOf(mode)) == 0 {
        mode := Other(mode);
      }
      received, usable := StageOf(mode).Sent?, false;
      if received {
        usable := Receive(mode);
      } else {
        Send(mode);
      }
    }

    ghost function Measure(): (m: int)
      reads this
    {
      Rank(quic) + Rank(tls) + (if timer then 1 else 0) + (if cancelled then 0 else 1)
    }

    /** What holds between two turns of the select loop. */
    ghost predicate Racing()
      reads this
    {
      && Valid() && !stopped && !quic.Held? && !tls.Held? && !quic.Closed? && !tls.Closed?
      && (quic.Failed? ==> tlsStarted && quic.error == quicErr) && (tls.Failed? ==> tls.error == tlsErr)
    }

    /** The result branch of the select, or a goroutine sending before it. */
    method Turn() returns (won: Option<Mode>)
      requires Racing() && completed < started
      modifies this`quic, this`tls, this`completed, this`started, this`tlsStarted, this`quicErr, this`tlsErr
      ensures won.None? ==> Racing() && Measure() < old(Measure())
      ensures won.Some? ==> Valid() && OnlyHeld(won) && !quic.Closed? && !tls.Closed?
    {
      var mode, received, usable := Await();
      won := None;
      if received {
        if usable {
          return Some(mode);
        }
        if mode.Quic? {
          quicErr := quic.error;
          StartTls();
        } else {
          tlsErr := tls.error;
        }
      }
    }

    /** The select loop. Goroutines send, the caller cancels and the timer expires in any order. */
    method SelectTransport() returns (outcome: Outcome, leftover: nat)
      requires Valid() && quic.Dialing? && tls.Idle? && timer && !cancelled && !stopped
      modifies this
      ensures Valid() && quicTransportCloses == old(quicTransportCloses)
      ensures leftover == Outstanding(quic) + Outstanding(tls)
      ensures OnlyHeld(if outcome.Won? then Some(outcome.mode) else None)
      ensures !quic.Closed? && !tls.Closed?
      ensures outcome.BothFailed? ==>
                leftover == 0 && !stopped && quic == Failed(outcome.quicError) && tls == Failed(outcome.tlsError)
      ensures outcome.Cancelled? ==> cancelled
      ensures !outcome.BothFailed? ==> stopped
    {
      while completed < started || !tlsStarted
        invariant Racing() && quicTransportCloses == old(quicTransportCloses)
        decreases Measure()
      {
        var event: nat := *;
        if event == 0 && cancellable && !cancelled {
          cancelled := true;
        } else if event == 1 && cancelled {
          stopped := true;
          return Cancelled, started - completed;
        } else if event == 2 && timer {
          timer := false;
          StartTls();
        } else {
          var won := Turn();
          if won.Some? {
            stopped := true;
            return Won(won.value), started - completed;
          }
        }
      }
      return BothFailed(quicErr, tlsErr), 0;
    }

    /** The cleanup goroutine: receive what is left over, close its connections, and close a QUIC transport that
        did not win. */
    method Cleanup(count: nat, winner: Option<Mode>)
      requires Valid() && count == Outstanding(quic) + Outstanding(tls)
      requires OnlyHeld(winner)
      requires !quic.Closed? && !tls.Closed?
      modifies this`quic, this`tls, this`completed, this`quicConnCloses, this`tlsConnCloses, this`quicTransportCloses
      ensures Valid()
      ensures if winner == Some(Quic) then quic.Held? else Over(quic)
      ensures if winner == Some(Tls) then tls.Held? else Over(tls)
      ensures count == 0 ==> quic == old(quic) && tls == old(tls)
      ensures quicTransportCloses == old(quicTransportCloses) + old(Outstanding(quic))
    {
      var i := 0;
      while i < count
        invariant Valid() && i <= count && count - i == Outstanding(quic) + Outstanding(tls)
        invariant OnlyHeld(winner)
        invariant count == 0 ==> quic == old(quic) && tls == old(tls)
        invariant quicTransportCloses + Outstanding(quic) == old(quicTransportCloses) + old(Outstanding(quic))
        decreases Rank(quic) + Rank(tls)
      {
        var mode, received, usable := Await();
        if received {
          if usable {
            CloseConn(mode);
          }
          if winner != Some(mode) && mode.Quic? {
            quicTransportCloses := quicTransportCloses + 1;
          }
          i := i + 1;
        }
      }
    }
  }

  /** A selection together with its cleanup. Without cancellation it succeeds exactly when one of the two
      transports can be dialed. In the end only the winner's connection is open, every other connection that was
      opened was closed once, and the QUIC transport was closed exactly when its attempt was left over. */
  method Select(quicDial: Attempt, tlsDial: Attempt, cancellable: bool)
    returns (outcome: Outcome, quic: Stage, tls: Stage, quicLeft: bool,
             quicConnCloses: nat, tlsConnCloses: nat, quicTransportCloses: nat)
    ensures if outcome == Won(Quic) then quic.Held? && quicDial == Opened else Over(quic)
    ensures if outcome == Won(Tls) then tls.Held? && tlsDial == Opened else Over(tls)
    ensures quicConnCloses == (if quic.Closed? then 1 else 0) && tlsConnCloses == (if tls.Closed? then 1 else 0)
    ensures quicTransportCloses == (if quicLeft then 1 else 0)
    ensures outcome == Won(Quic) || outcome.BothFailed? ==> !quicLeft
    ensures outcome.Cancelled? ==> cancellable
    ensures outcome.BothFailed? ==> quic == Failed(outcome.quicError) && tls == Failed(outcome.tlsError)
    ensures outcome.BothFailed? && !cancellable ==>
              quicDial == Refused(outcome.quicError) && tlsDial == Refused(outcome.tlsError)
    ensures !cancellable ==> (outcome.Won? <==> quicDial == Opened || tlsDial == Opened)
  {
    var selection := new Selection(quicDial, tlsDial, cancellable);
    var leftover;
    outcome, leftover := selection.SelectTransport();
    quicLeft := Outstanding(selection.quic) == 1;
    selection.Cleanup(leftover, if outcome.Won? then Some(outcome.mode) else None);
    assert outcome.Won? ==> outcome.mode == Quic || outcome.mode == Tls;
    quic, tls := selection.quic, selection.tls;
    quicConnCloses, tlsConnCloses := selection.quicConnCloses, selection.tlsConnCloses;
    quicTransportCloses := selection.quicTransportCloses;
  }

  function Other(mode: Mode): (r: Mode) {
    if mode.Quic? then Tls else Quic
  }

  function Rank(stage: Stage): (n: nat) {
    match stage
    case Idle => 4
    case Dialing => 2
    case Sent(_) => 1
    case _ => 0
  }
}
