/**
 Opening tunnels over the control channel (CreateTunnel, awaitOpenTunnelResult, handleOpenTunnelRsp and
 detachCleanupLocked in client.go): any number of callers wait for responses while the read loop delivers them, callers
 are cancelled, and the channel fails. A request is named by its request id, which is unique. The engine only answers
 requests that reached it.
 */
module TunnelRequests {
  import opened Content
  import opened Runs

  type Id = nat
  type TunnelId = string

  /** What arrives for a request: an error, or the properties of the new tunnel, whose id may be blank. */
  datatype Response = EngineError | Properties(tunnel: TunnelId, blank: bool)

  datatype Result = Opened(tunnel: TunnelId) | Refused

  /** The guarded fields of the control channel that matter here. */
  datatype Core = Core(pending: set<Id>, tunnels: map<TunnelId, Id>, closing: bool, closed: bool)

  // ---------------------------------------------------------------- the mutex-held regions

  /** Whether a response opens a tunnel. */
  predicate Opens(core: Core, response: Response) {
    response.Properties? && !response.blank && !core.closed && !core.closing && response.tunnel !in core.tunnels
  }

  function ResultOf(core: Core, response: Response): (r: Result) {
    if Opens(core, response) then Opened(response.tunnel) else Refused
  }

  /** handleOpenTunnelRsp for a request that is pending. */
  function Answer(core: Core, id: Id, response: Response): (r: Core) {
    core.(pending := core.pending - {id},
          tunnels := if Opens(core, response) then core.tunnels[response.tunnel := id] else core.tunnels)
  }

  function Withdraw(core: Core, id: Id): (r: Core) {
    core.(pending := core.pending - {id})
  }

  /** detachCleanupLocked. */
  function Detach(core: Core): (r: Core) {
    if core.closed then core else core.(closed := true, pending := {}, tunnels := map[])
  }

  // ---------------------------------------------------------------- the state machine

  datatype Outcome = Got(tunnel: TunnelId) | GotError | ChannelClosed | Cancelled | WriteFailed

  /** Where a caller of CreateTunnel stands. `Unwritten` and `FailedWrite` are about to withdraw the request after a
      write that sent nothing, or after one that may have sent something; `Failing` is about to fail the channel. */
  datatype Pc =
    | Writing
    | Unwritten
    | FailedWrite
    | Failing
    | Waiting
    | CancelSeen
    | Draining
    | Returned(outcome: Outcome)

  /** A caller and its response channel, which holds at most one result: what is in it, how often it was sent to and
      closed, and how often the caller withdrew the request. */
  datatype Request = Request(pc: Pc, buffer: Option<Result>, sends: nat, closes: nat, withdrawals: nat)

  /** `toClose` holds the requests that the channel's cleanup captured and is about to close. `reached` are the
      requests that may have reached the engine, `granted` the tunnels that were opened for requests. */
  datatype State = State(
    core: Core,
    toClose: set<Id>,
    reached: set<Id>,
    granted: map<Id, TunnelId>,
    requests: map<Id, Request>
  )

  ghost predicate Initial(s: State) {
    s == State(Core({}, map[], false, false), {}, {}, map[], map[])
  }

  datatype Step =
    | Reaches
    | WriteSucceeds
    | WriteSendsNothing
    | WriteFails
    | Withdraws
    | FailsChannel
    | Receives
    | ReceivesClosed
    | IsCancelled
    | Rechecks

  datatype Event =
    | Create(id: Id)
    | Acts(id: Id, step: Step)
    | Respond(id: Id, response: Response)
    | CloseResponses(id: Id)
    | ChannelFails
    | ChannelCloses
    | TunnelCloses(tunnel: TunnelId)

  predicate CanStep(s: State, id: Id, q: Request, step: Step) {
    match step
    case Reaches => q.pc.Writing?
    case WriteSucceeds => q.pc.Writing?
    case WriteSendsNothing => q.pc.Writing? && id !in s.reached
    case WriteFails => q.pc.Writing?
    case Withdraws => q.pc.Unwritten? || q.pc.FailedWrite?
    case FailsChannel => q.pc.Failing?
    case Receives => (q.pc.Waiting? || q.pc.Draining?) && q.buffer.Some?
    case ReceivesClosed => (q.pc.Waiting? || q.pc.Draining?) && q.buffer.None? && q.closes > 0
    case IsCancelled => q.pc.Waiting?
    case Rechecks => q.pc.CancelSeen?
  }

  predicate Enabled(s: State, e: Event) {
    match e
    case Create(id) => id !in s.requests && !s.core.closed && !s.core.closing
    case Acts(id, step) => id in s.requests && CanStep(s, id, s.requests[id], step)
    case Respond(id, _) => id in s.reached
    case CloseResponses(id) => id in s.toClose && id in s.requests
    case _ => true
  }

  function Puts(s: State, id: Id, q: Request): (r: State) {
    s.(requests := s.requests[id := q])
  }

  function Takes(s: State, id: Id, q: Request, next: Pc): (r: State) {
    var removed := if id in s.core.pending then 1 else 0;
    Puts(s.(core := Withdraw(s.core, id)), id, q.(pc := next, withdrawals := q.withdrawals + removed))
  }

  /** The region of onError: the requests still pending are left to the cleanup. */
  function Fails(s: State): (r: State) {
    s.(core := Detach(s.core), toClose := s.toClose + s.core.pending)
  }

  function OutcomeOf(result: Result): (o: Outcome) {
    match result
    case Opened(t) => Got(t)
    case Refused => GotError
  }

  function Take(s: State, id: Id, q: Request, step: Step): (r: State)
    requires CanStep(s, id, q, step)
  {
    match step
    case Reaches => s.(reached := s.reached + {id})
    case WriteSucceeds => Puts(s.(reached := s.reached + {id}), id, q.(pc := Waiting))
    case WriteSendsNothing => Puts(s, id, q.(pc := Unwritten))
    case WriteFails => Puts(s, id, q.(pc := FailedWrite))
    case Withdraws => Takes(s, id, q, if q.pc.Unwritten? then Returned(WriteFailed) else Failing)
    case FailsChannel => Puts(Fails(s), id, q.(pc := Returned(WriteFailed)))
    case Receives => Puts(s, id, q.(pc := Returned(OutcomeOf(q.buffer.value)), buffer := None))
    case ReceivesClosed => Puts(s, id, q.(pc := Returned(ChannelClosed)))
    case IsCancelled => Puts(s, id, q.(pc := CancelSeen))
    case Rechecks =>
      if id in s.core.pending then Takes(s, id, q, Returned(Cancelled)) else Puts(s, id, q.(pc := Draining))
  }

  /** The read loop handles a response; one that nobody waits for is ignored. */
  function Answers(s: State, id: Id, response: Response): (r: State) {
    if id !in s.core.pending || id !in s.requests then s
    else
      var q := s.requests[id];
      Puts(s.(core := Answer(s.core, id, response),
              granted := if Opens(s.core, response) then s.granted[id := response.tunnel] else s.granted),
           id, q.(buffer := Some(ResultOf(s.core, response)), sends := q.sends + 1))
  }

  function Apply(s: State, e: Event): (r: State)
    requires Enabled(s, e)
  {
    match e
    case Create(id) =>
      Puts(s.(core := s.core.(pending := s.core.pending + {id})), id, Request(Writing, None, 0, 0, 0))
    case Acts(id, step) => Take(s, id, s.requests[id], step)
    case Respond(id, response) => Answers(s, id, response)
    case CloseResponses(id) =>
      var q := s.requests[id];
      Puts(s.(toClose := s.toClose - {id}), id, q.(closes := q.closes + 1))
    case ChannelFails => Fails(s)
    case ChannelCloses => s.(core := s.core.(closing := true))
    case TunnelCloses(tunnel) => s.(core := s.core.(tunnels := s.core.tunnels - {tunnel}))
  }

  ghost predicate Next(s: State, r: State) {
    exists e :: Enabled(s, e) && r == Apply(s, e)
  }

  ghost predicate IsRun(run: seq<State>) {
    && run != [] && Initial(run[0])
    && forall i :: 0 <= i < |run| - 1 ==> Next(run[i], run[i + 1])
  }

  lemma {:induction false} StepOf(run: seq<State>, i: nat) returns (e: Event)
    requires IsRun(run) && i + 1 < |run|
    ensures Enabled(run[i], e) && run[i + 1] == Apply(run[i], e)
  {
    hide Enabled, Apply;
    assert Next(run[i], run[i + 1]);
    e :| Enabled(run[i], e) && run[i + 1] == Apply(run[i], e);
  }

  // ---------------------------------------------------------------- every reachable state

  /** In how many ways a request is settled or still open: pending, left to the cleanup, answered, closed, withdrawn. */
  function Ways(s: State, id: Id, q: Request): (n: nat) {
    (if id in s.core.pending then 1 else 0) + (if id in s.toClose then 1 else 0) + q.sends + q.closes + q.withdrawals
  }

  ghost predicate PcSound(s: State, id: Id, q: Request) {
    match q.pc
    case Unwritten => q.sends == 0 && id !in s.reached && q.withdrawals == 0
    case Failing => id !in s.core.pending
    case FailedWrite => q.withdrawals == 0
    case Draining => id !in s.core.pending && q.withdrawals == 0 && (q.sends == 1 ==> q.buffer.Some?)
    case Returned(Got(t)) => id in s.granted && s.granted[id] == t && q.sends == 1
    case Returned(GotError) => id !in s.granted && q.sends == 1
    case Returned(ChannelClosed) => q.closes == 1
    case Returned(Cancelled) => q.withdrawals == 1
    case Returned(WriteFailed) => id !in s.core.pending && (q.sends == 1 ==> s.core.closed)
    case _ => q.withdrawals == 0 && (q.sends == 1 ==> q.buffer.Some?)
  }

  /** Every request is settled in exactly one way, or open in exactly one. */
  ghost predicate RequestSound(s: State, id: Id, q: Request) {
    && Ways(s, id, q) == 1
    && (q.sends == 1 ==> id in s.reached)
    && (q.buffer.Some? ==> q.sends == 1)
    && (id in s.granted ==> q.sends == 1)
    && (q.buffer.Some? && q.buffer.value.Opened? ==> id in s.granted && s.granted[id] == q.buffer.value.tunnel)
    && (q.buffer == Some(Refused) ==> id !in s.granted)
    && (q.closes > 0 ==> s.core.closed)
    && PcSound(s, id, q)
  }

  ghost predicate CoreSound(s: State) {
    && (s.core.closed ==> s.core.pending == {} && s.core.tunnels == map[])
    && (s.toClose != {} ==> s.core.closed)
    && (forall t :: t in s.core.tunnels ==>
          var id := s.core.tunnels[t];
          id in s.requests && id in s.granted && s.granted[id] == t)
    && s.core.pending <= s.requests.Keys
    && s.toClose <= s.requests.Keys && s.reached <= s.requests.Keys && s.granted.Keys <= s.requests.Keys
  }

  ghost predicate Inv(s: State) {
    CoreSound(s) && forall id :: id in s.requests ==> RequestSound(s, id, s.requests[id])
  }

  lemma {:induction false} StepKeepsCore(s: State, id: Id, step: Step)
    requires Inv(s) && Enabled(s, Acts(id, step))
    ensures CoreSound(Apply(s, Acts(id, step)))
  {
  }

  lemma {:induction false} StepKeepsOwn(s: State, id: Id, step: Step)
    requires Inv(s) && Enabled(s, Acts(id, step))
    ensures var r := Apply(s, Acts(id, step)); id in r.requests && RequestSound(r, id, r.requests[id])
  {
  }

  lemma {:induction false} StepKeepsOther(s: State, id: Id, step: Step, other: Id)
    requires Inv(s) && Enabled(s, Acts(id, step)) && other in s.requests && other != id
    ensures var r := Apply(s, Acts(id, step)); other in r.requests && RequestSound(r, other, r.requests[other])
  {
    assert RequestSound(s, other, s.requests[other]);
  }

  lemma {:induction false} AnswerKeepsInv(s: State, id: Id, response: Response)
    requires Inv(s) && id in s.reached
    ensures Inv(Answers(s, id, response))
  {
    forall other | other in s.requests
      ensures RequestSound(Answers(s, id, response), other, Answers(s, id, response).requests[other])
    {
      assert RequestSound(s, other, s.requests[other]);
    }
  }

  lemma {:induction false} FailKeepsInv(s: State)
    requires Inv(s)
    ensures Inv(Fails(s))
  {
  }

  lemma {:induction false} CloseKeepsInv(s: State, id: Id)
    requires Inv(s) && Enabled(s, CloseResponses(id))
    ensures Inv(Apply(s, CloseResponses(id)))
  {
  }

  lemma {:induction false} EventKeepsInv(s: State, e: Event)
    requires Inv(s) && Enabled(s, e)
    ensures Inv(Apply(s, e))
  {
    match e
    case Acts(id, step) =>
      hide RequestSound, CoreSound, Take, CanStep;
      StepKeepsCore(s, id, step);
      StepKeepsKeys(s, id, step);
      forall other | other in s.requests
        ensures RequestSound(Apply(s, e), other, Apply(s, e).requests[other])
      {
        if other == id {
          StepKeepsOwn(s, id, step);
        } else {
          StepKeepsOther(s, id, step, other);
        }
      }
    case Respond(id, response) => AnswerKeepsInv(s, id, response);
    case ChannelFails => FailKeepsInv(s);
    case CloseResponses(id) => CloseKeepsInv(s, id);
    case _ => hide Take, CanStep;
  }

  lemma {:induction false} StepKeepsKeys(s: State, id: Id, step: Step)
    requires Enabled(s, Acts(id, step))
    ensures Apply(s, Acts(id, step)).requests.Keys == s.requests.Keys
  {
  }

  lemma {:induction false} RunKeepsInv(run: seq<State>, i: nat)
    requires IsRun(run) && i < |run|
    ensures Inv(run[i])
  {
    hide Enabled, Apply, CoreSound, RequestSound;
    if i == 0 {
      InitialInv(run[0]);
    } else {
      RunKeepsInv(run, i - 1);
      var e := StepOf(run, i - 1);
      EventKeepsInv(run[i - 1], e);
    }
  }

  lemma {:induction false} InitialInv(s: State)
    requires Initial(s)
    ensures Inv(s)
  {
  }

  // ---------------------------------------------------------------- the guarantees

  /** A response channel is sent to or closed, at most once in all; and a caller that still waits has a value, a
      closed channel, a cleanup about to close it, or (before a cancellation) an open request. */
  lemma {:induction false} OneOutcomePerRequest(run: seq<State>, i: nat, id: Id)
    requires IsRun(run) && i < |run| && id in run[i].requests
    ensures var q := run[i].requests[id];
            && q.sends + q.closes <= 1
            && (q.pc.Draining? ==> q.buffer.Some? || q.closes == 1 || id in run[i].toClose)
            && (q.pc.Waiting? ==> q.buffer.Some? || q.closes == 1 || id in run[i].toClose || id in run[i].core.pending)
            && (id in run[i].core.pending ==> q.sends == 0 && q.closes == 0)
  {
    RunKeepsInv(run, i);
    assert RequestSound(run[i], id, run[i].requests[id]);
  }

  /** A registered tunnel is on its way to the caller that asked for it, or with that caller, or the caller is about
      to fail the channel. */
  lemma {:induction false} TunnelsReachTheirCreators(run: seq<State>, i: nat, t: TunnelId)
    requires IsRun(run) && i < |run| && t in run[i].core.tunnels
    ensures var id := run[i].core.tunnels[t];
            && id in run[i].requests
            && var q := run[i].requests[id];
               || q.pc == Returned(Got(t))
               || (q.buffer == Some(Opened(t))
                     && (q.pc.Writing? || q.pc.Waiting? || q.pc.CancelSeen? || q.pc.Draining?))
               || q.pc.FailedWrite? || q.pc.Failing?
  {
    RunKeepsInv(run, i);
    var id := run[i].core.tunnels[t];
    assert RequestSound(run[i], id, run[i].requests[id]);
  }

  /** What a caller is told is true: it got the tunnel that was opened for it; after an error, a cancellation or a
      closed channel none was; and after a failed write one may have been only if the channel is closed. */
  lemma {:induction false} OutcomesTellTheTruth(run: seq<State>, i: nat, id: Id)
    requires IsRun(run) && i < |run| && id in run[i].requests && run[i].requests[id].pc.Returned?
    ensures match run[i].requests[id].pc.outcome {
              case Got(t) => id in run[i].granted && run[i].granted[id] == t
              case WriteFailed => id in run[i].granted ==> run[i].core.closed
              case _ => id !in run[i].granted
            }
    ensures id !in run[i].core.pending
  {
    RunKeepsInv(run, i);
    assert RequestSound(run[i], id, run[i].requests[id]);
  }

  /** An outcome is final. */
  lemma {:induction false} OutcomesAreFinal(run: seq<State>, i: nat, j: nat, id: Id)
    requires IsRun(run) && i <= j < |run| && id in run[i].requests && run[i].requests[id].pc.Returned?
    ensures id in run[j].requests && run[j].requests[id].pc == run[i].requests[id].pc
  {
    hide IsRun, Enabled, Apply;
    if i < j {
      OutcomesAreFinal(run, i, j - 1, id);
      var e := StepOf(run, j - 1);
      OutcomeStays(run[j - 1], e, id);
    }
  }

  lemma {:induction false} OutcomeStays(s: State, e: Event, id: Id)
    requires Enabled(s, e) && id in s.requests && s.requests[id].pc.Returned?
    ensures id in Apply(s, e).requests && Apply(s, e).requests[id].pc == s.requests[id].pc
  {
  }

  // ---------------------------------------------------------------- the class

  /** The run went on by one event. */
  ghost predicate WentOn(before: seq<State>, after: seq<State>, e: Event) {
    before != [] && Enabled(Last(before), e) && after == before + [Apply(Last(before), e)]
  }

  lemma {:induction false} RunGrows(run: seq<State>, e: Event)
    requires IsRun(run) && Enabled(Last(run), e)
    ensures IsRun(run + [Apply(Last(run), e)])
  {
    hide Enabled, Apply, Initial;
    var more := run + [Apply(Last(run), e)];
    forall i | 0 <= i < |more| - 1
      ensures Next(more[i], more[i + 1])
    {
      if i < |run| - 1 {
        assert Next(run[i], run[i + 1]);
      }
    }
  }

  lemma {:induction false} PendingFacts(s: State)
    requires Inv(s)
    ensures s.core.closed ==> s.core.pending == {} && s.core.tunnels == map[]
    ensures forall id :: id in s.core.pending ==>
              id in s.requests && s.requests[id].sends == 0 && s.requests[id].closes == 0
                && s.requests[id].withdrawals == 0
    ensures forall id :: id in s.requests && id !in s.core.pending && s.requests[id].withdrawals == 0 ==>
              s.requests[id].sends + s.requests[id].closes == 1 || id in s.toClose
    ensures forall id ::
              && id in s.requests
              && (s.requests[id].pc.Unwritten? || s.requests[id].pc.FailedWrite? || s.requests[id].pc.CancelSeen?) ==>
              s.requests[id].withdrawals == 0
  {
    forall id | id in s.requests
      ensures RequestSound(s, id, s.requests[id])
    {
    }
  }

  /** The guarded fields of controlChannelImpl. Each method is one mutex-held region; `run` records every state there
      was and `Valid` says that it is a run of the machine, so that every guarantee above holds of these fields. */
  class ControlChannel {
    var pendingTunnels: set<Id>
    var tunnels: map<TunnelId, Id>
    var closing: bool
    var closed: bool
    ghost var run: seq<State>

    constructor ()
      ensures Valid() && Last(run).requests == map[]
    {
      pendingTunnels, tunnels, closing, closed := {}, map[], false, false;
      run := [State(Core({}, map[], false, false), {}, {}, map[], map[])];
    }

    function View(): (core: Core)
      reads this
    {
      Core(pendingTunnels, tunnels, closing, closed)
    }

    ghost predicate Valid()
      reads this
    {
      run != [] && IsRun(run) && Last(run).core == View()
    }

    /** Writes, receives, cancellations and everything else that does not touch the guarded fields. */
    ghost method Elsewhere(e: Event)
      requires Valid() && Enabled(Last(run), e) && Apply(Last(run), e).core == View()
      modifies this`run
      ensures Valid() && WentOn(old(run), run, e)
    {
      RunGrows(run, e);
      run := run + [Apply(Last(run), e)];
    }

    /** A request is open from here on, unless the channel is closed or closing: then it never becomes one, and
        nothing can ever be opened for it. */
    method BeginCreate(id: Id) returns (ok: bool)
      requires Valid() && id !in Last(run).requests
      modifies this
      ensures Valid() && (if ok then WentOn(old(run), run, Create(id)) else run == old(run))
      ensures ok <==> !old(closed) && !old(closing)
      ensures ok ==>
                && id in pendingTunnels && id in Last(run).requests
                && Last(run).requests[id] == Request(Writing, None, 0, 0, 0)
      ensures !ok ==> id !in pendingTunnels && id !in Last(run).granted && View() == old(View())
    {
      hide IsRun, RequestSound;
      RunKeepsInv(run, |run| - 1);
      if closed {
        return false;
      }
      if closing {
        return false;
      }
      RunGrows(run, Create(id));
      run := run + [Apply(Last(run), Create(id))];
      pendingTunnels := pendingTunnels + {id};
      return true;
    }

    /** Taking the request back, after a failed write or a cancellation. It succeeds exactly if nothing was or will be
        sent for it; otherwise it is settled already, or about to be by the cleanup. */
    method WithdrawRequest(id: Id, ghost step: Step) returns (mine: bool)
      requires Valid() && (step.Withdraws? || step.Rechecks?) && Enabled(Last(run), Acts(id, step))
      modifies this
      ensures Valid() && WentOn(old(run), run, Acts(id, step)) && id !in pendingTunnels && id in Last(run).requests
      ensures var q := Last(run).requests[id];
              if mine then q.sends == 0 && q.closes == 0 && q.withdrawals == 1
              else q.withdrawals == 0 && (q.sends + q.closes == 1 || id in Last(run).toClose)
    {
      hide IsRun, Inv;
      RunKeepsInv(run, |run| - 1);
      PendingFacts(Last(run));
      RunGrows(run, Acts(id, step));
      run := run + [Apply(Last(run), Acts(id, step))];
      mine := id in pendingTunnels;
      if mine {
        pendingTunnels := pendingTunnels - {id};
      }
    }

    /** What a response opens: a tunnel exactly if it names one that is new, on a channel neither closed nor closing. */
    method OpenTunnelResult(id: Id, response: Response) returns (result: Result)
      modifies this`tunnels
      ensures result == ResultOf(old(View()), response)
      ensures tunnels == if result.Opened? then old(tunnels)[response.tunnel := id] else old(tunnels)
      ensures result.Opened? ==> response.Properties?
    {
      match response
      case EngineError => return Refused;
      case Properties(tunnel, blank) =>
        if blank {
          return Refused;
        }
        if closed || closing {
          return Refused;
        }
        if tunnel in tunnels {
          return Refused;
        }
        tunnels := tunnels[tunnel := id];
        return Opened(tunnel);
    }

    /** A response settles an open request: it is the one thing ever sent to its caller. Any other response changes
        nothing. */
    method HandleOpenTunnelRsp(id: Id, response: Response) returns (sent: Option<Result>)
      requires Valid() && id in Last(run).reached
      modifies this
      ensures Valid() && WentOn(old(run), run, Respond(id, response))
      ensures sent.Some? <==> id in old(pendingTunnels)
      ensures sent.None? ==> View() == old(View())
      ensures sent.Some? ==>
                && id in Last(run).requests && id !in pendingTunnels
                && var q := Last(run).requests[id];
                   q.buffer == sent && q.sends == 1 && q.closes == 0
      ensures sent.Some? && sent.value.Opened? ==> sent.value.tunnel in tunnels && tunnels[sent.value.tunnel] == id
    {
      hide IsRun, Inv;
      RunKeepsInv(run, |run| - 1);
      PendingFacts(Last(run));
      RunGrows(run, Respond(id, response));
      run := run + [Apply(Last(run), Respond(id, response))];
      if id !in pendingTunnels {
        return None;
      }
      pendingTunnels := pendingTunnels - {id};
      var result := OpenTunnelResult(id, response);
      return Some(result);
    }

    /** The channel fails, by itself or through a caller whose write failed: every open request is handed to the
        cleanup, and nothing was or will be sent for it. */
    method DetachCleanup(ghost e: Event) returns (captured: set<Id>)
      requires Valid() && Enabled(Last(run), e) && (e == ChannelFails || (e.Acts? && e.step.FailsChannel?))
      modifies this
      ensures Valid() && WentOn(old(run), run, e)
      ensures closed && pendingTunnels == {} && tunnels == map[]
      ensures captured == old(pendingTunnels) && captured <= Last(run).toClose
      ensures forall id :: id in captured ==>
                id in Last(run).requests && Last(run).requests[id].sends == 0 && Last(run).requests[id].closes == 0
    {
      hide IsRun, Inv;
      RunKeepsInv(run, |run| - 1);
      PendingFacts(Last(run));
      RunGrows(run, e);
      run := run + [Apply(Last(run), e)];
      if closed {
        return {};
      }
      closed := true;
      captured := pendingTunnels;
      pendingTunnels := {};
      tunnels := map[];
    }
  }

  /** A create that is cancelled while its response arrives. If the cancellation is first, the request is taken back,
      and the response opens nothing; if the response is first, its result is there for the caller to receive. */
  method CancelledCreate(channel: ControlChannel, id: Id, response: Response, answeredFirst: bool)
    returns (ok: bool, mine: bool, sent: Option<Result>)
    requires channel.Valid() && id !in Last(channel.run).requests
    modifies channel
    ensures channel.Valid()
    ensures ok ==> mine == !answeredFirst && sent.Some? == answeredFirst
    ensures !ok || mine ==> channel.View() == old(channel.View())
    ensures ok && !mine ==>
              && id in Last(channel.run).requests
              && Last(channel.run).requests[id].pc == Draining && Last(channel.run).requests[id].buffer == sent
  {
    hide IsRun, Inv;
    RunKeepsInv(channel.run, |channel.run| - 1);
    PendingFacts(Last(channel.run));
    assert channel.pendingTunnels + {id} - {id} == channel.pendingTunnels;
    mine, sent := false, None;
    ok := channel.BeginCreate(id);
    if ok {
      channel.Elsewhere(Acts(id, WriteSucceeds));
      channel.Elsewhere(Acts(id, IsCancelled));
      if answeredFirst {
        sent := channel.HandleOpenTunnelRsp(id, response);
      }
      mine := channel.WithdrawRequest(id, Rechecks);
      if !answeredFirst {
        sent := channel.HandleOpenTunnelRsp(id, response);
      }
    }
  }
}
