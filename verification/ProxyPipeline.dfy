/**
 Proxy connection requests of a control channel (client.go: handleProxyConnReq, the worker loops and the response loop;
 tunnel.go: Close and the proxy response count). Workers, the response loop, the read loop and any number of
 Close calls interleave at their mutex-held regions and channel operations. Requests and tunnels are numbered.
 */
module ProxyPipeline {
  import opened Content
  import opened Runs
  import opened Sets

  type Id = nat
  type TunnelId = nat
  type Chan = nat
  type Thread = nat

  const WORKER_LIMIT: nat := 64
  const QUEUE_LIMIT: nat := 256
  const RESPONSE_LIMIT: nat := 256

  /** How many workers there are, and how much the two queues hold. */
  datatype Limits = Limits(workers: nat, requests: nat, responses: nat)

  /** The limits of a channel: those configured, or the defaults. */
  function LimitsFor(workers: int, requests: int, responses: int): (l: Limits)
    ensures l.workers > 0 && l.requests > 0 && l.responses > 0
  {
    Limits(if workers <= 0 then WORKER_LIMIT else workers,
           if requests <= 0 then QUEUE_LIMIT else requests,
           if responses <= 0 then RESPONSE_LIMIT else responses)
  }

  // ---------------------------------------------------------------- the tunnel

  /** The guarded fields of a tunnel. */
  datatype Tunnel = Tunnel(proxyPending: nat, proxyDrained: Option<Chan>, closing: bool, closed: bool)

  function AddResponse(t: Tunnel, newDrained: Chan): (r: Tunnel) {
    t.(proxyPending := t.proxyPending + 1,
       proxyDrained := if t.proxyPending == 0 then Some(newDrained) else t.proxyDrained)
  }

  function CompleteResponse(t: Tunnel): (r: Tunnel) {
    if t.proxyPending == 0 then t
    else t.(proxyPending := t.proxyPending - 1,
            proxyDrained := if t.proxyPending == 1 then None else t.proxyDrained)
  }

  // ---------------------------------------------------------------- the state machine

  /** Where a request stands: in the request queue; with a worker; processed, the worker handing its response over;
      in the response queue; with the response loop, before and after the write; completed; or dropped. */
  datatype Stage =
    | Queued
    | Working(worker: nat)
    | Handing(worker: nat)
    | Awaiting
    | Writing
    | Written
    | Done
    | Dropped

  /** A request that was taken up, with the tunnel it counts for. */
  datatype Request = Request(tunnel: Option<TunnelId>, stage: Stage)

  datatype Message = ProxyConnRsp(id: Id) | CloseTunnelReq(tunnel: TunnelId)

  /** A call of the tunnel's Close. `before` are the tunnel's requests taken up before its first region. */
  datatype Closer =
    | CloseHead(tunnel: TunnelId)
    | AwaitsDrain(tunnel: TunnelId, drained: Chan, send: bool, before: set<Id>)
    | Sends(tunnel: TunnelId, send: bool, before: set<Id>)
    | Over

  /** `cancelled` is the lifecycle context; `broken` says that a response could not be written. `exited` are the
      workers that returned. `snapshots` records, for each tunnel, the requests before the Close that sends for it, and
      `senders` that Close. */
  datatype State = State(
    limits: Limits,
    tunnels: map<TunnelId, Tunnel>,
    registered: set<TunnelId>,
    requests: map<Id, Request>,
    closers: map<Thread, Closer>,
    wire: seq<Message>,
    made: nat,
    shut: set<Chan>,
    cancelled: bool,
    broken: bool,
    exited: set<nat>,
    loopExited: bool,
    snapshots: map<TunnelId, set<Id>>,
    senders: map<TunnelId, Thread>
  )

  ghost predicate Initial(s: State) {
    s == State(s.limits, map[], {}, map[], map[], [], 0, {}, false, false, {}, false, map[], map[])
  }

  /** One step of a worker or of the response loop with a request. */
  datatype Step =
    | TakeTask(worker: nat)
    | Process
    | HandOver
    | HandOverCancelled
    | LoopTakes
    | WriteSucceeds
    | WriteFails(sent: bool)
    | Complete

  datatype CloseStep = BeginClose | DrainSeen | GiveUp | SendClose(sent: bool)

  datatype Event =
    | OpenTunnel(tunnel: TunnelId)
    | RemoveTunnel(tunnel: TunnelId)
    | TunnelEnds(tunnel: TunnelId)
    | Handle(id: Id, tunnel: TunnelId, acceptable: bool)
    | Moves(id: Id, step: Step)
    | WorkerExits(worker: nat)
    | LoopExits
    | Cancel
    | CallClose(thread: Thread, tunnel: TunnelId)
    | Closes(thread: Thread, close: CloseStep)

  function QueuedIn(requests: map<Id, Request>): (r: set<Id>) {
    set i | i in requests && requests[i].stage.Queued?
  }

  function AwaitingIn(requests: map<Id, Request>): (r: set<Id>) {
    set i | i in requests && requests[i].stage.Awaiting?
  }

  /** The worker that holds a request. */
  function WorkerOf(q: Request): (w: Option<nat>) {
    match q.stage
    case Working(w) => Some(w)
    case Handing(w) => Some(w)
    case _ => None
  }

  predicate WithLoop(q: Request) {
    q.stage.Writing? || q.stage.Written?
  }

  ghost predicate WorkerFree(s: State, worker: nat) {
    && worker < s.limits.workers && worker !in s.exited
    && forall i :: i in s.requests ==> WorkerOf(s.requests[i]) != Some(worker)
  }

  ghost predicate LoopFree(s: State) {
    !s.loopExited && forall i :: i in s.requests ==> !WithLoop(s.requests[i])
  }

  ghost predicate CanMove(s: State, q: Request, step: Step) {
    match step
    case TakeTask(worker) => q.stage.Queued? && WorkerFree(s, worker)
    case Process => q.stage.Working?
    case HandOver => q.stage.Handing? && |AwaitingIn(s.requests)| < s.limits.responses
    case HandOverCancelled => q.stage.Handing? && s.cancelled
    case LoopTakes => q.stage.Awaiting? && LoopFree(s)
    case WriteSucceeds => q.stage.Writing?
    case WriteFails(_) => q.stage.Writing?
    case Complete => q.stage.Written?
  }

  ghost predicate CanClose(s: State, c: Closer, step: CloseStep) {
    match step
    case BeginClose => c.CloseHead? && c.tunnel in s.tunnels
    case DrainSeen => c.AwaitsDrain? && c.drained in s.shut
    case GiveUp => true
    case SendClose(_) => c.Sends?
  }

  ghost predicate Enabled(s: State, e: Event) {
    match e
    case OpenTunnel(t) => t !in s.tunnels
    case RemoveTunnel(_) => true
    case TunnelEnds(t) => t in s.tunnels
    case Handle(id, _, _) => id !in s.requests
    case Moves(id, step) => id in s.requests && CanMove(s, s.requests[id], step)
    case WorkerExits(worker) => WorkerFree(s, worker) && s.cancelled
    case LoopExits => LoopFree(s) && s.cancelled
    case Cancel => true
    case CallClose(t, tunnel) => t !in s.closers && tunnel in s.tunnels
    case Closes(t, step) => t in s.closers && CanClose(s, s.closers[t], step)
  }

  /** Where a step takes a request. Workers and the loop drop what they took once the channel is cancelled. */
  function StageAfter(cancelled: bool, stage: Stage, step: Step): (r: Stage) {
    match step
    case TakeTask(worker) => if cancelled then Dropped else Working(worker)
    case Process => if stage.Working? then Handing(stage.worker) else stage
    case HandOver => Awaiting
    case HandOverCancelled => Dropped
    case LoopTakes => if cancelled then Dropped else Writing
    case WriteSucceeds => Written
    case WriteFails(_) => Dropped
    case Complete => Done
  }

  function Responses(id: Id, step: Step): (m: seq<Message>) {
    if step.WriteSucceeds? || (step.WriteFails? && step.sent) then [ProxyConnRsp(id)] else []
  }

  /** The workers that return with a step: those that find the channel cancelled. */
  function Exits(cancelled: bool, stage: Stage, step: Step): (w: set<nat>) {
    match step
    case TakeTask(worker) => if cancelled then {worker} else {}
    case HandOverCancelled => if stage.Handing? then {stage.worker} else {}
    case _ => {}
  }

  /** handleProxyConnReq: an acceptable request for a registered tunnel goes to the workers if their queue has
      room; anything else is answered with an error, if the response queue has room. Otherwise the request is not
      taken up, and the channel fails. */
  function Verdict(s: State, tunnel: TunnelId, acceptable: bool): (q: Option<Request>) {
    var known := tunnel in s.registered && tunnel in s.tunnels;
    var counted := if known then Some(tunnel) else None;
    if known && acceptable && |QueuedIn(s.requests)| < s.limits.requests then Some(Request(counted, Queued))
    else if |AwaitingIn(s.requests)| < s.limits.responses then Some(Request(counted, Awaiting))
    else None
  }

  /** A request is taken up; it counts for its tunnel, if that is known. */
  function TakesUp(s: State, id: Id, q: Request): (r: State)
    requires q.tunnel.Some? ==> q.tunnel.value in s.tunnels
  {
    var taken := s.(requests := s.requests[id := q]);
    if q.tunnel.None? then taken
    else
      var t := q.tunnel.value;
      taken.(made := s.made + 1, tunnels := s.tunnels[t := AddResponse(s.tunnels[t], s.made)])
  }

  function Handles(s: State, id: Id, tunnel: TunnelId, acceptable: bool): (r: State) {
    var q := Verdict(s, tunnel, acceptable);
    if q.None? then s else TakesUp(s, id, q.value)
  }

  /** The locked end of a response: its tunnel counts it off. */
  function TunnelsAfter(s: State, q: Request): (r: map<TunnelId, Tunnel>) {
    if q.tunnel.None? || q.tunnel.value !in s.tunnels then s.tunnels
    else s.tunnels[q.tunnel.value := CompleteResponse(s.tunnels[q.tunnel.value])]
  }

  function ShutAfter(s: State, q: Request): (r: set<Chan>) {
    if q.tunnel.None? || q.tunnel.value !in s.tunnels then s.shut
    else
      var t := s.tunnels[q.tunnel.value];
      if t.proxyPending == 1 && t.proxyDrained.Some? then s.shut + {t.proxyDrained.value} else s.shut
  }

  function Restaged(requests: map<Id, Request>, id: Id, stage: Stage): (r: map<Id, Request>)
    requires id in requests
  {
    requests[id := requests[id].(stage := stage)]
  }

  function Moved(s: State, id: Id, step: Step): (r: State)
    requires id in s.requests
  {
    var q := s.requests[id];
    s.(requests := Restaged(s.requests, id, StageAfter(s.cancelled, q.stage, step)),
       wire := s.wire + Responses(id, step),
       tunnels := if step.Complete? then TunnelsAfter(s, q) else s.tunnels,
       shut := if step.Complete? then ShutAfter(s, q) else s.shut,
       exited := s.exited + Exits(s.cancelled, q.stage, step),
       loopExited := s.loopExited || step.WriteFails? || (step.LoopTakes? && s.cancelled),
       broken := s.broken || step.WriteFails?)
  }

  /** The tunnel's requests so far. */
  function RequestsOf(requests: map<Id, Request>, tunnel: TunnelId): (r: set<Id>) {
    set i | i in requests && requests[i].tunnel == Some(tunnel)
  }

  /** Where a Close goes after its first region. */
  function AfterBegin(t: Tunnel, tunnel: TunnelId, send: bool, before: set<Id>): (c: Closer) {
    if t.proxyDrained.Some? then AwaitsDrain(tunnel, t.proxyDrained.value, send, before)
    else Sends(tunnel, send, before)
  }

  /** The first Close of a tunnel claims it. */
  function Claims(s: State, thread: Thread, tunnel: TunnelId): (r: State)
    requires tunnel in s.tunnels
  {
    s.(tunnels := s.tunnels[tunnel := s.tunnels[tunnel].(closing := true)],
       snapshots := s.snapshots[tunnel := RequestsOf(s.requests, tunnel)],
       senders := s.senders[tunnel := thread])
  }

  /** The first region of Close. */
  function BeginsClose(s: State, thread: Thread, tunnel: TunnelId): (r: State)
    requires tunnel in s.tunnels
  {
    var t := s.tunnels[tunnel];
    var base := if t.closed || t.closing then s else Claims(s, thread, tunnel);
    var next := if t.closed then Over else AfterBegin(t, tunnel, !t.closing, RequestsOf(s.requests, tunnel));
    base.(closers := s.closers[thread := next])
  }

  function CloseTakes(s: State, t: Thread, c: Closer, step: CloseStep): (r: State)
    requires CanClose(s, c, step)
  {
    match step
    case BeginClose => BeginsClose(s, t, c.tunnel)
    case DrainSeen => s.(closers := s.closers[t := Sends(c.tunnel, c.send, c.before)])
    case GiveUp => s.(closers := s.closers[t := Over])
    case SendClose(sent) =>
      s.(closers := s.closers[t := Over],
         wire := if c.send && sent then s.wire + [CloseTunnelReq(c.tunnel)] else s.wire)
  }

  function Apply(s: State, e: Event): (r: State)
    requires Enabled(s, e)
  {
    match e
    case OpenTunnel(t) => s.(tunnels := s.tunnels[t := Tunnel(0, None, false, false)], registered := s.registered + {t})
    case RemoveTunnel(t) => s.(registered := s.registered - {t})
    case TunnelEnds(t) => s.(tunnels := s.tunnels[t := s.tunnels[t].(closed := true)])
    case Handle(id, tunnel, acceptable) => Handles(s, id, tunnel, acceptable)
    case Moves(id, step) => Moved(s, id, step)
    case WorkerExits(worker) => s.(exited := s.exited + {worker})
    case LoopExits => s.(loopExited := true)
    case Cancel => s.(cancelled := true)
    case CallClose(t, tunnel) => s.(closers := s.closers[t := CloseHead(tunnel)])
    case Closes(t, step) => CloseTakes(s, t, s.closers[t], step)
  }

  ghost predicate Next(s: State, r: State) {
    exists e :: Enabled(s, e) && r == Apply(s, e)
  }

  ghost predicate IsRun(run: seq<State>) {
    && run != [] && Initial(run[0])
    && forall i :: 0 <= i < |run| - 1 ==> Next(run[i], run[i + 1])
  }

  lemma {:induction false} StepOf(run: seq<State>, i: nat) returns (e: Event)
    requires IsRun(run) && i + 1 < |run|
    ensures Enabled(run[i], e) && run[i + 1] == Apply(run[i], e)
  {
    hide Enabled, Apply;
    assert Next(run[i], run[i + 1]);
    e :| Enabled(run[i], e) && run[i + 1] == Apply(run[i], e);
  }

  // ---------------------------------------------------------------- every reachable state

  /** Taken up for the tunnel and not completed. */
  predicate Counts(q: Request, tunnel: TunnelId) {
    q.tunnel == Some(tunnel) && !q.stage.Done?
  }

  function CountedIn(requests: map<Id, Request>, tunnel: TunnelId): (r: set<Id>) {
    set i | i in requests && Counts(requests[i], tunnel)
  }

  /** `proxyPending` counts the requests not completed, and `proxyDrained` is open exactly while there are some. */
  ghost predicate TunnelSound(s: State, tunnel: TunnelId, t: Tunnel) {
    && t.proxyPending == |CountedIn(s.requests, tunnel)|
    && (t.proxyDrained.Some? <==> t.proxyPending > 0)
    && (t.proxyDrained.Some? ==> t.proxyDrained.value < s.made && t.proxyDrained.value !in s.shut)
  }

  ghost predicate TunnelsSound(s: State) {
    (forall t :: t in s.tunnels ==> TunnelSound(s, t, s.tunnels[t])) && ChannelsSound(s)
  }

  /** No two tunnels share a channel. */
  ghost predicate Distinct(tunnels: map<TunnelId, Tunnel>) {
    forall t, u :: t in tunnels && u in tunnels && t != u && tunnels[t].proxyDrained.Some? ==>
      tunnels[t].proxyDrained != tunnels[u].proxyDrained
  }

  ghost predicate ChannelsSound(s: State) {
    && Distinct(s.tunnels)
    && (forall i :: i in s.requests && s.requests[i].tunnel.Some? ==> s.requests[i].tunnel.value in s.tunnels)
    && (forall c :: c in s.shut ==> c < s.made)
  }

  /** A worker that has not returned holds at most one request. */
  ghost predicate Assigned(requests: map<Id, Request>, workers: nat, exited: set<nat>) {
    && (forall i, j :: i in requests && j in requests && i != j && WorkerOf(requests[i]).Some? ==>
          WorkerOf(requests[i]) != WorkerOf(requests[j]))
    && (forall i :: i in requests && WorkerOf(requests[i]).Some? ==>
          WorkerOf(requests[i]).value < workers && WorkerOf(requests[i]).value !in exited)
  }

  ghost predicate WorkersSound(s: State) {
    Assigned(s.requests, s.limits.workers, s.exited)
  }

  /** The response loop holds at most one request. */
  ghost predicate LoopSound(s: State) {
    && (forall i, j :: i in s.requests && j in s.requests && WithLoop(s.requests[i]) && WithLoop(s.requests[j]) ==>
          i == j)
    && (forall i :: i in s.requests && WithLoop(s.requests[i]) ==> !s.loopExited)
  }

  /** The queues are bounded, and only a cancelled or broken channel drops requests. */
  ghost predicate QueuesSound(s: State) {
    && |QueuedIn(s.requests)| <= s.limits.requests && |AwaitingIn(s.requests)| <= s.limits.responses
    && (forall i :: i in s.requests && s.requests[i].stage.Dropped? ==> s.cancelled || s.broken)
  }

  /** How many responses a request at this stage has on the wire, at least and at most. */
  predicate RightCount(stage: Stage, n: nat) {
    match stage
    case Written => n == 1
    case Done => n == 1
    case Dropped => n <= 1
    case _ => n == 0
  }

  ghost predicate WireSound(s: State) {
    && (forall i :: i in s.requests ==> RightCount(s.requests[i].stage, multiset(s.wire)[ProxyConnRsp(i)]))
    && (forall i: Id :: i !in s.requests ==> multiset(s.wire)[ProxyConnRsp(i)] == 0)
  }

  predicate AllWritten(wire: seq<Message>, ids: set<Id>) {
    forall i :: i in ids ==> ProxyConnRsp(i) in wire
  }

  /** How many CloseTunnelReq for a tunnel are on the wire. */
  function Closings(wire: seq<Message>, tunnel: TunnelId): (n: nat) {
    multiset(wire)[CloseTunnelReq(tunnel)]
  }

  /** Only a tunnel that some Close claimed is closed on the wire, and only once. */
  ghost predicate ClosedOnce(s: State) {
    && (forall t: TunnelId :: Closings(s.wire, t) <= if t in s.senders then 1 else 0)
    && (forall t: TunnelId :: t in s.senders <==> t in s.tunnels && s.tunnels[t].closing)
    && s.snapshots.Keys == s.senders.Keys
  }

  /** A Close that is going to send is the one that claimed its tunnel, and has not sent yet. */
  ghost predicate SenderSound(s: State, h: Thread, c: Closer) {
    (c.AwaitsDrain? || c.Sends?) && c.send ==>
      c.tunnel in s.senders && s.senders[c.tunnel] == h && c.tunnel in s.snapshots &&
      s.snapshots[c.tunnel] == c.before && Closings(s.wire, c.tunnel) == 0
  }

  ghost predicate SendersSound(s: State) {
    ClosedOnce(s) && forall h :: h in s.closers ==> SenderSound(s, h, s.closers[h])
  }

  ghost predicate CloserSound(s: State, c: Closer) {
    match c
    case AwaitsDrain(tunnel, drained, _, before) =>
      && tunnel in s.tunnels && before <= RequestsOf(s.requests, tunnel)
      && (if drained in s.shut then AllWritten(s.wire, before) else s.tunnels[tunnel].proxyDrained == Some(drained))
    case Sends(tunnel, _, before) => AllWritten(s.wire, before)
    case _ => true
  }

  ghost predicate ClosersSound(s: State) {
    forall h :: h in s.closers ==> CloserSound(s, s.closers[h])
  }

  /** Every CloseTunnelReq on the wire comes after the responses of the requests before its Close. */
  ghost predicate OrderSound(s: State) {
    forall n :: 0 <= n < |s.wire| && s.wire[n].CloseTunnelReq? ==>
      s.wire[n].tunnel in s.snapshots && AllWritten(s.wire[..n], s.snapshots[s.wire[n].tunnel])
  }

  ghost predicate Inv(s: State) {
    TunnelsSound(s) && WorkersSound(s) && LoopSound(s) && QueuesSound(s) && WireSound(s) && SendersSound(s)
      && ClosersSound(s) && OrderSound(s)
  }

  // ---------------------------------------------------------------- the counts

  lemma {:induction false} CountedElsewhere(requests: map<Id, Request>, id: Id, q: Request, tunnel: TunnelId)
    ensures CountedIn(requests, tunnel) - {id} == CountedIn(requests[id := q], tunnel) - {id}
    ensures id in CountedIn(requests, tunnel) <==> id in requests && Counts(requests[id], tunnel)
    ensures id in CountedIn(requests[id := q], tunnel) <==> Counts(q, tunnel)
  {
    hide Counts;
  }

  lemma {:induction false} CountedAfter(requests: map<Id, Request>, id: Id, q: Request, tunnel: TunnelId)
    ensures |CountedIn(requests[id := q], tunnel)| ==
              |CountedIn(requests, tunnel)| + (if Counts(q, tunnel) then 1 else 0)
              - (if id in requests && Counts(requests[id], tunnel) then 1 else 0)
  {
    hide Counts, CountedIn;
    CountedElsewhere(requests, id, q, tunnel);
    WithAndWithout(CountedIn(requests, tunnel), CountedIn(requests[id := q], tunnel), id);
  }

  lemma {:induction false} QueuedAfter(requests: map<Id, Request>, id: Id, q: Request)
    ensures |QueuedIn(requests[id := q])| ==
              |QueuedIn(requests)| + (if q.stage.Queued? then 1 else 0)
                - (if id in requests && requests[id].stage.Queued? then 1 else 0)
  {
    assert QueuedIn(requests) - {id} == QueuedIn(requests[id := q]) - {id};
    WithAndWithout(QueuedIn(requests), QueuedIn(requests[id := q]), id);
  }

  lemma {:induction false} AwaitingAfter(requests: map<Id, Request>, id: Id, q: Request)
    ensures |AwaitingIn(requests[id := q])| ==
              |AwaitingIn(requests)| + (if q.stage.Awaiting? then 1 else 0)
                - (if id in requests && requests[id].stage.Awaiting? then 1 else 0)
  {
    assert AwaitingIn(requests) - {id} == AwaitingIn(requests[id := q]) - {id};
    WithAndWithout(AwaitingIn(requests), AwaitingIn(requests[id := q]), id);
  }

  lemma {:induction false} TakesUpKeepsTunnels(s: State, id: Id, q: Request)
    requires TunnelsSound(s) && id !in s.requests && !q.stage.Done? && (q.tunnel.Some? ==> q.tunnel.value in s.tunnels)
    ensures TunnelsSound(TakesUp(s, id, q))
  {
    hide CountedIn;
    var r := TakesUp(s, id, q);
    forall t | t in s.tunnels
      ensures TunnelSound(r, t, r.tunnels[t])
    {
      CountedAfter(s.requests, id, q, t);
      assert TunnelSound(s, t, s.tunnels[t]);
    }
  }

  lemma {:induction false} CompleteKeepsTunnel(s: State, id: Id, t: TunnelId)
    requires TunnelsSound(s) && id in s.requests && s.requests[id].stage.Written? && t in s.tunnels
    ensures t in Moved(s, id, Complete).tunnels
              && TunnelSound(Moved(s, id, Complete), t, Moved(s, id, Complete).tunnels[t])
  {
    hide CountedIn, Exits, Responses;
    CountedAfter(s.requests, id, s.requests[id].(stage := Done), t);
    assert TunnelSound(s, t, s.tunnels[t]);
    if s.requests[id].tunnel.Some? {
      var u := s.requests[id].tunnel.value;
      assert t != u && s.tunnels[t].proxyDrained.Some? ==> s.tunnels[t].proxyDrained != s.tunnels[u].proxyDrained;
    }
  }

  lemma {:induction false} MovedKeepsTunnel(s: State, id: Id, step: Step, t: TunnelId)
    requires TunnelsSound(s) && id in s.requests && CanMove(s, s.requests[id], step) && t in s.tunnels
    ensures t in Moved(s, id, step).tunnels && TunnelSound(Moved(s, id, step), t, Moved(s, id, step).tunnels[t])
  {
    hide CountedIn, WorkerFree, LoopFree, AwaitingIn, Exits, Responses, TunnelsAfter, ShutAfter;
    if step.Complete? {
      CompleteKeepsTunnel(s, id, t);
    } else {
      CountedAfter(s.requests, id, s.requests[id].(stage := StageAfter(s.cancelled, s.requests[id].stage, step)), t);
      assert TunnelSound(s, t, s.tunnels[t]);
      hide TunnelsSound;
    }
  }

  /** A tunnel that keeps or loses its channel shares it with no other. */
  lemma {:induction false} UpdateKeepsDistinct(tunnels: map<TunnelId, Tunnel>, tunnel: TunnelId, t: Tunnel)
    requires Distinct(tunnels) && tunnel in tunnels
               && (t.proxyDrained.None? || t.proxyDrained == tunnels[tunnel].proxyDrained)
    ensures Distinct(tunnels[tunnel := t])
  {
  }

  lemma {:induction false} MovedKeepsChannels(s: State, id: Id, step: Step)
    requires TunnelsSound(s) && id in s.requests && CanMove(s, s.requests[id], step)
    ensures ChannelsSound(Moved(s, id, step))
  {
    hide Distinct, StageAfter, Exits, Responses, CanMove;
    if step.Complete? && s.requests[id].tunnel.Some? {
      var t := s.requests[id].tunnel.value;
      assert TunnelSound(s, t, s.tunnels[t]);
      UpdateKeepsDistinct(s.tunnels, t, CompleteResponse(s.tunnels[t]));
    }
    hide TunnelSound;
  }

  lemma {:induction false} MovedKeepsTunnels(s: State, id: Id, step: Step)
    requires TunnelsSound(s) && id in s.requests && CanMove(s, s.requests[id], step)
    ensures TunnelsSound(Moved(s, id, step))
  {
    MovedKeepsChannels(s, id, step);
    hide TunnelSound, ChannelsSound, CanMove;
    forall t | t in s.tunnels
      ensures t in Moved(s, id, step).tunnels && TunnelSound(Moved(s, id, step), t, Moved(s, id, step).tunnels[t])
    {
      MovedKeepsTunnel(s, id, step, t);
    }
  }

  lemma {:induction false} NewTunnelHasNone(s: State, tunnel: TunnelId)
    requires TunnelsSound(s) && tunnel !in s.tunnels
    ensures CountedIn(s.requests, tunnel) == {}
  {
  }

  /** TunnelsSound is about these parts of the state alone. */
  lemma {:induction false} SameTunnels(s: State, r: State)
    requires TunnelsSound(s) && r.tunnels == s.tunnels && r.requests == s.requests && r.made == s.made
               && r.shut == s.shut
    ensures TunnelsSound(r)
  {
    forall t | t in s.tunnels
      ensures TunnelSound(r, t, s.tunnels[t])
    {
      assert TunnelSound(s, t, s.tunnels[t]);
    }
  }

  /** Changing the flags of a tunnel, or adding one. */
  lemma {:induction false} FlagsKeepTunnels(s: State, tunnel: TunnelId, t: Tunnel)
    requires TunnelsSound(s)
    requires if tunnel in s.tunnels
             then t.(closing := false, closed := false) == s.tunnels[tunnel].(closing := false, closed := false)
             else t.proxyPending == 0 && t.proxyDrained.None?
    ensures TunnelsSound(s.(tunnels := s.tunnels[tunnel := t]))
  {
    if tunnel !in s.tunnels {
      NewTunnelHasNone(s, tunnel);
    }
    hide CountedIn;
  }

  lemma {:induction false} EventKeepsTunnels(s: State, e: Event)
    requires TunnelsSound(s) && Enabled(s, e)
    ensures TunnelsSound(Apply(s, e))
  {
    hide TunnelsSound, Moved, CanMove, Handles, CloseTakes, CanClose, WorkerFree, LoopFree;
    var r := Apply(s, e);
    match e
    case OpenTunnel(t) =>
      FlagsKeepTunnels(s, t, Tunnel(0, None, false, false));
      SameTunnels(s.(tunnels := r.tunnels), r);
    case TunnelEnds(t) => FlagsKeepTunnels(s, t, s.tunnels[t].(closed := true));
    case Handle(id, tunnel, acceptable) => HandleKeepsTunnels(s, id, tunnel, acceptable);
    case Moves(id, step) => MovedKeepsTunnels(s, id, step);
    case Closes(h, step) => CloseKeepsTunnels(s, h, s.closers[h], step);
    case _ => SameTunnels(s, r);
  }

  lemma {:induction false} CloseKeepsTunnels(s: State, h: Thread, c: Closer, step: CloseStep)
    requires TunnelsSound(s) && CanClose(s, c, step)
    ensures TunnelsSound(CloseTakes(s, h, c, step))
  {
    hide TunnelsSound, BeginsClose;
    match step
    case BeginClose => BeginKeepsTunnels(s, h, c.tunnel);
    case _ => SameTunnels(s, CloseTakes(s, h, c, step));
  }

  lemma {:induction false} BeginKeepsTunnels(s: State, h: Thread, t: TunnelId)
    requires TunnelsSound(s) && t in s.tunnels
    ensures TunnelsSound(BeginsClose(s, h, t))
  {
    hide TunnelsSound, RequestsOf, AfterBegin;
    FlagsKeepTunnels(s, t, s.tunnels[t].(closing := true));
    var r := BeginsClose(s, h, t);
    SameTunnels(if s.tunnels[t].closed || s.tunnels[t].closing then s
                else s.(tunnels := s.tunnels[t := s.tunnels[t].(closing := true)]), r);
  }

  lemma {:induction false} HandleKeepsTunnels(s: State, id: Id, tunnel: TunnelId, acceptable: bool)
    requires TunnelsSound(s) && id !in s.requests
    ensures TunnelsSound(Handles(s, id, tunnel, acceptable))
  {
    hide TunnelsSound, TakesUp;
    if Verdict(s, tunnel, acceptable).Some? {
      TakesUpKeepsTunnels(s, id, Verdict(s, tunnel, acceptable).value);
    }
  }

  // ---------------------------------------------------------------- workers, queues and the wire

  /** A request in one of the queues. */
  predicate Waits(q: Request) {
    q.stage.Queued? || q.stage.Awaiting?
  }

  lemma {:induction false} VerdictHasRoom(s: State, tunnel: TunnelId, acceptable: bool)
    ensures var v := Verdict(s, tunnel, acceptable);
            v.Some? ==>
              && Waits(v.value)
              && (v.value.stage.Queued? ==> |QueuedIn(s.requests)| < s.limits.requests)
              && (v.value.stage.Awaiting? ==> |AwaitingIn(s.requests)| < s.limits.responses)
  {
    hide QueuedIn, AwaitingIn;
  }

  lemma {:induction false} TakesUpFrame(s: State, id: Id, q: Request)
    requires q.tunnel.Some? ==> q.tunnel.value in s.tunnels
    ensures var r := TakesUp(s, id, q);
            r == s.(tunnels := r.tunnels, requests := r.requests, made := r.made) && r.requests == s.requests[id := q]
  {
  }

  /** What handling a request does: nothing, or a new request waits in a queue that had room. */
  lemma {:induction false} HandleTakesUp(s: State, id: Id, tunnel: TunnelId, acceptable: bool)
    requires id !in s.requests
    ensures var r := Handles(s, id, tunnel, acceptable);
            var v := Verdict(s, tunnel, acceptable);
            && r == s.(tunnels := r.tunnels, requests := r.requests, made := r.made)
            && r.requests == (if v.Some? then s.requests[id := v.value] else s.requests)
            && (v.Some? ==>
                  && Waits(v.value)
                  && (v.value.stage.Queued? ==> |QueuedIn(s.requests)| < s.limits.requests)
                  && (v.value.stage.Awaiting? ==> |AwaitingIn(s.requests)| < s.limits.responses))
  {
    hide QueuedIn, AwaitingIn, Verdict, Waits, TakesUp;
    VerdictHasRoom(s, tunnel, acceptable);
    VerdictIsKnown(s, tunnel, acceptable);
    if Verdict(s, tunnel, acceptable).Some? {
      TakesUpFrame(s, id, Verdict(s, tunnel, acceptable).value);
    }
  }

  lemma {:induction false} MovedKeepsWorkers(s: State, id: Id, step: Step)
    requires WorkersSound(s) && id in s.requests && CanMove(s, s.requests[id], step)
    ensures WorkersSound(Moved(s, id, step))
  {
    hide AwaitingIn, TunnelsAfter, ShutAfter, Responses, LoopFree;
  }

  lemma {:induction false} NewKeepsWorkers(requests: map<Id, Request>, workers: nat, exited: set<nat>, id: Id,
                                           q: Request)
    requires Assigned(requests, workers, exited) && id !in requests && Waits(q)
    ensures Assigned(requests[id := q], workers, exited)
  {
  }

  lemma {:induction false} EventKeepsWorkers(s: State, e: Event)
    requires WorkersSound(s) && Enabled(s, e)
    ensures WorkersSound(Apply(s, e))
  {
    hide Moved, CanMove, Handles, CloseTakes, CanClose, Assigned, LoopFree, Verdict;
    match e
    case Moves(id, step) => MovedKeepsWorkers(s, id, step);
    case Handle(id, tunnel, acceptable) =>
      HandleTakesUp(s, id, tunnel, acceptable);
      if Verdict(s, tunnel, acceptable).Some? {
        NewKeepsWorkers(s.requests, s.limits.workers, s.exited, id, Verdict(s, tunnel, acceptable).value);
      }
    case Closes(t, step) => CloseKeepsTheRest(s, t, s.closers[t], step);
    case WorkerExits(worker) => ExitKeepsWorkers(s, worker);
    case _ =>
  }

  lemma {:induction false} ExitKeepsWorkers(s: State, worker: nat)
    requires WorkersSound(s) && WorkerFree(s, worker)
    ensures WorkersSound(s.(exited := s.exited + {worker}))
  {
  }

  lemma {:induction false} MovedKeepsLoop(s: State, id: Id, step: Step)
    requires LoopSound(s) && id in s.requests && CanMove(s, s.requests[id], step)
    ensures LoopSound(Moved(s, id, step))
  {
    hide AwaitingIn, TunnelsAfter, ShutAfter, Responses, WorkerFree, Exits;
  }

  lemma {:induction false} EventKeepsLoop(s: State, e: Event)
    requires LoopSound(s) && Enabled(s, e)
    ensures LoopSound(Apply(s, e))
  {
    hide Moved, CanMove, Handles, CloseTakes, CanClose, AwaitingIn, QueuedIn, WorkerFree;
    match e
    case Moves(id, step) => MovedKeepsLoop(s, id, step);
    case Handle(id, tunnel, acceptable) => HandleTakesUp(s, id, tunnel, acceptable);
    case Closes(t, step) => CloseKeepsTheRest(s, t, s.closers[t], step);
    case _ =>
  }

  /** Closing a tunnel touches neither the requests nor those who work on them. */
  lemma {:induction false} CloseKeepsTheRest(s: State, t: Thread, c: Closer, step: CloseStep)
    requires CanClose(s, c, step)
    ensures var r := CloseTakes(s, t, c, step);
            r == s.(tunnels := r.tunnels, closers := r.closers, snapshots := r.snapshots, senders := r.senders,
                    wire := r.wire)
  {
  }

  lemma {:induction false} MovedKeepsQueues(s: State, id: Id, step: Step)
    requires QueuesSound(s) && id in s.requests && CanMove(s, s.requests[id], step)
    ensures QueuesSound(Moved(s, id, step))
  {
    hide AwaitingIn, QueuedIn, TunnelsAfter, ShutAfter, Responses, WorkerFree, LoopFree, Exits;
    QueuedAfter(s.requests, id, Moved(s, id, step).requests[id]);
    AwaitingAfter(s.requests, id, Moved(s, id, step).requests[id]);
  }

  lemma {:induction false} EventKeepsQueues(s: State, e: Event)
    requires QueuesSound(s) && Enabled(s, e)
    ensures QueuesSound(Apply(s, e))
  {
    hide Moved, CanMove, Handles, CloseTakes, CanClose, AwaitingIn, QueuedIn, WorkerFree, LoopFree, Verdict;
    match e
    case Moves(id, step) => MovedKeepsQueues(s, id, step);
    case Handle(id, tunnel, acceptable) =>
      HandleTakesUp(s, id, tunnel, acceptable);
      if Verdict(s, tunnel, acceptable).Some? {
        QueuedAfter(s.requests, id, Verdict(s, tunnel, acceptable).value);
        AwaitingAfter(s.requests, id, Verdict(s, tunnel, acceptable).value);
      }
    case Closes(t, step) => CloseKeepsTheRest(s, t, s.closers[t], step);
    case _ =>
  }

  lemma {:induction false} AppendCounts(wire: seq<Message>, m: Message, x: Message)
    ensures multiset(wire + [m])[x] == multiset(wire)[x] + (if m == x then 1 else 0)
  {
  }

  lemma {:induction false} MovedCounts(s: State, id: Id, step: Step, i: Id)
    requires id in s.requests
    ensures multiset(Moved(s, id, step).wire)[ProxyConnRsp(i)] ==
              multiset(s.wire)[ProxyConnRsp(i)] + (if i == id && Responses(id, step) != [] then 1 else 0)
  {
    AppendCounts(s.wire, ProxyConnRsp(id), ProxyConnRsp(i));
    assert s.wire + [] == s.wire;
  }

  /** A step that sends a response takes its request from a stage without one to a stage with one. */
  lemma {:induction false} MovedRightCount(s: State, q: Request, id: Id, step: Step, n: nat)
    requires CanMove(s, q, step) && RightCount(q.stage, n)
    ensures RightCount(StageAfter(s.cancelled, q.stage, step), n + (if Responses(id, step) != [] then 1 else 0))
  {
    hide AwaitingIn, WorkerFree, LoopFree;
  }

  lemma {:induction false} MovedKeepsWire(s: State, id: Id, step: Step)
    requires WireSound(s) && id in s.requests && CanMove(s, s.requests[id], step)
    ensures WireSound(Moved(s, id, step))
  {
    hide CanMove, TunnelsAfter, ShutAfter, Exits, RightCount, StageAfter;
    forall i: Id
      ensures multiset(Moved(s, id, step).wire)[ProxyConnRsp(i)] ==
                multiset(s.wire)[ProxyConnRsp(i)] + (if i == id && Responses(id, step) != [] then 1 else 0)
    {
      MovedCounts(s, id, step, i);
    }
    MovedRightCount(s, s.requests[id], id, step, multiset(s.wire)[ProxyConnRsp(id)]);
    hide Responses;
  }

  lemma {:induction false} CloseKeepsWire(s: State, t: Thread, c: Closer, step: CloseStep)
    requires WireSound(s) && CanClose(s, c, step)
    ensures WireSound(CloseTakes(s, t, c, step))
  {
    hide BeginsClose;
    var r := CloseTakes(s, t, c, step);
    CloseKeepsTheRest(s, t, c, step);
    CloseAppends(s, t, c, step);
    forall i: Id
      ensures multiset(r.wire)[ProxyConnRsp(i)] == multiset(s.wire)[ProxyConnRsp(i)]
    {
      AppendCounts(s.wire, CloseTunnelReq(if step.SendClose? then c.tunnel else 0), ProxyConnRsp(i));
    }
  }

  lemma {:induction false} CloseAppends(s: State, t: Thread, c: Closer, step: CloseStep)
    requires CanClose(s, c, step)
    ensures CloseTakes(s, t, c, step).wire ==
              if step.SendClose? && c.send && step.sent then s.wire + [CloseTunnelReq(c.tunnel)] else s.wire
  {
  }

  lemma {:induction false} EventKeepsWire(s: State, e: Event)
    requires WireSound(s) && Enabled(s, e)
    ensures WireSound(Apply(s, e))
  {
    hide AwaitingIn, QueuedIn, Moved, CanMove, CloseTakes, CanClose, Handles, Verdict, WorkerFree, LoopFree;
    match e
    case Moves(id, step) => MovedKeepsWire(s, id, step);
    case Closes(t, step) => CloseKeepsWire(s, t, s.closers[t], step);
    case Handle(id, tunnel, acceptable) => HandleTakesUp(s, id, tunnel, acceptable);
    case _ =>
  }

  // ---------------------------------------------------------------- closing tunnels

  lemma {:induction false} MessageCounted(wire: seq<Message>, m: Message)
    ensures m in wire <==> multiset(wire)[m] > 0
  {
  }

  /** Once all its requests are completed, a tunnel's responses are on the wire. */
  lemma {:induction false} CompletedAreWritten(s: State, tunnel: TunnelId)
    requires WireSound(s) && |CountedIn(s.requests, tunnel)| == 0
    ensures AllWritten(s.wire, RequestsOf(s.requests, tunnel))
  {
    forall i | i in RequestsOf(s.requests, tunnel)
      ensures ProxyConnRsp(i) in s.wire
    {
      assert i !in CountedIn(s.requests, tunnel);
      MessageCounted(s.wire, ProxyConnRsp(i));
    }
  }

  lemma {:induction false} ClosingsAfter(wire: seq<Message>, m: Message, t: TunnelId)
    ensures Closings(wire + [m], t) == Closings(wire, t) + (if m == CloseTunnelReq(t) then 1 else 0)
  {
    AppendCounts(wire, m, CloseTunnelReq(t));
  }

  /** SendersSound is about these parts of the state alone. */
  lemma {:induction false} SameSenders(s: State, r: State)
    requires SendersSound(s) && r.senders == s.senders && r.snapshots == s.snapshots && r.closers == s.closers
    requires r.tunnels.Keys == s.tunnels.Keys
    requires forall t :: t in s.tunnels ==> r.tunnels[t].closing == s.tunnels[t].closing
    requires forall t: TunnelId :: Closings(r.wire, t) == Closings(s.wire, t)
    ensures SendersSound(r)
  {
    hide Closings;
  }

  lemma {:induction false} MovedKeepsFlags(s: State, id: Id, step: Step)
    requires id in s.requests
    ensures var r := Moved(s, id, step);
            && r.senders == s.senders && r.snapshots == s.snapshots && r.closers == s.closers
            && r.tunnels.Keys == s.tunnels.Keys
            && (forall t :: t in s.tunnels ==> r.tunnels[t].closing == s.tunnels[t].closing)
            && (forall t: TunnelId :: Closings(r.wire, t) == Closings(s.wire, t))
  {
    hide Closings, StageAfter, Exits;
    forall t: TunnelId
      ensures Closings(Moved(s, id, step).wire, t) == Closings(s.wire, t)
    {
      ClosingsAfter(s.wire, ProxyConnRsp(id), t);
      assert s.wire + [] == s.wire;
    }
  }

  lemma {:induction false} ClaimClosesOnce(s: State, h: Thread, tunnel: TunnelId)
    requires ClosedOnce(s) && tunnel in s.tunnels && tunnel !in s.senders
    ensures ClosedOnce(Claims(s, h, tunnel))
  {
    hide Closings, RequestsOf;
  }

  lemma {:induction false} BeginClosesOnce(s: State, h: Thread, tunnel: TunnelId)
    requires ClosedOnce(s) && tunnel in s.tunnels
    ensures ClosedOnce(BeginsClose(s, h, tunnel))
  {
    var r := BeginsClose(s, h, tunnel);
    if s.tunnels[tunnel].closed || s.tunnels[tunnel].closing {
      SameClosedOnce(s, r);
    } else {
      ClaimClosesOnce(s, h, tunnel);
      SameClosedOnce(Claims(s, h, tunnel), r);
    }
    hide ClosedOnce, RequestsOf, AfterBegin, Claims;
  }

  lemma {:induction false} SameClosedOnce(s: State, r: State)
    requires ClosedOnce(s) && r.wire == s.wire && r.senders == s.senders && r.snapshots == s.snapshots
               && r.tunnels == s.tunnels
    ensures ClosedOnce(r)
  {
    hide Closings;
  }

  lemma {:induction false} BeginClosers(s: State, h: Thread, tunnel: TunnelId)
    requires tunnel in s.tunnels
    ensures h in BeginsClose(s, h, tunnel).closers
    ensures BeginsClose(s, h, tunnel).closers == s.closers[h := BeginsClose(s, h, tunnel).closers[h]]
  {
    hide RequestsOf, AfterBegin, Claims;
  }

  lemma {:induction false} BeginKeepsSender(s: State, h: Thread, tunnel: TunnelId, k: Thread)
    requires SendersSound(s) && tunnel in s.tunnels && k in s.closers && k != h
    ensures SenderSound(BeginsClose(s, h, tunnel), k, s.closers[k])
  {
    hide Closings, RequestsOf;
    assert SenderSound(s, k, s.closers[k]);
  }

  lemma {:induction false} BeginIsSender(s: State, h: Thread, tunnel: TunnelId)
    requires ClosedOnce(s) && tunnel in s.tunnels
    ensures SenderSound(BeginsClose(s, h, tunnel), h, BeginsClose(s, h, tunnel).closers[h])
  {
    hide Closings, RequestsOf;
    if !s.tunnels[tunnel].closed && !s.tunnels[tunnel].closing {
      assert tunnel !in s.senders;
    }
  }

  lemma {:induction false} BeginKeepsSenders(s: State, h: Thread, tunnel: TunnelId)
    requires SendersSound(s) && h in s.closers && tunnel in s.tunnels
    ensures SendersSound(BeginsClose(s, h, tunnel))
  {
    BeginClosesOnce(s, h, tunnel);
    BeginIsSender(s, h, tunnel);
    BeginClosers(s, h, tunnel);
    hide SenderSound, ClosedOnce, BeginsClose;
    var r := BeginsClose(s, h, tunnel);
    forall k | k in s.closers && k != h
      ensures SenderSound(r, k, s.closers[k])
    {
      BeginKeepsSender(s, h, tunnel, k);
    }
  }

  lemma {:induction false} SendKeepsSenders(s: State, h: Thread, sent: bool)
    requires SendersSound(s) && h in s.closers && s.closers[h].Sends?
    ensures SendersSound(CloseTakes(s, h, s.closers[h], SendClose(sent)))
  {
    hide Closings;
    var c := s.closers[h];
    assert SenderSound(s, h, c);
    forall t: TunnelId
      ensures Closings(s.wire + [CloseTunnelReq(c.tunnel)], t) == Closings(s.wire, t) + (if t == c.tunnel then 1 else 0)
    {
      ClosingsAfter(s.wire, CloseTunnelReq(c.tunnel), t);
    }
  }

  lemma {:induction false} CloseKeepsSenders(s: State, h: Thread, step: CloseStep)
    requires SendersSound(s) && h in s.closers && CanClose(s, s.closers[h], step)
    ensures SendersSound(CloseTakes(s, h, s.closers[h], step))
  {
    hide Closings, BeginsClose;
    match step
    case BeginClose => BeginKeepsSenders(s, h, s.closers[h].tunnel);
    case SendClose(sent) => SendKeepsSenders(s, h, sent);
    case DrainSeen => assert SenderSound(s, h, s.closers[h]);
    case GiveUp =>
  }

  lemma {:induction false} HandleKeepsFlags(s: State, id: Id, tunnel: TunnelId, acceptable: bool)
    ensures var r := Handles(s, id, tunnel, acceptable);
            && r == s.(tunnels := r.tunnels, requests := r.requests, made := r.made)
            && r.tunnels.Keys == s.tunnels.Keys
            && (forall t :: t in s.tunnels ==> r.tunnels[t].closing == s.tunnels[t].closing)
  {
    hide Verdict;
    if Verdict(s, tunnel, acceptable).Some? {
      VerdictIsKnown(s, tunnel, acceptable);
      TakesUpKeepsFlags(s, id, Verdict(s, tunnel, acceptable).value);
    }
    hide TakesUp;
  }

  lemma {:induction false} VerdictIsKnown(s: State, tunnel: TunnelId, acceptable: bool)
    ensures var v := Verdict(s, tunnel, acceptable);
            v.Some? && v.value.tunnel.Some? ==> v.value.tunnel.value in s.tunnels
  {
    hide AwaitingIn, QueuedIn;
  }

  lemma {:induction false} TakesUpKeepsFlags(s: State, id: Id, q: Request)
    requires q.tunnel.Some? ==> q.tunnel.value in s.tunnels
    ensures var r := TakesUp(s, id, q);
            && r == s.(tunnels := r.tunnels, requests := r.requests, made := r.made)
            && r.tunnels.Keys == s.tunnels.Keys
            && (forall t :: t in s.tunnels ==> r.tunnels[t].closing == s.tunnels[t].closing)
  {
  }

  lemma {:induction false} OtherKeepsSenders(s: State, e: Event)
    requires SendersSound(s) && Enabled(s, e) && !e.Moves? && !e.Handle? && !e.Closes?
    ensures SendersSound(Apply(s, e))
  {
    hide Moved, CanMove, CloseTakes, CanClose, Handles, WorkerFree, LoopFree, Closings;
  }

  lemma {:induction false} EventKeepsSenders(s: State, e: Event)
    requires SendersSound(s) && Enabled(s, e)
    ensures SendersSound(Apply(s, e))
  {
    hide Moved, CanMove, CloseTakes, CanClose, Handles, WorkerFree, LoopFree, Closings, SendersSound;
    match e
    case Moves(id, step) =>
      MovedKeepsFlags(s, id, step);
      SameSenders(s, Apply(s, e));
    case Handle(id, tunnel, acceptable) =>
      HandleKeepsFlags(s, id, tunnel, acceptable);
      SameSenders(s, Apply(s, e));
    case Closes(h, step) => CloseKeepsSenders(s, h, step);
    case _ => OtherKeepsSenders(s, e);
  }

  // Whoever waits for the tunnel to drain, or is done waiting.

  /** What a Close relies on is kept by any step that keeps requests, responses and the channel it waits for. */
  lemma {:induction false} SameCloser(s: State, r: State, c: Closer)
    requires CloserSound(s, c)
    requires s.shut <= r.shut && s.tunnels.Keys <= r.tunnels.Keys
    requires forall i :: i in s.requests ==> i in r.requests && r.requests[i].tunnel == s.requests[i].tunnel
    requires forall m :: m in s.wire ==> m in r.wire
    requires c.AwaitsDrain? && c.drained !in s.shut ==>
               if c.drained in r.shut then AllWritten(r.wire, c.before)
               else r.tunnels[c.tunnel].proxyDrained == Some(c.drained)
    ensures CloserSound(r, c)
  {
  }

  lemma {:induction false} MovedKeepsCloser(s: State, id: Id, step: Step, c: Closer)
    requires TunnelsSound(s) && WireSound(s) && CloserSound(s, c) && id in s.requests
               && CanMove(s, s.requests[id], step)
    ensures CloserSound(Moved(s, id, step), c)
  {
    var r := Moved(s, id, step);
    MovedKeepsTunnels(s, id, step);
    MovedKeepsWire(s, id, step);
    MovedKeepsFlags(s, id, step);
    if c.AwaitsDrain? && c.drained !in s.shut {
      MovedKeepsDrain(s, id, step, c);
    }
    MovedKeepsRequests(s, id, step);
    hide Moved, TunnelsSound, WireSound, CanMove;
    SameCloser(s, r, c);
  }

  lemma {:induction false} MovedKeepsRequests(s: State, id: Id, step: Step)
    requires id in s.requests
    ensures var r := Moved(s, id, step);
            && s.shut <= r.shut
            && (forall i :: i in s.requests ==> i in r.requests && r.requests[i].tunnel == s.requests[i].tunnel)
            && (forall m :: m in s.wire ==> m in r.wire)
  {
  }

  /** The channel a Close waits for is closed only by the step that completes the tunnel's last response. */
  lemma {:induction false} MovedKeepsDrain(s: State, id: Id, step: Step, c: Closer)
    requires TunnelsSound(s) && CloserSound(s, c) && id in s.requests && CanMove(s, s.requests[id], step)
    requires c.AwaitsDrain? && c.drained !in s.shut
    requires TunnelsSound(Moved(s, id, step)) && WireSound(Moved(s, id, step))
    ensures var r := Moved(s, id, step);
            && c.tunnel in r.tunnels
            && if c.drained in r.shut then AllWritten(r.wire, c.before)
               else r.tunnels[c.tunnel].proxyDrained == Some(c.drained)
  {
    var r := Moved(s, id, step);
    assert TunnelSound(s, c.tunnel, s.tunnels[c.tunnel]);
    hide CountedIn;
    if c.drained in r.shut {
      assert s.requests[id].tunnel == Some(c.tunnel);
      assert r.tunnels[c.tunnel].proxyPending == 0;
      assert TunnelSound(r, c.tunnel, r.tunnels[c.tunnel]);
      CompletedAreWritten(r, c.tunnel);
      assert RequestsOf(s.requests, c.tunnel) <= RequestsOf(r.requests, c.tunnel);
    }
  }

  lemma {:induction false} HandleKeepsCloser(s: State, id: Id, tunnel: TunnelId, acceptable: bool, c: Closer)
    requires TunnelsSound(s) && CloserSound(s, c) && id !in s.requests
    ensures CloserSound(Handles(s, id, tunnel, acceptable), c)
  {
    HandleTakesUp(s, id, tunnel, acceptable);
    HandleKeepsFlags(s, id, tunnel, acceptable);
    if c.AwaitsDrain? && c.drained !in s.shut {
      assert TunnelSound(s, c.tunnel, s.tunnels[c.tunnel]);
      HandleKeepsDrain(s, id, tunnel, acceptable, c.tunnel);
    }
    hide Handles, TunnelsSound, Verdict;
    SameCloser(s, Handles(s, id, tunnel, acceptable), c);
  }

  /** A new request leaves the open channel of a tunnel in place. */
  lemma {:induction false} HandleKeepsDrain(s: State, id: Id, tunnel: TunnelId, acceptable: bool, t: TunnelId)
    requires t in s.tunnels && s.tunnels[t].proxyPending > 0
    ensures t in Handles(s, id, tunnel, acceptable).tunnels
    ensures Handles(s, id, tunnel, acceptable).tunnels[t].proxyDrained == s.tunnels[t].proxyDrained
  {
    hide AwaitingIn, QueuedIn;
  }

  lemma {:induction false} BeginKeepsCloser(s: State, h: Thread, tunnel: TunnelId, c: Closer)
    requires tunnel in s.tunnels && CloserSound(s, c)
    ensures CloserSound(BeginsClose(s, h, tunnel), c)
  {
    hide RequestsOf, AfterBegin;
    SameCloser(s, BeginsClose(s, h, tunnel), c);
  }

  /** A Close that need not wait finds every response of the tunnel written. */
  lemma {:induction false} BeginIsSound(s: State, h: Thread, tunnel: TunnelId)
    requires TunnelsSound(s) && WireSound(s) && tunnel in s.tunnels
    ensures CloserSound(BeginsClose(s, h, tunnel), BeginsClose(s, h, tunnel).closers[h])
  {
    assert TunnelSound(s, tunnel, s.tunnels[tunnel]);
    if s.tunnels[tunnel].proxyDrained.None? {
      CompletedAreWritten(s, tunnel);
    }
    hide TunnelsSound, WireSound, RequestsOf;
  }

  lemma {:induction false} CloseKeepsClosers(s: State, h: Thread, step: CloseStep)
    requires TunnelsSound(s) && WireSound(s) && ClosersSound(s) && h in s.closers && CanClose(s, s.closers[h], step)
    ensures ClosersSound(CloseTakes(s, h, s.closers[h], step))
  {
    var c := s.closers[h];
    var r := CloseTakes(s, h, c, step);
    assert CloserSound(s, c);
    if step.BeginClose? {
      BeginIsSound(s, h, c.tunnel);
      BeginClosers(s, h, c.tunnel);
      hide CloserSound, BeginsClose, TunnelsSound, WireSound;
      forall k | k in s.closers && k != h
        ensures CloserSound(r, s.closers[k])
      {
        BeginKeepsCloser(s, h, c.tunnel, s.closers[k]);
      }
    } else {
      hide TunnelsSound, WireSound, BeginsClose;
      forall k | k in s.closers && k != h
        ensures CloserSound(r, s.closers[k])
      {
        SameCloser(s, r, s.closers[k]);
      }
    }
  }

  lemma {:induction false} OtherKeepsClosers(s: State, e: Event)
    requires ClosersSound(s) && Enabled(s, e) && !e.Moves? && !e.Handle? && !e.Closes?
    ensures ClosersSound(Apply(s, e))
  {
    hide Moved, CanMove, CloseTakes, CanClose, Handles, WorkerFree, LoopFree, RequestsOf;
    forall k | k in s.closers
      ensures CloserSound(Apply(s, e), s.closers[k])
    {
      SameCloser(s, Apply(s, e), s.closers[k]);
    }
  }

  lemma {:induction false} EventKeepsClosers(s: State, e: Event)
    requires TunnelsSound(s) && WireSound(s) && ClosersSound(s) && Enabled(s, e)
    ensures ClosersSound(Apply(s, e))
  {
    hide Moved, CanMove, CloseTakes, CanClose, Handles, WorkerFree, LoopFree, TunnelsSound, WireSound, CloserSound;
    match e
    case Moves(id, step) =>
      MovedKeepsFlags(s, id, step);
      forall k | k in s.closers
        ensures CloserSound(Apply(s, e), s.closers[k])
      {
        MovedKeepsCloser(s, id, step, s.closers[k]);
      }
    case Handle(id, tunnel, acceptable) =>
      HandleKeepsFlags(s, id, tunnel, acceptable);
      forall k | k in s.closers
        ensures CloserSound(Apply(s, e), s.closers[k])
      {
        HandleKeepsCloser(s, id, tunnel, acceptable, s.closers[k]);
      }
    case Closes(h, step) => CloseKeepsClosers(s, h, step);
    case _ => OtherKeepsClosers(s, e);
  }

  // The order on the wire.

  lemma {:induction false} LongerKeepsOrder(s: State, r: State, m: seq<Message>)
    requires OrderSound(s) && r.wire == s.wire + m && |m| <= 1
    requires forall t :: t in s.snapshots && CloseTunnelReq(t) in s.wire ==>
               t in r.snapshots && r.snapshots[t] == s.snapshots[t]
    requires m != [] && m[0].CloseTunnelReq? ==>
               m[0].tunnel in r.snapshots && AllWritten(s.wire, r.snapshots[m[0].tunnel])
    ensures OrderSound(r)
  {
    forall n | 0 <= n < |r.wire| && r.wire[n].CloseTunnelReq?
      ensures r.wire[n].tunnel in r.snapshots && AllWritten(r.wire[..n], r.snapshots[r.wire[n].tunnel])
    {
      if n < |s.wire| {
        assert r.wire[n] == s.wire[n] && r.wire[..n] == s.wire[..n];
      } else {
        assert r.wire[n] == m[0] && r.wire[..n] == s.wire;
      }
    }
  }

  lemma {:induction false} CloseKeepsOrder(s: State, h: Thread, step: CloseStep)
    requires SendersSound(s) && ClosersSound(s) && OrderSound(s) && h in s.closers && CanClose(s, s.closers[h], step)
    ensures OrderSound(CloseTakes(s, h, s.closers[h], step))
  {
    var c := s.closers[h];
    var r := CloseTakes(s, h, c, step);
    assert CloserSound(s, c) && SenderSound(s, h, c);
    CloseAppends(s, h, c, step);
    match step
    case BeginClose =>
      forall t | t in s.snapshots && CloseTunnelReq(t) in s.wire
        ensures t in r.snapshots && r.snapshots[t] == s.snapshots[t]
      {
        BeginKeepsSnapshot(s, h, c.tunnel, t);
      }
      assert r.wire == s.wire + [];
      hide OrderSound, CloseTakes, SendersSound, ClosersSound;
      LongerKeepsOrder(s, r, []);
    case SendClose(sent) =>
      var m := if c.send && sent then [CloseTunnelReq(c.tunnel)] else [];
      assert r.wire == s.wire + m;
      hide OrderSound;
      LongerKeepsOrder(s, r, m);
    case _ =>
  }

  /** Only the snapshot of a tunnel that was not closed on the wire is ever replaced. */
  lemma {:induction false} BeginKeepsSnapshot(s: State, h: Thread, tunnel: TunnelId, t: TunnelId)
    requires ClosedOnce(s) && tunnel in s.tunnels && t in s.snapshots && CloseTunnelReq(t) in s.wire
    ensures t in BeginsClose(s, h, tunnel).snapshots && BeginsClose(s, h, tunnel).snapshots[t] == s.snapshots[t]
  {
    hide RequestsOf, AfterBegin;
    MessageCounted(s.wire, CloseTunnelReq(t));
    assert Closings(s.wire, t) >= 1;
  }

  lemma {:induction false} EventKeepsOrder(s: State, e: Event)
    requires SendersSound(s) && ClosersSound(s) && OrderSound(s) && Enabled(s, e)
    ensures OrderSound(Apply(s, e))
  {
    hide CanMove, CloseTakes, CanClose, Handles, WorkerFree, LoopFree, SendersSound, ClosersSound;
    match e
    case Moves(id, step) =>
      hide OrderSound, StageAfter, Exits, TunnelsAfter, ShutAfter;
      LongerKeepsOrder(s, Apply(s, e), Responses(id, step));
    case Handle(id, tunnel, acceptable) => HandleKeepsFlags(s, id, tunnel, acceptable);
    case Closes(h, step) => hide OrderSound; CloseKeepsOrder(s, h, step);
    case _ =>
  }

  lemma {:induction false} InitialInv(s: State)
    requires Initial(s)
    ensures Inv(s)
  {
    assert QueuedIn(s.requests) == {} && AwaitingIn(s.requests) == {};
  }

  lemma {:induction false} RunKeepsInv(run: seq<State>, i: nat)
    requires IsRun(run) && i < |run|
    ensures Inv(run[i])
  {
    hide Enabled, Apply, TunnelsSound, WorkersSound, LoopSound, QueuesSound, WireSound, SendersSound, ClosersSound,
         OrderSound;
    if i == 0 {
      InitialInv(run[0]);
    } else {
      RunKeepsInv(run, i - 1);
      var e := StepOf(run, i - 1);
      EventKeepsTunnels(run[i - 1], e);
      EventKeepsWorkers(run[i - 1], e);
      EventKeepsLoop(run[i - 1], e);
      EventKeepsQueues(run[i - 1], e);
      EventKeepsWire(run[i - 1], e);
      EventKeepsSenders(run[i - 1], e);
      EventKeepsClosers(run[i - 1], e);
      EventKeepsOrder(run[i - 1], e);
    }
  }

  // ---------------------------------------------------------------- the guarantees

  function DroppedIn(requests: map<Id, Request>, tunnel: TunnelId): (r: set<Id>) {
    set i | i in requests && requests[i].tunnel == Some(tunnel) && requests[i].stage.Dropped?
  }

  /** The tunnel's requests queued, in work, awaiting the write or being written. */
  function OpenIn(requests: map<Id, Request>, tunnel: TunnelId): (r: set<Id>) {
    CountedIn(requests, tunnel) - DroppedIn(requests, tunnel)
  }

  /** `proxyPending` is the number of the tunnel's requests that are queued, in work or awaiting their write, plus
      those that were dropped; and nothing is dropped unless the channel was cancelled or a write failed. */
  lemma {:induction false} PendingCountsOpenRequests(run: seq<State>, i: nat, t: TunnelId)
    requires IsRun(run) && i < |run| && t in run[i].tunnels
    ensures var s := run[i];
            && s.tunnels[t].proxyPending == |OpenIn(s.requests, t)| + |DroppedIn(s.requests, t)|
            && (!s.cancelled && !s.broken ==>
                  DroppedIn(s.requests, t) == {} && s.tunnels[t].proxyPending == |OpenIn(s.requests, t)|)
            && (s.tunnels[t].proxyDrained.Some? <==> s.tunnels[t].proxyPending > 0)
  {
    RunKeepsInv(run, i);
    var s := run[i];
    assert TunnelSound(s, t, s.tunnels[t]);
    assert CountedIn(s.requests, t) == OpenIn(s.requests, t) + DroppedIn(s.requests, t);
    hide WorkersSound, LoopSound, WireSound, SendersSound, ClosersSound, OrderSound;
  }

  /** Each request that was taken up yields at most one ProxyConnRsp, and exactly one once it is completed. */
  lemma {:induction false} OneResponsePerRequest(run: seq<State>, i: nat, id: Id)
    requires IsRun(run) && i < |run|
    ensures multiset(run[i].wire)[ProxyConnRsp(id)] <= 1
    ensures id !in run[i].requests ==> ProxyConnRsp(id) !in run[i].wire
    ensures id in run[i].requests && run[i].requests[id].stage.Done? ==> multiset(run[i].wire)[ProxyConnRsp(id)] == 1
  {
    RunKeepsInv(run, i);
  }

  /** CloseTunnelReq is written at most once for a tunnel, and only after the responses of all requests that were
      taken up for the tunnel before the sending Close began. */
  lemma {:induction false} CloseFollowsResponses(run: seq<State>, i: nat, n: nat)
    requires IsRun(run) && i < |run| && n < |run[i].wire| && run[i].wire[n].CloseTunnelReq?
    ensures var t := run[i].wire[n].tunnel;
            && multiset(run[i].wire)[CloseTunnelReq(t)] == 1
            && t in run[i].snapshots
            && forall id :: id in run[i].snapshots[t] ==> ProxyConnRsp(id) in run[i].wire[..n]
  {
    RunKeepsInv(run, i);
    var s := run[i];
    MessageCounted(s.wire, s.wire[n]);
    assert Closings(s.wire, s.wire[n].tunnel) <= 1;
  }

  lemma {:induction false} CloseKeepsSnapshots(s: State, h: Thread, step: CloseStep, t: TunnelId)
    requires SendersSound(s) && h in s.closers && CanClose(s, s.closers[h], step) && t in s.snapshots
    ensures t in CloseTakes(s, h, s.closers[h], step).snapshots
    ensures CloseTakes(s, h, s.closers[h], step).snapshots[t] == s.snapshots[t]
  {
    hide Closings, RequestsOf, AfterBegin;
  }

  lemma {:induction false} SnapshotStays(s: State, e: Event, t: TunnelId)
    requires SendersSound(s) && Enabled(s, e) && t in s.snapshots
    ensures t in Apply(s, e).snapshots && Apply(s, e).snapshots[t] == s.snapshots[t]
  {
    hide SendersSound, CanMove, Handles, CloseTakes, CanClose, WorkerFree, LoopFree;
    match e
    case Handle(id, tunnel, acceptable) => HandleKeepsFlags(s, id, tunnel, acceptable);
    case Closes(h, step) => CloseKeepsSnapshots(s, h, step, t);
    case _ =>
  }

  lemma {:induction false} SnapshotStaysInRun(run: seq<State>, i: nat, j: nat, t: TunnelId)
    requires IsRun(run) && i <= j < |run| && t in run[i].snapshots
    ensures t in run[j].snapshots && run[j].snapshots[t] == run[i].snapshots[t]
  {
    hide IsRun, Enabled, Apply, SendersSound;
    if i < j {
      SnapshotStaysInRun(run, i, j - 1, t);
      RunKeepsInv(run, j - 1);
      var e := StepOf(run, j - 1);
      SnapshotStays(run[j - 1], e, t);
    }
  }

  /** The claiming Close takes the snapshot: all requests taken up for the tunnel so far. */
  lemma {:induction false} ClaimTakesSnapshot(s: State, h: Thread)
    requires Enabled(s, Closes(h, BeginClose))
    requires var t := s.tunnels[s.closers[h].tunnel]; !t.closing && !t.closed
    ensures var t := s.closers[h].tunnel;
            var r := Apply(s, Closes(h, BeginClose));
            t in r.snapshots && r.snapshots[t] == RequestsOf(s.requests, t)
  {
    hide RequestsOf, AfterBegin;
  }

  /** The same over runs: when the first Close of a tunnel begins in state `k`, every request taken up for the tunnel
      by then has its response on the wire before the tunnel's CloseTunnelReq, wherever and whenever that is. */
  lemma {:induction false} CloseWaitsForEarlierRequests(run: seq<State>, k: nat, i: nat, h: Thread, id: Id, n: nat)
    requires IsRun(run) && k < i < |run|
    requires Enabled(run[k], Closes(h, BeginClose)) && run[k + 1] == Apply(run[k], Closes(h, BeginClose))
    requires h in run[k].closers && run[k].closers[h].CloseHead? && run[k].closers[h].tunnel in run[k].tunnels
    requires var t := run[k].tunnels[run[k].closers[h].tunnel]; !t.closing && !t.closed
    requires id in RequestsOf(run[k].requests, run[k].closers[h].tunnel)
    requires n < |run[i].wire| && run[i].wire[n] == CloseTunnelReq(run[k].closers[h].tunnel)
    ensures ProxyConnRsp(id) in run[i].wire[..n]
  {
    hide IsRun, Enabled, Apply, RequestsOf;
    ClaimTakesSnapshot(run[k], h);
    SnapshotStaysInRun(run, k + 1, i, run[k].closers[h].tunnel);
    CloseFollowsResponses(run, i, n);
  }

  /** The queues never overflow, and neither a worker nor the response loop ever holds two requests. */
  lemma {:induction false} PipelineIsBounded(run: seq<State>, i: nat, a: Id, b: Id)
    requires IsRun(run) && i < |run|
    ensures var s := run[i];
            && |QueuedIn(s.requests)| <= s.limits.requests && |AwaitingIn(s.requests)| <= s.limits.responses
            && (a in s.requests && b in s.requests && WorkerOf(s.requests[a]).Some?
                  && WorkerOf(s.requests[a]) == WorkerOf(s.requests[b]) ==>
                  a == b && WorkerOf(s.requests[a]).value < s.limits.workers)
            && (a in s.requests && b in s.requests && WithLoop(s.requests[a]) && WithLoop(s.requests[b]) ==> a == b)
  {
    RunKeepsInv(run, i);
    hide TunnelsSound, WireSound, SendersSound, ClosersSound, OrderSound;
  }

  // ---------------------------------------------------------------- the class

  /** The run went on by one event. */
  ghost predicate WentOn(before: seq<State>, after: seq<State>, e: Event) {
    before != [] && Enabled(Last(before), e) && after == before + [Apply(Last(before), e)]
  }

  lemma {:induction false} RunGrows(run: seq<State>, e: Event)
    requires IsRun(run) && Enabled(Last(run), e)
    ensures IsRun(run + [Apply(Last(run), e)])
  {
    hide Enabled, Apply, Initial;
    var more := run + [Apply(Last(run), e)];
    forall i | 0 <= i < |more| - 1
      ensures Next(more[i], more[i + 1])
    {
      if i < |run| - 1 {
        assert Next(run[i], run[i + 1]);
      }
    }
  }

  lemma {:induction false} TunnelFacts(s: State, tunnel: TunnelId)
    requires Inv(s) && tunnel in s.tunnels
    ensures s.tunnels[tunnel].proxyPending == |CountedIn(s.requests, tunnel)|
    ensures s.tunnels[tunnel].proxyDrained.Some? <==> s.tunnels[tunnel].proxyPending > 0
    ensures s.tunnels[tunnel].proxyDrained.Some? ==> s.tunnels[tunnel].proxyDrained.value !in s.shut
    ensures s.tunnels[tunnel].proxyPending == 0 ==> AllWritten(s.wire, RequestsOf(s.requests, tunnel))
    ensures s.tunnels[tunnel].closing <==> tunnel in s.senders
    ensures !s.tunnels[tunnel].closing ==> CloseTunnelReq(tunnel) !in s.wire
  {
    assert TunnelSound(s, tunnel, s.tunnels[tunnel]);
    if s.tunnels[tunnel].proxyPending == 0 {
      CompletedAreWritten(s, tunnel);
    }
    MessageCounted(s.wire, CloseTunnelReq(tunnel));
    assert Closings(s.wire, tunnel) <= if tunnel in s.senders then 1 else 0;
    hide CountedIn, RequestsOf, AllWritten;
  }

  /** A request that was not completed is counted. */
  lemma {:induction false} CountedRequest(s: State, tunnel: TunnelId, id: Id)
    requires Inv(s) && tunnel in s.tunnels && id in s.requests && Counts(s.requests[id], tunnel)
    ensures s.tunnels[tunnel].proxyPending > 0
  {
    assert TunnelSound(s, tunnel, s.tunnels[tunnel]);
    assert id in CountedIn(s.requests, tunnel);
  }

  /** The guarded fields of one bytestreamTunnelImpl. Each method is one mutex-held region; `run` records every state of
      the pipeline there was and `Valid` says that it is a run of the machine in which the tunnel has these fields, so
      that every guarantee above holds of them. */
  class BytestreamTunnel {
    const tunnelId: TunnelId
    var proxyPending: nat
    var proxyDrained: Option<Chan>
    var closing: bool
    var closed: bool
    ghost var run: seq<State>

    constructor (tunnelId: TunnelId, ghost run: seq<State>)
      requires run != [] && IsRun(run) && Enabled(Last(run), OpenTunnel(tunnelId))
      ensures Valid() && this.tunnelId == tunnelId && WentOn(run, this.run, OpenTunnel(tunnelId))
    {
      this.tunnelId := tunnelId;
      proxyPending, proxyDrained, closing, closed := 0, None, false, false;
      RunGrows(run, OpenTunnel(tunnelId));
      this.run := run + [Apply(Last(run), OpenTunnel(tunnelId))];
    }

    function View(): (t: Tunnel)
      reads this
    {
      Tunnel(proxyPending, proxyDrained, closing, closed)
    }

    ghost predicate Valid()
      reads this
    {
      run != [] && IsRun(run) && tunnelId in Last(run).tunnels && Last(run).tunnels[tunnelId] == View()
    }

    /** The tunnel's requests that were not completed. */
    ghost function Counted(): (s: set<Id>)
      requires run != []
      reads this
    {
      CountedIn(Last(run).requests, tunnelId)
    }

    /** Every response of the tunnel is on the wire. */
    ghost predicate AllAnswered()
      requires run != []
      reads this
    {
      AllWritten(Last(run).wire, RequestsOf(Last(run).requests, tunnelId))
    }

    /** Everything that leaves this tunnel alone. */
    ghost method Elsewhere(e: Event)
      requires Valid() && Enabled(Last(run), e)
      requires tunnelId in Apply(Last(run), e).tunnels && Apply(Last(run), e).tunnels[tunnelId] == View()
      modifies this`run
      ensures Valid() && WentOn(old(run), run, e)
    {
      RunGrows(run, e);
      run := run + [Apply(Last(run), e)];
    }

    /** A request is taken up for this tunnel: the count is that of the requests not completed, and whoever closes the
        tunnel now has an open channel to wait for. */
    method AddProxyResponse(ghost id: Id, ghost acceptable: bool, newDrained: Chan)
      requires Valid() && Enabled(Last(run), Handle(id, tunnelId, acceptable)) && newDrained == Last(run).made
      requires var v := Verdict(Last(run), tunnelId, acceptable); v.Some? && v.value.tunnel == Some(tunnelId)
      modifies this
      ensures Valid() && WentOn(old(run), run, Handle(id, tunnelId, acceptable))
      ensures id in Counted() && proxyPending == |Counted()|
      ensures proxyDrained.Some? && proxyDrained.value !in Last(run).shut
      ensures old(proxyDrained).Some? ==> proxyDrained == old(proxyDrained)
    {
      hide IsRun, Inv, CountedIn, Verdict;
      ghost var before, after := Last(run), Apply(Last(run), Handle(id, tunnelId, acceptable));
      RunKeepsInv(run, |run| - 1);
      TunnelFacts(before, tunnelId);
      HandleTakesUp(before, id, tunnelId, acceptable);
      CountedElsewhere(before.requests, id, Verdict(before, tunnelId, acceptable).value, tunnelId);
      RunGrows(run, Handle(id, tunnelId, acceptable));
      RunKeepsInv(run + [after], |run|);
      TunnelFacts(after, tunnelId);
      run := run + [after];
      if proxyPending == 0 {
        proxyDrained := Some(newDrained);
      }
      proxyPending := proxyPending + 1;
    }

    /** A response was written: the guard against a count of zero never applies, and the channel that is returned to be
        closed is closed exactly when every response of the tunnel is on the wire. */
    method CompleteProxyResponse(ghost id: Id) returns (drained: Option<Chan>)
      requires Valid() && Enabled(Last(run), Moves(id, Complete)) && Last(run).requests[id].tunnel == Some(tunnelId)
      modifies this
      ensures Valid() && WentOn(old(run), run, Moves(id, Complete))
      ensures old(proxyPending) > 0 && proxyPending == old(proxyPending) - 1 == |Counted()|
      ensures drained.Some? <==> Counted() == {}
      ensures drained.Some? ==> drained == old(proxyDrained) && drained.value in Last(run).shut && AllAnswered()
      ensures drained.None? ==> proxyDrained == old(proxyDrained)
    {
      hide IsRun, Inv, CountedIn;
      ghost var before, after := Last(run), Apply(Last(run), Moves(id, Complete));
      RunKeepsInv(run, |run| - 1);
      CountedRequest(before, tunnelId, id);
      TunnelFacts(before, tunnelId);
      RunGrows(run, Moves(id, Complete));
      RunKeepsInv(run + [after], |run|);
      TunnelFacts(after, tunnelId);
      run := run + [after];
      drained := None;
      if proxyPending == 0 {
        return;
      }
      proxyPending := proxyPending - 1;
      if proxyPending == 0 {
        drained := proxyDrained;
        proxyDrained := None;
      }
    }

    /** The first region of Close. Only the first Close of an open tunnel is going to send, and nothing was sent for the
        tunnel before; one that need not wait finds every response written. */
    method BeginClose(ghost h: Thread) returns (open: bool, drained: Option<Chan>, sendClose: bool)
      requires Valid() && Enabled(Last(run), Closes(h, CloseStep.BeginClose)) && Last(run).closers[h].tunnel == tunnelId
      modifies this
      ensures Valid() && WentOn(old(run), run, Closes(h, CloseStep.BeginClose))
      ensures open <==> !closed
      ensures open && sendClose ==>
                tunnelId in Last(run).senders && Last(run).senders[tunnelId] == h
                && CloseTunnelReq(tunnelId) !in Last(run).wire
      ensures open && sendClose ==>
                tunnelId in Last(run).snapshots
                && Last(run).snapshots[tunnelId] == RequestsOf(Last(run).requests, tunnelId)
      ensures open ==> closing && (drained.None? ==> AllAnswered())
      ensures open && drained.Some? ==> drained.value !in Last(run).shut
    {
      hide IsRun, Inv, CountedIn, RequestsOf, AllWritten;
      ghost var before, after := Last(run), Apply(Last(run), Closes(h, CloseStep.BeginClose));
      RunKeepsInv(run, |run| - 1);
      TunnelFacts(before, tunnelId);
      BeginFacts(before, h);
      RunGrows(run, Closes(h, CloseStep.BeginClose));
      hide BeginsClose, CloseTakes;
      run := run + [after];
      if closed {
        return false, None, false;
      }
      open, drained, sendClose := true, proxyDrained, !closing;
      if sendClose {
        closing := true;
      }
    }

    /** The tunnel is closed. Its account goes on: what is still to be answered is counted as before. */
    method OnError()
      requires Valid()
      modifies this
      ensures Valid() && WentOn(old(run), run, TunnelEnds(tunnelId))
      ensures closed && Counted() == old(Counted()) && proxyPending == |Counted()| && proxyDrained == old(proxyDrained)
    {
      hide IsRun, Inv, CountedIn;
      RunKeepsInv(run, |run| - 1);
      TunnelFacts(Last(run), tunnelId);
      RunGrows(run, TunnelEnds(tunnelId));
      run := run + [Apply(Last(run), TunnelEnds(tunnelId))];
      if closed {
        return;
      }
      closed := true;
    }
  }

  lemma {:induction false} BeginFacts(s: State, h: Thread)
    requires Enabled(s, Closes(h, CloseStep.BeginClose))
    ensures var tunnel := s.closers[h].tunnel;
            var t := s.tunnels[tunnel];
            var r := Apply(s, Closes(h, CloseStep.BeginClose));
            && tunnel in r.tunnels && r.tunnels[tunnel] == (if t.closed then t else t.(closing := true))
            && r.requests == s.requests && r.wire == s.wire && r.shut == s.shut
            && (!t.closed && !t.closing ==>
                  && tunnel in r.senders && r.senders[tunnel] == h
                  && tunnel in r.snapshots && r.snapshots[tunnel] == RequestsOf(s.requests, tunnel))
  {
    hide RequestsOf, AfterBegin;
  }

  /** The response of a request that waits in the response queue is written and counted off. */
  method AnswerOutstanding(tunnel: BytestreamTunnel, ghost id: Id) returns (drained: Option<Chan>)
    requires tunnel.Valid() && id in Last(tunnel.run).requests && LoopFree(Last(tunnel.run))
               && !Last(tunnel.run).cancelled
    requires Last(tunnel.run).requests[id] == Request(Some(tunnel.tunnelId), Awaiting)
    modifies tunnel
    ensures tunnel.Valid() && (drained.Some? <==> tunnel.Counted() == {})
    ensures drained.Some? ==>
              drained == old(tunnel.proxyDrained) && drained.value in Last(tunnel.run).shut && tunnel.AllAnswered()
    ensures tunnel.proxyPending == old(tunnel.proxyPending) - 1 == |tunnel.Counted()|
              && tunnel.closing == old(tunnel.closing)
    ensures Last(tunnel.run).wire == old(Last(tunnel.run).wire) + [ProxyConnRsp(id)]
    ensures Last(tunnel.run).closers == old(Last(tunnel.run)).closers
  {
    hide IsRun, Inv, CountedIn, AllWritten, RequestsOf;
    tunnel.Elsewhere(Moves(id, LoopTakes));
    tunnel.Elsewhere(Moves(id, WriteSucceeds));
    drained := tunnel.CompleteProxyResponse(id);
  }

  /** A request that can only be refused is taken up, and a Close begins. */
  method CloseAfterRequest(tunnel: BytestreamTunnel, ghost id: Id, ghost h: Thread, newDrained: Chan)
    requires tunnel.Valid() && Enabled(Last(tunnel.run), Handle(id, tunnel.tunnelId, false))
               && newDrained == Last(tunnel.run).made
    requires tunnel.tunnelId in Last(tunnel.run).registered && h !in Last(tunnel.run).closers
    requires |AwaitingIn(Last(tunnel.run).requests)| < Last(tunnel.run).limits.responses
    requires tunnel.proxyPending == 0 && !tunnel.closing && !tunnel.closed
    modifies tunnel
    ensures tunnel.Valid() && tunnel.proxyPending == 1 && tunnel.proxyDrained == Some(newDrained) && tunnel.closing
    ensures Last(tunnel.run).requests == old(Last(tunnel.run)).requests[id := Request(Some(tunnel.tunnelId), Awaiting)]
    ensures Last(tunnel.run).wire == old(Last(tunnel.run).wire)
    ensures Last(tunnel.run).cancelled == old(Last(tunnel.run)).cancelled
              && Last(tunnel.run).loopExited == old(Last(tunnel.run)).loopExited
    ensures h in Last(tunnel.run).closers && Last(tunnel.run).closers[h].AwaitsDrain?
    ensures Last(tunnel.run).closers[h].tunnel == tunnel.tunnelId && Last(tunnel.run).closers[h].drained == newDrained
              && Last(tunnel.run).closers[h].send
  {
    hide IsRun, Inv, CountedIn, AwaitingIn, QueuedIn, RequestsOf;
    tunnel.AddProxyResponse(id, false, newDrained);
    tunnel.Elsewhere(CallClose(h, tunnel.tunnelId));
    var open, drained, sendClose := tunnel.BeginClose(h);
  }

  /** A tunnel is closed while a response is outstanding: Close waits for the channel that the end of the response
      closes, and sends its message after it. */
  method CloseDuringResponse(tunnel: BytestreamTunnel, ghost id: Id, ghost h: Thread, newDrained: Chan)
    requires tunnel.Valid() && Enabled(Last(tunnel.run), Handle(id, tunnel.tunnelId, false))
               && newDrained == Last(tunnel.run).made
    requires tunnel.tunnelId in Last(tunnel.run).registered && h !in Last(tunnel.run).closers
    requires |AwaitingIn(Last(tunnel.run).requests)| < Last(tunnel.run).limits.responses
    requires LoopFree(Last(tunnel.run)) && !Last(tunnel.run).cancelled
    requires tunnel.proxyPending == 0 && !tunnel.closing && !tunnel.closed
    modifies tunnel
    ensures tunnel.Valid() && tunnel.AllAnswered() && tunnel.closing
    ensures Last(tunnel.run).wire == old(Last(tunnel.run).wire) + [ProxyConnRsp(id), CloseTunnelReq(tunnel.tunnelId)]
  {
    hide IsRun, Inv, AwaitingIn;
    CloseAfterRequest(tunnel, id, h, newDrained);
    var drained := AnswerOutstanding(tunnel, id);
    tunnel.Elsewhere(Closes(h, DrainSeen));
    tunnel.Elsewhere(Closes(h, SendClose(true)));
  }
}
