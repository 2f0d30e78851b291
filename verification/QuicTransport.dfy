/**
 Ownership of the one QUIC connection of a QUICTransport (quic_transport.go). Callers of connection(), Close,
 invalidateConnection and the datagram read loops interleave at their mutex-held regions and channel operations.
 Connections, channels and goroutines are numbered. A connection comes with its handles (the quic.Transport, the
 packet socket and the proxy), which are stored and released separately from it.
 */
module QuicTransport {
  import opened Content
  import opened Runs
  import opened Sets

  type Chan = nat
  type Thread = nat
  type Conn = nat
  type Origin = string
  type ChannelId = seq<byte>
  type Channel = nat

  /** The fields that the mutex guards. Nothing reads `connectDone` before the first connect. */
  datatype Core = Core(
    quicConn: Option<Conn>,
    handles: Option<Conn>,
    origin: Origin,
    connecting: bool,
    connectDone: Chan,
    connectWaiters: int,
    closeGeneration: nat,
    channels: map<ChannelId, Channel>,
    readRunning: bool,
    readDone: Option<Chan>
  )

  // ---------------------------------------------------------------- the mutex-held regions

  datatype Decision = Stopped | WrongOrigin | Reuse(conn: Conn) | AwaitConnect(done: Chan) | Connect(done: Chan)

  /** The region at the head of connection()'s loop. */
  function Enter(core: Core, entered: Option<nat>, origin: Origin, newDone: Chan): (r: (Core, Decision)) {
    if entered.Some? && entered.value != core.closeGeneration then (core, Stopped)
    else if core.quicConn.Some? then
      (core, if core.origin != origin then WrongOrigin else Reuse(core.quicConn.value))
    else if core.connecting then
      (core.(connectWaiters := core.connectWaiters + 1), AwaitConnect(core.connectDone))
    else (core.(connecting := true, connectDone := newDone), Connect(newDone))
  }

  function LeaveWait(core: Core): (r: Core) {
    core.(connectWaiters := core.connectWaiters - 1)
  }

  /** The region after connect returned: the connect is over, and its connection is installed unless the
      generation has moved on. */
  function Install(core: Core, generation: nat, conn: Option<Conn>, origin: Origin): (r: Core) {
    var over := core.(connecting := false);
    if conn.Some? && core.closeGeneration == generation then
      over.(quicConn := conn, handles := conn, origin := origin)
    else over
  }

  function Detach(core: Core): (r: Core) {
    core.(channels := map[], readRunning := false)
  }

  /** What Close and a successful invalidateConnection do under the lock. */
  function Uninstall(core: Core): (r: Core) {
    Detach(core).(closeGeneration := core.closeGeneration + 1, quicConn := None, handles := None, origin := "")
  }

  predicate Registers(core: Core, id: ChannelId) {
    core.quicConn.Some? && id !in core.channels
  }

  function Register(core: Core, id: ChannelId, channel: Channel, newDone: Chan): (r: Core) {
    if !Registers(core, id) then core
    else
      var added := core.(channels := core.channels[id := channel]);
      if core.readRunning then added else added.(readRunning := true, readDone := Some(newDone))
  }

  function Unregister(core: Core, id: ChannelId, channel: Channel): (r: Core) {
    if id in core.channels && core.channels[id] == channel then core.(channels := core.channels - {id}) else core
  }

  /** closeDatagramChannelsForConn. */
  function CloseChannelsFor(core: Core, conn: Conn): (r: Core) {
    if core.quicConn.Some? && core.quicConn.value != conn then core
    else Detach(if core.quicConn == Some(conn) then core.(readDone := None) else core)
  }

  // ---------------------------------------------------------------- the state machine

  datatype Connect = Attempt(generation: nat, origin: Origin, done: Chan, returned: bool, conn: Option<Conn>)

  datatype Pc =
    | Head(first: Option<nat>, wanted: Origin)
    | AwaitsConnect(entered: nat, wanted: Origin, done: Chan)
    | Leaves(entered: nat, wanted: Origin, again: bool)
    | Connecting(connect: Connect)
    | StaleTears(conn: Option<Conn>)
    | Got(obtained: Conn, wanted: Origin)
    | Failed
    | CloseHead
    | CloseTears(captured: Option<Conn>, handles: Option<Conn>, readDone: Option<Chan>)
    | CloseAwaitsRead(captured: Option<Conn>, readDone: Option<Chan>)
    | CloseReturned(captured: Option<Conn>)
    | InvalidateHead(target: Conn)
    | InvalidateTears(target: Conn, handles: Option<Conn>)
    | LoopReads(source: Conn, done: Chan)
    | LoopInvalidates(source: Conn, done: Chan)
    | LoopTears(source: Conn, done: Chan, handles: Option<Conn>)
    | LoopClosesChannels(source: Conn, done: Chan)
    | LoopEnds(source: Conn, done: Chan)
    | Done

  datatype Lease = Lease(thread: Thread, connect: Connect)
  datatype Loop = Loop(thread: Thread, done: Chan)

  /** Everything but the program counters. Connections are numbered below `dialed`, with the origin they were dialed
      for. `torn` and `released` count how often a connection and its handles were closed. `tearing` names the thread
      that took a connection out of circulation and is about to close it. `loops` records the read loop started for a
      connection, `owner` the connection a datagram channel was last registered on. `lease` mirrors the program counter
      of the connecting thread. */
  datatype Shared = Shared(
    core: Core,
    made: nat,
    closed: set<Chan>,
    dialed: nat,
    origins: map<Conn, Origin>,
    torn: multiset<Conn>,
    released: multiset<Conn>,
    tearing: map<Conn, Thread>,
    loops: map<Conn, Loop>,
    owner: map<Channel, Conn>,
    lease: Option<Lease>
  )

  datatype State = State(shared: Shared, threads: map<Thread, Pc>)

  ghost predicate Initial(s: State) {
    s == State(Shared(Core(None, None, "", false, 0, 0, 0, map[], false, None), 0, {}, 0, map[],
                      multiset{}, multiset{}, map[], map[], map[], None), map[])
  }

  datatype DialStep =
    | PassHead
    | ConnectSeen
    | WaitCancelled
    | Leave
    | ConnectReturns(success: bool)
    | Relock
    | TearStale
  datatype CloseStep = Raise | TearClosed | ReadSeen
  datatype InvalidateStep = GiveUp | TryInvalidate | TearInvalidated
  datatype LoopStep = ReadFails | LoopTriesInvalidate | LoopTear | LoopCloseChannels | LoopEnd

  /** One step of a thread inside connection(), Close, invalidateConnection or datagramReadLoop. */
  datatype Step =
    | Dials(dial: DialStep)
    | Closes(close: CloseStep)
    | Invalidates(invalidate: InvalidateStep)
    | Loops(loop: LoopStep)

  datatype Event =
    | CallConnection(thread: Thread, wanted: Origin)
    | CallClose(thread: Thread)
    | CallInvalidate(thread: Thread, conn: Conn)
    | RegisterChannel(thread: Thread, id: ChannelId, channel: Channel)
    | UnregisterChannel(id: ChannelId, channel: Channel)
    | Acts(thread: Thread, step: Step)

  predicate CanDial(w: Shared, pc: Pc, step: DialStep) {
    match step
    case PassHead => pc.Head?
    case ConnectSeen => pc.AwaitsConnect? && pc.done in w.closed
    case WaitCancelled => pc.AwaitsConnect?
    case Leave => pc.Leaves?
    case ConnectReturns(_) => pc.Connecting? && !pc.connect.returned
    case Relock => pc.Connecting? && pc.connect.returned
    case TearStale => pc.StaleTears?
  }

  predicate CanClose(w: Shared, pc: Pc, step: CloseStep) {
    match step
    case Raise => pc.CloseHead?
    case TearClosed => pc.CloseTears?
    case ReadSeen => pc.CloseAwaitsRead? && (pc.readDone.Some? ==> pc.readDone.value in w.closed)
  }

  predicate CanInvalidate(pc: Pc, step: InvalidateStep) {
    match step
    case GiveUp => pc.Got?
    case TryInvalidate => pc.InvalidateHead?
    case TearInvalidated => pc.InvalidateTears?
  }

  predicate CanLoop(pc: Pc, step: LoopStep) {
    match step
    case ReadFails => pc.LoopReads?
    case LoopTriesInvalidate => pc.LoopInvalidates?
    case LoopTear => pc.LoopTears?
    case LoopCloseChannels => pc.LoopClosesChannels?
    case LoopEnd => pc.LoopEnds?
  }

  predicate CanStep(w: Shared, pc: Pc, step: Step) {
    match step
    case Dials(d) => CanDial(w, pc, d)
    case Closes(c) => CanClose(w, pc, c)
    case Invalidates(i) => CanInvalidate(pc, i)
    case Loops(l) => CanLoop(pc, l)
  }

  predicate Enabled(s: State, e: Event) {
    match e
    case CallConnection(t, _) => t !in s.threads
    case CallClose(t) => t !in s.threads
    case CallInvalidate(t, conn) => t !in s.threads && conn < s.shared.dialed
    case RegisterChannel(t, _, _) => t !in s.threads
    case UnregisterChannel(_, _) => true
    case Acts(t, step) => t in s.threads && CanStep(s.shared, s.threads[t], step)
  }

  /** One more close of a connection, or of the handles that came with it. */
  function Counted(m: multiset<Conn>, c: Option<Conn>): (r: multiset<Conn>) {
    if c.Some? then m[c.value := m[c.value] + 1] else m
  }

  /** Closing a connection and handles that were taken out of circulation. */
  function Tear(w: Shared, conn: Option<Conn>, handles: Option<Conn>): (r: Shared) {
    w.(torn := Counted(w.torn, conn), released := Counted(w.released, handles),
       tearing := if conn.Some? then w.tearing - {conn.value} else w.tearing)
  }

  /** Thread `t` takes `conn` out of circulation. */
  function Claim(w: Shared, t: Thread, conn: Option<Conn>): (r: Shared) {
    if conn.Some? then w.(tearing := w.tearing[conn.value := t]) else w
  }

  function AfterHead(entered: nat, wanted: Origin, generation: nat, decision: Decision): (pc: Pc) {
    match decision
    case Stopped => Failed
    case WrongOrigin => Failed
    case Reuse(c) => Got(c, wanted)
    case AwaitConnect(done) => AwaitsConnect(entered, wanted, done)
    case Connect(done) => Connecting(Attempt(generation, wanted, done, false, None))
  }

  function Starts(w: Shared, t: Thread, core: Core, wanted: Origin): (r: Shared) {
    w.(core := core, made := w.made + 1,
       lease := Some(Lease(t, Attempt(core.closeGeneration, wanted, w.made, false, None))))
  }

  function Returned(w: Shared, connect: Connect, success: bool): (c: Connect) {
    connect.(returned := true, conn := if success then Some(w.dialed) else None)
  }

  function Returns(w: Shared, t: Thread, connect: Connect, success: bool): (r: Shared) {
    w.(dialed := if success then w.dialed + 1 else w.dialed,
       origins := if success then w.origins[w.dialed := connect.origin] else w.origins,
       lease := Some(Lease(t, Returned(w, connect, success))))
  }

  predicate Stale(w: Shared, connect: Connect) {
    w.core.closeGeneration != connect.generation
  }

  /** The connect is over: its connection is installed, or this thread is going to close it. */
  function Finishes(w: Shared, t: Thread, connect: Connect): (r: Shared) {
    var v := w.(core := Install(w.core, connect.generation, connect.conn, connect.origin),
                closed := w.closed + {connect.done}, lease := None);
    if Stale(w, connect) then Claim(v, t, connect.conn) else v
  }

  function AfterConnect(w: Shared, connect: Connect): (pc: Pc) {
    if Stale(w, connect) then StaleTears(connect.conn)
    else if connect.conn.Some? then Got(connect.conn.value, connect.origin)
    else Failed
  }

  function Uninstalls(w: Shared, t: Thread): (r: Shared) {
    Claim(w, t, w.core.quicConn).(core := Uninstall(w.core))
  }

  function TakeDial(w: Shared, t: Thread, pc: Pc, step: DialStep): (r: (Shared, Pc))
    requires CanDial(w, pc, step)
  {
    match step
    case PassHead =>
      var (core, decision) := Enter(w.core, pc.first, pc.wanted, w.made);
      var entered := if pc.first.Some? then pc.first.value else w.core.closeGeneration;
      (if decision.Connect? then Starts(w, t, core, pc.wanted) else w.(core := core),
       AfterHead(entered, pc.wanted, w.core.closeGeneration, decision))
    case ConnectSeen => (w, Leaves(pc.entered, pc.wanted, true))
    case WaitCancelled => (w, Leaves(pc.entered, pc.wanted, false))
    case Leave => (w.(core := LeaveWait(w.core)), if pc.again then Head(Some(pc.entered), pc.wanted) else Failed)
    case ConnectReturns(success) =>
      (Returns(w, t, pc.connect, success), Connecting(Returned(w, pc.connect, success)))
    case Relock => (Finishes(w, t, pc.connect), AfterConnect(w, pc.connect))
    case TearStale => (Tear(w, pc.conn, pc.conn), Failed)
  }

  function TakeClose(w: Shared, t: Thread, pc: Pc, step: CloseStep): (r: (Shared, Pc))
    requires CanClose(w, pc, step)
  {
    match step
    case Raise => (Uninstalls(w, t), CloseTears(w.core.quicConn, w.core.handles, w.core.readDone))
    case TearClosed => (Tear(w, pc.captured, pc.handles), CloseAwaitsRead(pc.captured, pc.readDone))
    case ReadSeen => (w, CloseReturned(pc.captured))
  }

  function TakeInvalidate(w: Shared, t: Thread, pc: Pc, step: InvalidateStep): (r: (Shared, Pc))
    requires CanInvalidate(pc, step)
  {
    match step
    case GiveUp => (w, InvalidateHead(pc.obtained))
    case TryInvalidate =>
      if w.core.quicConn == Some(pc.target) then (Uninstalls(w, t), InvalidateTears(pc.target, w.core.handles))
      else (w, Done)
    case TearInvalidated => (Tear(w, Some(pc.target), pc.handles), Done)
  }

  function TakeLoop(w: Shared, t: Thread, pc: Pc, step: LoopStep): (r: (Shared, Pc))
    requires CanLoop(pc, step)
  {
    match step
    case ReadFails => (w, LoopInvalidates(pc.source, pc.done))
    case LoopTriesInvalidate =>
      if w.core.quicConn == Some(pc.source) then (Uninstalls(w, t), LoopTears(pc.source, pc.done, w.core.handles))
      else (w, LoopClosesChannels(pc.source, pc.done))
    case LoopTear => (Tear(w, Some(pc.source), pc.handles), LoopEnds(pc.source, pc.done))
    case LoopCloseChannels => (w.(core := CloseChannelsFor(w.core, pc.source)), LoopEnds(pc.source, pc.done))
    case LoopEnd => (w.(closed := w.closed + {pc.done}), Done)
  }

  /** What a step does to the shared state, and where it takes its thread. */
  function Take(w: Shared, t: Thread, pc: Pc, step: Step): (r: (Shared, Pc))
    requires CanStep(w, pc, step)
  {
    match step
    case Dials(d) => TakeDial(w, t, pc, d)
    case Closes(c) => TakeClose(w, t, pc, c)
    case Invalidates(i) => TakeInvalidate(w, t, pc, i)
    case Loops(l) => TakeLoop(w, t, pc, l)
  }

  /** registerDatagramChannel, with the read loop it may start as thread `t`. */
  function Adds(w: Shared, t: Thread, id: ChannelId, channel: Channel): (r: Shared) {
    if !Registers(w.core, id) then w
    else
      var v := w.(core := Register(w.core, id, channel, w.made), owner := w.owner[channel := w.core.quicConn.value]);
      if w.core.readRunning then v
      else v.(made := w.made + 1, loops := w.loops[w.core.quicConn.value := Loop(t, w.made)])
  }

  predicate StartsLoop(w: Shared, id: ChannelId) {
    Registers(w.core, id) && !w.core.readRunning
  }

  function Apply(s: State, e: Event): (r: State)
    requires Enabled(s, e)
  {
    match e
    case CallConnection(t, wanted) => s.(threads := s.threads[t := Head(None, wanted)])
    case CallClose(t) => s.(threads := s.threads[t := CloseHead])
    case CallInvalidate(t, conn) => s.(threads := s.threads[t := InvalidateHead(conn)])
    case RegisterChannel(t, id, channel) =>
      State(Adds(s.shared, t, id, channel),
            if StartsLoop(s.shared, id) then s.threads[t := LoopReads(s.shared.core.quicConn.value, s.shared.made)]
            else s.threads)
    case UnregisterChannel(id, channel) => s.(shared := s.shared.(core := Unregister(s.shared.core, id, channel)))
    case Acts(t, step) =>
      var (w, pc) := Take(s.shared, t, s.threads[t], step);
      State(w, s.threads[t := pc])
  }

  ghost predicate Next(s: State, r: State) {
    exists e :: Enabled(s, e) && r == Apply(s, e)
  }

  ghost predicate IsRun(run: seq<State>) {
    && run != [] && Initial(run[0])
    && forall i :: 0 <= i < |run| - 1 ==> Next(run[i], run[i + 1])
  }

  lemma {:induction false} StepOf(run: seq<State>, i: nat) returns (e: Event)
    requires IsRun(run) && i + 1 < |run|
    ensures Enabled(run[i], e) && run[i + 1] == Apply(run[i], e)
  {
    hide Enabled, Apply;
    assert Next(run[i], run[i + 1]);
    e :| Enabled(run[i], e) && run[i + 1] == Apply(run[i], e);
  }

  // ---------------------------------------------------------------- what every step keeps

  /** What is installed: the connection with its own handles and origin, its channels, and its read loop. */
  ghost predicate CoreSound(w: Shared) {
    && w.core.handles == w.core.quicConn
    && (w.core.quicConn.None? ==> w.core.channels == map[] && !w.core.readRunning)
    && (w.core.quicConn.Some? ==>
          var c := w.core.quicConn.value;
          && c in w.origins && w.core.origin == w.origins[c]
          && (w.core.readRunning <==> c in w.loops)
          && (c in w.loops ==> w.core.readDone == Some(w.loops[c].done) && w.loops[c].done !in w.closed)
          && (forall id :: id in w.core.channels ==>
                w.core.channels[id] in w.owner && w.owner[w.core.channels[id]] == c))
  }

  ghost predicate LeaseSound(w: Shared) {
    && (w.core.connecting <==> w.lease.Some?)
    && (w.lease.Some? ==>
          var connect := w.lease.value.connect;
          && w.core.quicConn.None? && connect.done == w.core.connectDone
          && connect.done < w.made && connect.done !in w.closed
          && connect.generation <= w.core.closeGeneration
          && (!connect.returned ==> connect.conn.None?)
          && (connect.conn.Some? ==> connect.conn.value in w.origins && w.origins[connect.conn.value] == connect.origin)
          && (forall c :: c in w.loops ==> w.loops[c].done != connect.done))
  }

  ghost predicate ChannelsSound(w: Shared) {
    && (forall c :: c in w.closed ==> c < w.made)
    && (forall c :: c in w.loops ==> w.loops[c].done < w.made && (w.core.quicConn == Some(c) || Gone(w, c)))
    && (forall c, d :: c in w.loops && d in w.loops && c != d ==> w.loops[c].done != w.loops[d].done)
  }

  function HeldConn(w: Shared): (c: Option<Conn>) {
    if w.lease.Some? then w.lease.value.connect.conn else None
  }

  /** In how many places a connection is: with its connect, installed, about to be closed, closed (once a count). */
  function Places(w: Shared, c: Conn): (n: nat) {
    (if HeldConn(w) == Some(c) then 1 else 0) + (if w.core.quicConn == Some(c) then 1 else 0)
    + (if c in w.tearing then 1 else 0) + w.torn[c]
  }

  /** Every connection dialed is in exactly one place; handles are released as often as their connection is closed
      or about to be released with it. */
  ghost predicate OwnersSound(w: Shared) {
    && (forall c: Conn :: c in w.origins <==> c < w.dialed)
    && (forall c: Conn :: Places(w, c) == if c < w.dialed then 1 else 0)
    && w.released == w.torn
  }

  ghost predicate Sound(w: Shared) {
    CoreSound(w) && LeaseSound(w) && ChannelsSound(w) && OwnersSound(w)
  }

  predicate Awaited(w: Shared, done: Chan) {
    done < w.made && (done in w.closed || (w.lease.Some? && w.lease.value.connect.done == done))
  }

  /** A connection that will never be installed again. */
  predicate Gone(w: Shared, c: Conn) {
    c in w.tearing || w.torn[c] > 0
  }

  predicate Tears(w: Shared, t: Thread, c: Conn) {
    c in w.tearing && w.tearing[c] == t
  }

  predicate RunsLoop(w: Shared, t: Thread, c: Conn, done: Chan) {
    c in w.loops && w.loops[c] == Loop(t, done) && done !in w.closed
  }

  /** Waiting for `readDone` is waiting for the read loop of `c`, if it has one. */
  predicate WaitsForLoop(w: Shared, c: Conn, readDone: Option<Chan>) {
    Gone(w, c) && (c in w.loops ==> readDone == Some(w.loops[c].done))
  }

  /** What a thread may rely on where it stands. */
  ghost predicate PcSound(w: Shared, t: Thread, pc: Pc) {
    match pc
    case Head(first, _) => first.Some? ==> first.value <= w.core.closeGeneration
    case AwaitsConnect(g, _, done) => g <= w.core.closeGeneration && Awaited(w, done)
    case Leaves(g, _, _) => g <= w.core.closeGeneration
    case StaleTears(conn) => conn.Some? ==> Tears(w, t, conn.value)
    case Got(c, wanted) => c in w.origins && w.origins[c] == wanted
    case CloseTears(captured, handles, readDone) =>
      && handles == captured
      && (captured.Some? ==> Tears(w, t, captured.value) && WaitsForLoop(w, captured.value, readDone))
    case CloseAwaitsRead(captured, readDone) =>
      captured.Some? ==> w.torn[captured.value] == 1 && WaitsForLoop(w, captured.value, readDone)
    case CloseReturned(captured) =>
      captured.Some? ==>
        && w.torn[captured.value] == 1
        && (captured.value in w.loops ==> w.loops[captured.value].done in w.closed)
    case InvalidateHead(c) => c in w.origins
    case InvalidateTears(c, handles) => handles == Some(c) && Tears(w, t, c)
    case LoopReads(c, done) => RunsLoop(w, t, c, done)
    case LoopInvalidates(c, done) => RunsLoop(w, t, c, done)
    case LoopTears(c, done, handles) => RunsLoop(w, t, c, done) && handles == Some(c) && Tears(w, t, c)
    case LoopClosesChannels(c, done) => RunsLoop(w, t, c, done) && Gone(w, c)
    case LoopEnds(c, done) => RunsLoop(w, t, c, done) && Gone(w, c)
    case _ => true
  }

  ghost predicate Kept(w: Shared, v: Shared, u: Thread, pc: Pc) {
    Sound(v) && (PcSound(w, u, pc) ==> PcSound(v, u, pc))
  }

  /** Connections stay where they are. */
  predicate SamePlaces(w: Shared, v: Shared) {
    && v.dialed == w.dialed && v.origins == w.origins && v.torn == w.torn && v.released == w.released
    && v.tearing == w.tearing && v.core.quicConn == w.core.quicConn && HeldConn(v) == HeldConn(w)
  }

  lemma {:induction false} SamePlacesKeep(w: Shared, v: Shared)
    requires OwnersSound(w) && SamePlaces(w, v)
    ensures OwnersSound(v)
  {
    forall c: Conn
      ensures Places(v, c) == if c < v.dialed then 1 else 0
    {
      assert Places(w, c) == if c < w.dialed then 1 else 0;
    }
  }

  /** A connection in one place is in no other. */
  lemma {:induction false} OnePlace(w: Shared, c: Conn)
    requires OwnersSound(w)
    ensures w.core.quicConn == Some(c) ==> !Gone(w, c) && HeldConn(w) != Some(c) && w.torn[c] == 0
    ensures c in w.tearing ==> w.torn[c] == 0 && w.core.quicConn != Some(c) && HeldConn(w) != Some(c)
    ensures HeldConn(w) == Some(c) ==> !Gone(w, c) && w.core.quicConn != Some(c) && w.torn[c] == 0
    ensures w.torn[c] <= 1
  {
    assert Places(w, c) <= 1;
  }

  lemma {:induction false} ReturnOwners(w: Shared, t: Thread, connect: Connect, success: bool)
    requires OwnersSound(w) && w.lease == Some(Lease(t, connect)) && connect.conn.None?
    ensures OwnersSound(Returns(w, t, connect, success))
  {
    var v := Returns(w, t, connect, success);
    forall c: Conn
      ensures Places(v, c) == if c < v.dialed then 1 else 0
    {
      assert Places(w, c) == if c < w.dialed then 1 else 0;
    }
  }

  lemma {:induction false} FinishOwners(w: Shared, t: Thread, connect: Connect)
    requires OwnersSound(w) && w.lease == Some(Lease(t, connect)) && w.core.quicConn.None?
    ensures OwnersSound(Finishes(w, t, connect))
  {
    var v := Finishes(w, t, connect);
    FinishFrame(w, t, connect);
    forall c: Conn
      ensures Places(v, c) == if c < v.dialed then 1 else 0
    {
      FinishPlaces(w, t, connect, c);
      assert Places(w, c) == if c < w.dialed then 1 else 0;
    }
    hide Finishes, Places;
  }

  lemma {:induction false} FinishFrame(w: Shared, t: Thread, connect: Connect)
    ensures var v := Finishes(w, t, connect);
            v.dialed == w.dialed && v.origins == w.origins && v.torn == w.torn && v.released == w.released
  {
  }

  lemma {:induction false} FinishPlaces(w: Shared, t: Thread, connect: Connect, c: Conn)
    requires w.lease == Some(Lease(t, connect)) && w.core.quicConn.None? && OwnersSound(w)
    ensures Places(Finishes(w, t, connect), c) == Places(w, c)
  {
    if connect.conn.Some? {
      OnePlace(w, connect.conn.value);
    }
  }

  lemma {:induction false} UninstallOwners(w: Shared, t: Thread)
    requires OwnersSound(w)
    ensures OwnersSound(Uninstalls(w, t))
  {
    var v := Uninstalls(w, t);
    forall c: Conn
      ensures Places(v, c) == if c < v.dialed then 1 else 0
    {
      assert Places(w, c) == if c < w.dialed then 1 else 0;
    }
  }

  lemma {:induction false} TearOwners(w: Shared, t: Thread, conn: Option<Conn>)
    requires OwnersSound(w) && (conn.Some? ==> Tears(w, t, conn.value))
    ensures OwnersSound(Tear(w, conn, conn))
  {
    var v := Tear(w, conn, conn);
    forall c: Conn
      ensures Places(v, c) == if c < v.dialed then 1 else 0
    {
      assert Places(w, c) == if c < w.dialed then 1 else 0;
    }
  }

  lemma {:induction false} WaitersKeep(w: Shared, waiters: int, u: Thread, pc: Pc)
    requires Sound(w)
    ensures Kept(w, w.(core := w.core.(connectWaiters := waiters)), u, pc)
  {
    SamePlacesKeep(w, w.(core := w.core.(connectWaiters := waiters)));
  }

  lemma {:induction false} StartKeeps(w: Shared, t: Thread, wanted: Origin, u: Thread, pc: Pc)
    requires Sound(w) && w.core.quicConn.None? && !w.core.connecting
    ensures Kept(w, Starts(w, t, w.core.(connecting := true, connectDone := w.made), wanted), u, pc)
  {
    SamePlacesKeep(w, Starts(w, t, w.core.(connecting := true, connectDone := w.made), wanted));
  }

  lemma {:induction false} ReturnKeeps(w: Shared, t: Thread, connect: Connect, success: bool, u: Thread, pc: Pc)
    requires Sound(w) && w.lease == Some(Lease(t, connect)) && !connect.returned
    ensures Kept(w, Returns(w, t, connect, success), u, pc)
  {
    ReturnOwners(w, t, connect, success);
    hide Places;
  }

  lemma {:induction false} FinishSound(w: Shared, t: Thread, connect: Connect)
    requires Sound(w) && w.lease == Some(Lease(t, connect)) && connect.returned
    ensures Sound(Finishes(w, t, connect))
  {
    FinishOwners(w, t, connect);
    if connect.conn.Some? {
      OnePlace(w, connect.conn.value);
    }
    hide OwnersSound;
  }

  lemma {:induction false} FinishPc(w: Shared, t: Thread, connect: Connect, u: Thread, pc: Pc)
    requires Sound(w) && w.lease == Some(Lease(t, connect)) && connect.returned
    requires PcSound(w, u, pc)
    ensures PcSound(Finishes(w, t, connect), u, pc)
  {
    if connect.conn.Some? {
      OnePlace(w, connect.conn.value);
    }
    hide OwnersSound, CoreSound;
  }

  lemma {:induction false} FinishKeeps(w: Shared, t: Thread, connect: Connect, u: Thread, pc: Pc)
    requires Sound(w) && w.lease == Some(Lease(t, connect)) && connect.returned
    ensures Kept(w, Finishes(w, t, connect), u, pc)
  {
    hide Sound, PcSound, Finishes;
    FinishSound(w, t, connect);
    if PcSound(w, u, pc) {
      FinishPc(w, t, connect, u, pc);
    }
  }

  lemma {:induction false} UninstallSound(w: Shared, t: Thread)
    requires Sound(w)
    ensures Sound(Uninstalls(w, t))
  {
    UninstallOwners(w, t);
    hide OwnersSound;
  }

  lemma {:induction false} UninstallPc(w: Shared, t: Thread, u: Thread, pc: Pc)
    requires Sound(w) && PcSound(w, u, pc)
    ensures PcSound(Uninstalls(w, t), u, pc)
  {
    if w.core.quicConn.Some? {
      OnePlace(w, w.core.quicConn.value);
    }
    hide OwnersSound, LeaseSound, ChannelsSound;
  }

  lemma {:induction false} UninstallKeeps(w: Shared, t: Thread, u: Thread, pc: Pc)
    requires Sound(w)
    ensures Kept(w, Uninstalls(w, t), u, pc)
  {
    hide Sound, PcSound, Uninstalls;
    UninstallSound(w, t);
    if PcSound(w, u, pc) {
      UninstallPc(w, t, u, pc);
    }
  }

  lemma {:induction false} TearKeeps(w: Shared, t: Thread, conn: Option<Conn>, u: Thread, pc: Pc)
    requires Sound(w) && u != t && (conn.Some? ==> Tears(w, t, conn.value))
    ensures Kept(w, Tear(w, conn, conn), u, pc)
  {
    TearOwners(w, t, conn);
    if conn.Some? {
      OnePlace(w, conn.value);
    }
    hide Places;
  }

  lemma {:induction false} CloseChannelsKeep(w: Shared, conn: Conn, u: Thread, pc: Pc)
    requires Sound(w) && Gone(w, conn)
    ensures Kept(w, w.(core := CloseChannelsFor(w.core, conn)), u, pc)
    ensures CloseChannelsFor(w.core, conn) == w.core
  {
    assert Places(w, conn) <= 1;
  }

  lemma {:induction false} LoopEndKeeps(w: Shared, t: Thread, conn: Conn, done: Chan, u: Thread, pc: Pc)
    requires Sound(w) && u != t && RunsLoop(w, t, conn, done) && Gone(w, conn)
    ensures Kept(w, w.(closed := w.closed + {done}), u, pc)
  {
    SamePlacesKeep(w, w.(closed := w.closed + {done}));
    assert Places(w, conn) <= 1;
  }

  lemma {:induction false} AddLease(w: Shared, t: Thread, id: ChannelId, channel: Channel)
    requires Sound(w)
    ensures LeaseSound(Adds(w, t, id, channel))
  {
    hide OwnersSound;
  }

  lemma {:induction false} AddSound(w: Shared, t: Thread, id: ChannelId, channel: Channel)
    requires Sound(w)
    ensures Sound(Adds(w, t, id, channel))
  {
    SamePlacesKeep(w, Adds(w, t, id, channel));
    AddLease(w, t, id, channel);
    AddChannels(w, t, id, channel);
    hide OwnersSound, LeaseSound, ChannelsSound;
    assert forall c :: c in w.closed ==> c < w.made by {
      ClosedAreMade(w);
    }
  }

  lemma {:induction false} ClosedAreMade(w: Shared)
    requires ChannelsSound(w)
    ensures forall c :: c in w.closed ==> c < w.made
  {
  }

  lemma {:induction false} AddChannels(w: Shared, t: Thread, id: ChannelId, channel: Channel)
    requires ChannelsSound(w)
    ensures ChannelsSound(Adds(w, t, id, channel))
  {
  }

  lemma {:induction false} AddPc(w: Shared, t: Thread, id: ChannelId, channel: Channel, u: Thread, pc: Pc)
    requires Sound(w) && PcSound(w, u, pc)
    ensures PcSound(Adds(w, t, id, channel), u, pc)
  {
    if w.core.quicConn.Some? {
      OnePlace(w, w.core.quicConn.value);
    }
    hide OwnersSound, LeaseSound;
  }

  lemma {:induction false} AddKeeps(w: Shared, t: Thread, id: ChannelId, channel: Channel, u: Thread, pc: Pc)
    requires Sound(w)
    ensures Kept(w, Adds(w, t, id, channel), u, pc)
  {
    hide Sound, PcSound, Adds;
    AddSound(w, t, id, channel);
    if PcSound(w, u, pc) {
      AddPc(w, t, id, channel, u, pc);
    }
  }

  lemma {:induction false} UnregisterSound(w: Shared, id: ChannelId, channel: Channel)
    requires Sound(w)
    ensures Sound(w.(core := Unregister(w.core, id, channel)))
  {
    SamePlacesKeep(w, w.(core := Unregister(w.core, id, channel)));
    hide OwnersSound;
  }

  lemma {:induction false} UnregisterKeeps(w: Shared, id: ChannelId, channel: Channel, u: Thread, pc: Pc)
    requires Sound(w)
    ensures Kept(w, w.(core := Unregister(w.core, id, channel)), u, pc)
  {
    UnregisterSound(w, id, channel);
    hide Sound;
  }

  lemma {:induction false} HeadSound(w: Shared, t: Thread, pc: Pc)
    requires Sound(w) && PcSound(w, t, pc) && pc.Head?
    ensures var (v, next) := TakeDial(w, t, pc, PassHead); PcSound(v, t, next)
  {
    hide OwnersSound, ChannelsSound;
  }

  lemma {:induction false} HeadKeeps(w: Shared, t: Thread, pc: Pc, u: Thread, other: Pc)
    requires Sound(w) && pc.Head?
    ensures Kept(w, TakeDial(w, t, pc, PassHead).0, u, other)
  {
    hide Sound, PcSound;
    if pc.first.Some? && pc.first.value != w.core.closeGeneration {
    } else if w.core.quicConn.Some? {
    } else if w.core.connecting {
      WaitersKeep(w, w.core.connectWaiters + 1, u, other);
    } else {
      StartKeeps(w, t, pc.wanted, u, other);
    }
  }

  /** Every step of a thread keeps the shared state sound and leaves the other threads what they rely on. */
  lemma {:induction false} TakeKeeps(w: Shared, t: Thread, pc: Pc, step: Step, u: Thread, other: Pc)
    requires Sound(w) && PcSound(w, t, pc) && CanStep(w, pc, step) && u != t
    requires pc.Connecting? ==> w.lease == Some(Lease(t, pc.connect))
    ensures Kept(w, Take(w, t, pc, step).0, u, other)
  {
    hide Sound;
    match step
    case Dials(PassHead) => HeadKeeps(w, t, pc, u, other);
    case Dials(Leave) => WaitersKeep(w, w.core.connectWaiters - 1, u, other);
    case Dials(ConnectReturns(success)) => ReturnKeeps(w, t, pc.connect, success, u, other);
    case Dials(Relock) => FinishKeeps(w, t, pc.connect, u, other);
    case Dials(TearStale) => TearKeeps(w, t, pc.conn, u, other);
    case Closes(Raise) => UninstallKeeps(w, t, u, other);
    case Closes(TearClosed) => TearKeeps(w, t, pc.captured, u, other);
    case Invalidates(TryInvalidate) => UninstallKeeps(w, t, u, other);
    case Invalidates(TearInvalidated) => TearKeeps(w, t, Some(pc.target), u, other);
    case Loops(LoopTriesInvalidate) => UninstallKeeps(w, t, u, other);
    case Loops(LoopTear) => TearKeeps(w, t, Some(pc.source), u, other);
    case Loops(LoopCloseChannels) => CloseChannelsKeep(w, pc.source, u, other);
    case Loops(LoopEnd) => LoopEndKeeps(w, t, pc.source, pc.done, u, other);
    case _ =>
  }

  /** Every step establishes what its own thread relies on next. */
  lemma {:induction false} TakeSound(w: Shared, t: Thread, pc: Pc, step: Step)
    requires Sound(w) && PcSound(w, t, pc) && CanStep(w, pc, step)
    requires pc.Connecting? ==> w.lease == Some(Lease(t, pc.connect))
    ensures var (v, next) := Take(w, t, pc, step); PcSound(v, t, next)
  {
    hide TakeDial, TakeClose, TakeInvalidate, TakeLoop, Sound, PcSound;
    match step
    case Dials(d) => DialSound(w, t, pc, d);
    case Closes(c) => CloseSound(w, t, pc, c);
    case Invalidates(i) => InvalidateSound(w, t, pc, i);
    case Loops(l) => LoopSound(w, t, pc, l);
  }

  lemma {:induction false} DialSound(w: Shared, t: Thread, pc: Pc, step: DialStep)
    requires Sound(w) && PcSound(w, t, pc) && CanDial(w, pc, step)
    requires pc.Connecting? ==> w.lease == Some(Lease(t, pc.connect))
    ensures var (v, next) := TakeDial(w, t, pc, step); PcSound(v, t, next)
  {
    match step
    case PassHead => HeadSound(w, t, pc);
    case _ => hide OwnersSound, ChannelsSound;
  }

  lemma {:induction false} CloseSound(w: Shared, t: Thread, pc: Pc, step: CloseStep)
    requires Sound(w) && PcSound(w, t, pc) && CanClose(w, pc, step)
    ensures var (v, next) := TakeClose(w, t, pc, step); PcSound(v, t, next)
  {
    match step
    case Raise => RaiseSound(w, t);
    case TearClosed =>
      if pc.captured.Some? {
        OnePlace(w, pc.captured.value);
      }
      hide Sound;
    case ReadSeen => hide Sound;
  }

  /** The connection Close captured is left, with its read loop, to this Close. */
  lemma {:induction false} RaiseSound(w: Shared, t: Thread)
    requires Sound(w)
    ensures PcSound(Uninstalls(w, t), t, CloseTears(w.core.quicConn, w.core.handles, w.core.readDone))
  {
    hide OwnersSound, ChannelsSound;
  }

  lemma {:induction false} InvalidateSound(w: Shared, t: Thread, pc: Pc, step: InvalidateStep)
    requires Sound(w) && PcSound(w, t, pc) && CanInvalidate(pc, step)
    ensures var (v, next) := TakeInvalidate(w, t, pc, step); PcSound(v, t, next)
  {
    hide OwnersSound, ChannelsSound;
  }

  lemma {:induction false} LoopSound(w: Shared, t: Thread, pc: Pc, step: LoopStep)
    requires Sound(w) && PcSound(w, t, pc) && CanLoop(pc, step)
    ensures var (v, next) := TakeLoop(w, t, pc, step); PcSound(v, t, next)
  {
    if pc.LoopInvalidates? {
      LoopIsPlaced(w, pc.source);
    }
    hide OwnersSound, ChannelsSound;
  }

  lemma {:induction false} LoopIsPlaced(w: Shared, c: Conn)
    requires ChannelsSound(w) && c in w.loops
    ensures w.core.quicConn == Some(c) || Gone(w, c)
  {
  }

  // ---------------------------------------------------------------- every reachable state

  predicate Waits(pc: Pc) {
    pc.AwaitsConnect? || pc.Leaves?
  }

  function WaitingIn(threads: map<Thread, Pc>): (s: set<Thread>) {
    set t | t in threads && Waits(threads[t])
  }

  function TearsOf(pc: Pc): (c: Option<Conn>) {
    match pc
    case StaleTears(c) => c
    case CloseTears(c, _, _) => c
    case InvalidateTears(c, _) => Some(c)
    case LoopTears(c, _, _) => Some(c)
    case _ => None
  }

  /** Only the thread that holds the lease is connecting. */
  ghost predicate Mirrors(s: State) {
    && (forall t :: t in s.threads && s.threads[t].Connecting? ==>
          s.shared.lease == Some(Lease(t, s.threads[t].connect)))
    && (s.shared.lease.Some? ==>
          && s.shared.lease.value.thread in s.threads
          && s.threads[s.shared.lease.value.thread] == Connecting(s.shared.lease.value.connect))
  }

  /** Whoever took a connection out of circulation is there to close it. */
  ghost predicate TearersAlive(s: State) {
    forall c :: c in s.shared.tearing ==>
      s.shared.tearing[c] in s.threads && TearsOf(s.threads[s.shared.tearing[c]]) == Some(c)
  }

  ghost predicate Inv(s: State) {
    && Sound(s.shared) && Mirrors(s) && TearersAlive(s)
    && (forall t :: t in s.threads ==> PcSound(s.shared, t, s.threads[t]))
    && s.shared.core.connectWaiters == |WaitingIn(s.threads)|
  }

  lemma {:induction false} WaitingAfter(threads: map<Thread, Pc>, t: Thread, pc: Pc)
    ensures |WaitingIn(threads[t := pc])| ==
              |WaitingIn(threads)| + (if Waits(pc) then 1 else 0) - (if t in threads && Waits(threads[t]) then 1 else 0)
  {
    hide Waits, WaitingIn;
    WaitingElsewhere(threads, t, pc);
    WithAndWithout(WaitingIn(threads), WaitingIn(threads[t := pc]), t);
  }

  lemma {:induction false} WaitingElsewhere(threads: map<Thread, Pc>, t: Thread, pc: Pc)
    ensures WaitingIn(threads) - {t} == WaitingIn(threads[t := pc]) - {t}
    ensures t in WaitingIn(threads) <==> t in threads && Waits(threads[t])
    ensures t in WaitingIn(threads[t := pc]) <==> Waits(pc)
  {
    hide Waits;
  }

  /** What a step does to the lease and to the count of waiters. */
  ghost predicate LeaseMoves(w: Shared, t: Thread, pc: Pc, v: Shared, next: Pc) {
    && v.lease == (if next.Connecting? then Some(Lease(t, next.connect)) else if pc.Connecting? then None else w.lease)
    && (next.Connecting? && !pc.Connecting? ==> w.lease.None?)
    && v.core.connectWaiters == w.core.connectWaiters + (if Waits(next) then 1 else 0) - (if Waits(pc) then 1 else 0)
  }

  /** What a step does to the connections out of circulation: its own thread takes one over or closes it. */
  ghost predicate TearingMoves(w: Shared, t: Thread, pc: Pc, v: Shared, next: Pc) {
    forall c :: c in v.tearing ==>
      if TearsOf(next) == Some(c) then v.tearing[c] == t
      else c in w.tearing && v.tearing[c] == w.tearing[c] && TearsOf(pc) != Some(c)
  }

  lemma {:induction false} DialLease(w: Shared, t: Thread, pc: Pc, step: DialStep)
    requires LeaseSound(w) && CanDial(w, pc, step)
    requires pc.Connecting? ==> w.lease == Some(Lease(t, pc.connect))
    ensures var (v, next) := TakeDial(w, t, pc, step); LeaseMoves(w, t, pc, v, next)
  {
  }

  lemma {:induction false} DialMoves(w: Shared, t: Thread, pc: Pc, step: DialStep)
    requires LeaseSound(w) && CanDial(w, pc, step)
    requires pc.Connecting? ==> w.lease == Some(Lease(t, pc.connect))
    ensures var (v, next) := TakeDial(w, t, pc, step);
            LeaseMoves(w, t, pc, v, next) && TearingMoves(w, t, pc, v, next)
  {
    DialLease(w, t, pc, step);
    hide LeaseMoves, LeaseSound;
  }

  lemma {:induction false} CloseMoves(w: Shared, t: Thread, pc: Pc, step: CloseStep)
    requires CanClose(w, pc, step)
    ensures var (v, next) := TakeClose(w, t, pc, step);
            LeaseMoves(w, t, pc, v, next) && TearingMoves(w, t, pc, v, next)
  {
  }

  lemma {:induction false} InvalidateMoves(w: Shared, t: Thread, pc: Pc, step: InvalidateStep)
    requires CanInvalidate(pc, step)
    ensures var (v, next) := TakeInvalidate(w, t, pc, step);
            LeaseMoves(w, t, pc, v, next) && TearingMoves(w, t, pc, v, next)
  {
  }

  lemma {:induction false} LoopMoves(w: Shared, t: Thread, pc: Pc, step: LoopStep)
    requires CanLoop(pc, step)
    ensures var (v, next) := TakeLoop(w, t, pc, step);
            LeaseMoves(w, t, pc, v, next) && TearingMoves(w, t, pc, v, next)
  {
  }

  lemma {:induction false} TakeMoves(w: Shared, t: Thread, pc: Pc, step: Step)
    requires LeaseSound(w) && CanStep(w, pc, step)
    requires pc.Connecting? ==> w.lease == Some(Lease(t, pc.connect))
    ensures var (v, next) := Take(w, t, pc, step);
            LeaseMoves(w, t, pc, v, next) && TearingMoves(w, t, pc, v, next)
  {
    hide TakeDial, TakeClose, TakeInvalidate, TakeLoop, LeaseMoves, TearingMoves;
    match step
    case Dials(d) => DialMoves(w, t, pc, d);
    case Closes(c) => CloseMoves(w, t, pc, c);
    case Invalidates(i) => InvalidateMoves(w, t, pc, i);
    case Loops(l) => LoopMoves(w, t, pc, l);
  }

  lemma {:induction false} ActKeepsInv(s: State, t: Thread, step: Step)
    requires Inv(s) && Enabled(s, Acts(t, step))
    ensures Inv(Apply(s, Acts(t, step)))
  {
    hide Sound, PcSound, CanStep, Take, Waits, WaitingIn, TearsOf;
    var pc := s.threads[t];
    var (v, next) := Take(s.shared, t, pc, step);
    forall u | u in s.threads && u != t
      ensures Kept(s.shared, v, u, s.threads[u])
    {
      TakeKeeps(s.shared, t, pc, step, u, s.threads[u]);
    }
    TakeKeeps(s.shared, t, pc, step, t + 1, Done);
    TakeSound(s.shared, t, pc, step);
    SoundLease(s.shared);
    TakeMoves(s.shared, t, pc, step);
    WaitingAfter(s.threads, t, next);
  }

  lemma {:induction false} SoundLease(w: Shared)
    requires Sound(w)
    ensures LeaseSound(w)
  {
  }

  lemma {:induction false} RegisterKeepsInv(s: State, t: Thread, id: ChannelId, channel: Channel)
    requires Inv(s) && Enabled(s, RegisterChannel(t, id, channel))
    ensures Inv(Apply(s, RegisterChannel(t, id, channel)))
  {
    hide Sound, WaitingIn;
    AddKeeps(s.shared, t, id, channel, t, Done);
    forall u | u in s.threads
      ensures Kept(s.shared, Adds(s.shared, t, id, channel), u, s.threads[u])
    {
      AddKeeps(s.shared, t, id, channel, u, s.threads[u]);
    }
    if StartsLoop(s.shared, id) {
      WaitingAfter(s.threads, t, LoopReads(s.shared.core.quicConn.value, s.shared.made));
      NewLoop(s.shared, t, id, channel);
    }
  }

  lemma {:induction false} NewLoop(w: Shared, t: Thread, id: ChannelId, channel: Channel)
    requires Sound(w) && StartsLoop(w, id)
    ensures PcSound(Adds(w, t, id, channel), t, LoopReads(w.core.quicConn.value, w.made))
  {
    ClosedAreMade(w);
  }

  lemma {:induction false} EventKeepsInv(s: State, e: Event)
    requires Inv(s) && Enabled(s, e)
    ensures Inv(Apply(s, e))
  {
    hide Sound, WaitingIn, Take, CanStep;
    match e
    case Acts(t, step) => ActKeepsInv(s, t, step);
    case RegisterChannel(t, id, channel) => RegisterKeepsInv(s, t, id, channel);
    case UnregisterChannel(id, channel) =>
      UnregisterKeeps(s.shared, id, channel, 0, Done);
      forall t | t in s.threads
        ensures Kept(s.shared, Apply(s, e).shared, t, s.threads[t])
      {
        UnregisterKeeps(s.shared, id, channel, t, s.threads[t]);
      }
    case CallConnection(t, wanted) => WaitingAfter(s.threads, t, Head(None, wanted));
    case CallClose(t) => WaitingAfter(s.threads, t, CloseHead);
    case CallInvalidate(t, conn) =>
      WaitingAfter(s.threads, t, InvalidateHead(conn));
      Dialed(s.shared, conn);
  }

  lemma {:induction false} Dialed(w: Shared, c: Conn)
    requires Sound(w) && c < w.dialed
    ensures c in w.origins
  {
  }

  lemma {:induction false} InitialInv(s: State)
    requires Initial(s)
    ensures Inv(s)
  {
    assert WaitingIn(s.threads) == {};
  }

  lemma {:induction false} RunKeepsInv(run: seq<State>, i: nat)
    requires IsRun(run) && i < |run|
    ensures Inv(run[i])
  {
    hide Inv, Enabled, Apply;
    if i == 0 {
      InitialInv(run[0]);
    } else {
      RunKeepsInv(run, i - 1);
      var e := StepOf(run, i - 1);
      EventKeepsInv(run[i - 1], e);
    }
  }

  // ---------------------------------------------------------------- the guarantees

  /** Every connection ever dialed is with the one connect that dialed it, or installed, or in the hands of the one
      thread that is about to close it, or was closed exactly once; and the handles go with it. */
  lemma {:induction false} ConnectionsConserved(run: seq<State>, i: nat, c: Conn)
    requires IsRun(run) && i < |run|
    ensures var w := run[i].shared;
            && Places(w, c) == (if c < w.dialed then 1 else 0)
            && w.torn[c] <= 1 && w.released[c] == w.torn[c]
            && (c < w.dialed && w.torn[c] == 0 && w.core.quicConn != Some(c) && !w.core.connecting ==>
                  exists t :: t in run[i].threads && TearsOf(run[i].threads[t]) == Some(c))
  {
    RunKeepsInv(run, i);
  }

  /** At most one thread connects, and only while nothing is installed. */
  lemma {:induction false} ConnectIsExclusive(run: seq<State>, i: nat)
    requires IsRun(run) && i < |run|
    ensures var s := run[i];
            && (forall t, u ::
                  t in s.threads && u in s.threads && s.threads[t].Connecting? && s.threads[u].Connecting? ==> t == u)
            && (s.shared.core.connecting <==> exists t :: t in s.threads && s.threads[t].Connecting?)
            && (s.shared.core.connecting ==> s.shared.core.quicConn.None?)
            && s.shared.core.connectWaiters == |WaitingIn(s.threads)|
  {
    RunKeepsInv(run, i);
  }

  /** A caller only gets a connection that was dialed for its own origin. */
  lemma {:induction false} CallersGetTheirOrigin(run: seq<State>, i: nat, t: Thread)
    requires IsRun(run) && i < |run| && t in run[i].threads && run[i].threads[t].Got?
    ensures run[i].threads[t].obtained in run[i].shared.origins
    ensures run[i].shared.origins[run[i].threads[t].obtained] == run[i].threads[t].wanted
  {
    RunKeepsInv(run, i);
    assert PcSound(run[i].shared, t, run[i].threads[t]);
  }

  /** The channels in the registry belong to the installed connection; without one, there are none. */
  lemma {:induction false} ChannelsBelongToConnection(run: seq<State>, i: nat, id: ChannelId)
    requires IsRun(run) && i < |run| && id in run[i].shared.core.channels
    ensures var w := run[i].shared;
            && w.core.quicConn.Some? && w.core.channels[id] in w.owner
            && w.owner[w.core.channels[id]] == w.core.quicConn.value
  {
    RunKeepsInv(run, i);
  }

  predicate RegisteredAs(w: Shared, id: ChannelId, channel: Channel) {
    id in w.core.channels && w.core.channels[id] == channel
  }

  /** Registered under no id. */
  ghost predicate TakenOut(w: Shared, channel: Channel) {
    forall id :: !RegisteredAs(w, id, channel)
  }

  /** Unregistering takes a channel out exactly if it has no other id. */
  lemma {:induction false} TakesOut(w: Shared, id: ChannelId, channel: Channel)
    ensures TakenOut(w.(core := Unregister(w.core, id, channel)), channel) <==>
              forall k :: RegisteredAs(w, k, channel) ==> k == id
  {
    var v := w.(core := Unregister(w.core, id, channel));
    assert forall k :: RegisteredAs(v, k, channel) <==> RegisteredAs(w, k, channel) && k != id;
  }

  /** The registry is as before, on the same connection, or empty. */
  predicate SameOrEmptied(w: Shared, v: Shared) {
    v.core.channels == map[] || (v.core.channels == w.core.channels && v.core.quicConn == w.core.quicConn)
  }

  lemma {:induction false} DialKeepsRegistry(w: Shared, t: Thread, pc: Pc, step: DialStep)
    requires CanDial(w, pc, step) && CoreSound(w) && (pc.Connecting? ==> w.core.quicConn.None?)
    ensures SameOrEmptied(w, TakeDial(w, t, pc, step).0)
  {
    hide Counted;
  }

  lemma {:induction false} LoopKeepsRegistry(w: Shared, t: Thread, pc: Pc, step: LoopStep)
    requires CanLoop(pc, step)
    ensures SameOrEmptied(w, TakeLoop(w, t, pc, step).0)
  {
    hide Counted;
  }

  lemma {:induction false} TakeKeepsRegistry(w: Shared, t: Thread, pc: Pc, step: Step)
    requires CanStep(w, pc, step) && CoreSound(w) && (pc.Connecting? ==> w.core.quicConn.None?)
    ensures SameOrEmptied(w, Take(w, t, pc, step).0)
  {
    hide TakeDial, TakeLoop, Counted;
    if step.Dials? {
      DialKeepsRegistry(w, t, pc, step.dial);
    } else if step.Loops? {
      LoopKeepsRegistry(w, t, pc, step.loop);
    }
  }

  lemma {:induction false} ConnectingFacts(s: State, t: Thread)
    requires Inv(s) && t in s.threads
    ensures CoreSound(s.shared) && (s.threads[t].Connecting? ==> s.shared.core.quicConn.None?)
  {
    hide PcSound, WaitingIn, OwnersSound, ChannelsSound;
  }

  /** The step registers `channel` under `id`, for the connection that is installed. */
  predicate RegistersFor(s: State, e: Event, id: ChannelId, channel: Channel) {
    e.RegisterChannel? && e.id == id && e.channel == channel && Registers(s.shared.core, id)
  }

  /** What is registered after a step was registered before it, or by it, and on the same connection. */
  lemma {:induction false} RegisteredBefore(s: State, e: Event, id: ChannelId, channel: Channel)
    requires Inv(s) && Enabled(s, e) && RegisteredAs(Apply(s, e).shared, id, channel)
    ensures RegisteredAs(s.shared, id, channel) || RegistersFor(s, e, id, channel)
    ensures Apply(s, e).shared.core.quicConn == s.shared.core.quicConn
  {
    hide Take, CanStep, Inv, CoreSound;
    if e.Acts? {
      ConnectingFacts(s, e.thread);
      TakeKeepsRegistry(s.shared, e.thread, s.threads[e.thread], e.step);
    }
  }

  /** A channel that is registered under an id under which it was not registered before got there by a registration
      in between; since then it has been there without a break, and the connection installed at that moment has been
      installed all the time. */
  lemma {:induction false} RegisteredSince(run: seq<State>, i: nat, j: nat, id: ChannelId, channel: Channel)
    returns (k: nat, e: Event)
    requires IsRun(run) && i <= j < |run|
    requires !RegisteredAs(run[i].shared, id, channel) && RegisteredAs(run[j].shared, id, channel)
    ensures i <= k < j && Enabled(run[k], e) && run[k + 1] == Apply(run[k], e) && RegistersFor(run[k], e, id, channel)
    ensures forall m :: k < m <= j ==>
              RegisteredAs(run[m].shared, id, channel) && run[m].shared.core.quicConn == run[k].shared.core.quicConn
  {
    hide IsRun, Enabled, Apply, Inv, RegisteredAs, RegistersFor;
    RunKeepsInv(run, j - 1);
    e := StepOf(run, j - 1);
    RegisteredBefore(run[j - 1], e, id, channel);
    if RegisteredAs(run[j - 1].shared, id, channel) {
      k, e := RegisteredSince(run, i, j - 1, id, channel);
    } else {
      k := j - 1;
    }
  }

  /** A channel that was taken out of the registry, by itself or with its connection, comes back only by a registration
      of its own, and then for the connection installed at that moment: none is carried over from one connection to the
      next. */
  lemma {:induction false} ChannelsReturnByRegistering(run: seq<State>, i: nat, j: nat, channel: Channel)
    returns (k: nat, e: Event, id: ChannelId)
    requires IsRun(run) && i <= j < |run|
    requires TakenOut(run[i].shared, channel) && !TakenOut(run[j].shared, channel)
    ensures i <= k < j && Enabled(run[k], e) && run[k + 1] == Apply(run[k], e) && RegistersFor(run[k], e, id, channel)
    ensures channel in run[j].shared.owner && Some(run[j].shared.owner[channel]) == run[k].shared.core.quicConn
    ensures forall m :: k < m <= j ==>
              RegisteredAs(run[m].shared, id, channel) && run[m].shared.core.quicConn == run[k].shared.core.quicConn
  {
    hide IsRun, Enabled, Apply, RegistersFor;
    id :| RegisteredAs(run[j].shared, id, channel);
    k, e := RegisteredSince(run, i, j, id, channel);
    ChannelsBelongToConnection(run, j, id);
  }

  /** A read loop that lost its connection detaches nothing: the region it then runs changes nothing at all. */
  lemma {:induction false} OldLoopsDetachNothing(run: seq<State>, i: nat, t: Thread)
    requires IsRun(run) && i + 1 < |run| && Enabled(run[i], Acts(t, Loops(LoopCloseChannels)))
    requires run[i + 1] == Apply(run[i], Acts(t, Loops(LoopCloseChannels)))
    ensures run[i + 1].shared == run[i].shared
  {
    hide IsRun;
    RunKeepsInv(run, i);
    var pc := run[i].threads[t];
    assert PcSound(run[i].shared, t, pc);
    CloseChannelsKeep(run[i].shared, pc.source, t, pc);
  }

  /** Two read loops never serve the same connection. */
  lemma {:induction false} OneLoopPerConnection(run: seq<State>, i: nat, t: Thread, u: Thread)
    requires IsRun(run) && i < |run| && t in run[i].threads && u in run[i].threads
    requires run[i].threads[t].LoopReads? && run[i].threads[u].LoopReads?
    requires run[i].threads[t].source == run[i].threads[u].source
    ensures t == u
  {
    RunKeepsInv(run, i);
    assert PcSound(run[i].shared, t, run[i].threads[t]);
    assert PcSound(run[i].shared, u, run[i].threads[u]);
  }

  /** Nothing gets installed, and the generation does not go back. */
  ghost predicate InstallsNothing(w: Shared, v: Shared) {
    && w.core.closeGeneration <= v.core.closeGeneration
    && (v.core.quicConn == w.core.quicConn || v.core.quicConn.None?)
  }

  lemma {:induction false} DialInstalls(w: Shared, t: Thread, pc: Pc, step: DialStep)
    requires CanDial(w, pc, step)
    ensures var v := TakeDial(w, t, pc, step).0;
            || InstallsNothing(w, v)
            || (step == Relock && pc.connect.conn == v.core.quicConn
                  && pc.connect.generation == w.core.closeGeneration == v.core.closeGeneration)
  {
  }

  lemma {:induction false} CloseInstalls(w: Shared, t: Thread, pc: Pc, step: CloseStep)
    requires CanClose(w, pc, step)
    ensures InstallsNothing(w, TakeClose(w, t, pc, step).0)
  {
  }

  lemma {:induction false} InvalidateInstalls(w: Shared, t: Thread, pc: Pc, step: InvalidateStep)
    requires CanInvalidate(pc, step)
    ensures InstallsNothing(w, TakeInvalidate(w, t, pc, step).0)
  {
  }

  lemma {:induction false} LoopInstalls(w: Shared, t: Thread, pc: Pc, step: LoopStep)
    requires CanLoop(pc, step)
    ensures InstallsNothing(w, TakeLoop(w, t, pc, step).0)
  {
  }

  /** Only a connect of the current generation installs, and what it installs is its own connection. */
  lemma {:induction false} OnlyCurrentConnectsInstall(s: State, e: Event)
    requires Enabled(s, e)
    ensures var w := s.shared;
            var v := Apply(s, e).shared;
            || InstallsNothing(w, v)
            || (e.Acts? && e.step == Dials(Relock) && s.threads[e.thread].connect.conn == v.core.quicConn &&
                s.threads[e.thread].connect.generation == w.core.closeGeneration == v.core.closeGeneration)
  {
    if e.Acts? {
      hide TakeDial, TakeClose, TakeInvalidate, TakeLoop, InstallsNothing;
      var t, pc := e.thread, s.threads[e.thread];
      match e.step
      case Dials(d) => DialInstalls(s.shared, t, pc, d);
      case Closes(c) => CloseInstalls(s.shared, t, pc, c);
      case Invalidates(i) => InvalidateInstalls(s.shared, t, pc, i);
      case Loops(l) => LoopInstalls(s.shared, t, pc, l);
    }
  }

  lemma {:induction false} RunGrowsGeneration(run: seq<State>, i: nat, j: nat)
    requires IsRun(run) && i <= j < |run|
    ensures run[i].shared.core.closeGeneration <= run[j].shared.core.closeGeneration
  {
    hide Enabled, Apply, IsRun;
    if i < j {
      RunGrowsGeneration(run, i, j - 1);
      var e := StepOf(run, j - 1);
      OnlyCurrentConnectsInstall(run[j - 1], e);
    }
  }

  lemma {:induction false} ConnectKeepsGeneration(s: State, e: Event, t: Thread)
    requires Enabled(s, e) && t in s.threads && s.threads[t].Connecting?
    requires t in Apply(s, e).threads && Apply(s, e).threads[t].Connecting?
    ensures Apply(s, e).threads[t].connect.generation == s.threads[t].connect.generation
  {
  }

  lemma {:induction false} RunKeepsGeneration(run: seq<State>, i: nat, j: nat, t: Thread)
    requires IsRun(run) && i <= j < |run|
    requires forall m :: i <= m <= j ==> t in run[m].threads && run[m].threads[t].Connecting?
    ensures run[j].threads[t].connect.generation == run[i].threads[t].connect.generation
  {
    hide Enabled, Apply, IsRun;
    if i < j {
      RunKeepsGeneration(run, i, j - 1, t);
      var e := StepOf(run, j - 1);
      ConnectKeepsGeneration(run[j - 1], e, t);
    }
  }

  /** A connect that overlapped a Close or an invalidation, at state `k`, is never installed. */
  lemma {:induction false} OverlappedConnectsNeverInstall(run: seq<State>, i: nat, k: nat, j: nat, t: Thread)
    requires IsRun(run) && i < k <= j && j + 1 < |run|
    requires forall m :: i <= m <= j ==> t in run[m].threads && run[m].threads[t].Connecting?
    requires run[k].shared.core.closeGeneration > run[i].shared.core.closeGeneration
    requires Enabled(run[j], Acts(t, Dials(Relock))) && run[j + 1] == Apply(run[j], Acts(t, Dials(Relock)))
    ensures run[j + 1].shared.core.quicConn == run[j].shared.core.quicConn
    ensures run[j + 1].threads[t] == StaleTears(run[j].threads[t].connect.conn)
  {
    hide IsRun;
    RunKeepsGeneration(run, i, j, t);
    RunGrowsGeneration(run, k, j);
    RunKeepsInv(run, i);
    hide Sound;
    ConnectIsNotNewer(run[i], t);
  }

  lemma {:induction false} ConnectIsNotNewer(s: State, t: Thread)
    requires Inv(s) && t in s.threads && s.threads[t].Connecting?
    ensures s.threads[t].connect.generation <= s.shared.core.closeGeneration
  {
  }

  function CapturedBy(pc: Pc): (c: Option<Option<Conn>>) {
    match pc
    case CloseTears(c, _, _) => Some(c)
    case CloseAwaitsRead(c, _) => Some(c)
    case CloseReturned(c) => Some(c)
    case _ => None
  }

  lemma {:induction false} CapturedStep(s: State, e: Event, t: Thread)
    requires Enabled(s, e) && t in s.threads
    ensures t in Apply(s, e).threads
    ensures CapturedBy(s.threads[t]).Some? ==> CapturedBy(Apply(s, e).threads[t]) == CapturedBy(s.threads[t])
    ensures e == Acts(t, Closes(Raise)) ==>
              && CapturedBy(Apply(s, e).threads[t]) == Some(s.shared.core.quicConn)
              && Apply(s, e).shared.core.closeGeneration == s.shared.core.closeGeneration + 1
  {
  }

  lemma {:induction false} CapturedStays(run: seq<State>, i: nat, j: nat, t: Thread)
    requires IsRun(run) && i <= j < |run| && t in run[i].threads && CapturedBy(run[i].threads[t]).Some?
    ensures t in run[j].threads && CapturedBy(run[j].threads[t]) == CapturedBy(run[i].threads[t])
  {
    hide Enabled, Apply, IsRun, CapturedBy;
    if i < j {
      CapturedStays(run, i, j - 1, t);
      var e := StepOf(run, j - 1);
      CapturedStep(run[j - 1], e, t);
    }
  }

  /** When Close returns, the connection that was installed when it began has been closed, once, and its read loop
      has ended. */
  lemma {:induction false} CloseTearsDown(run: seq<State>, i: nat, j: nat, t: Thread, c: Conn)
    requires IsRun(run) && i < j < |run| && t in run[i].threads
    requires Enabled(run[i], Acts(t, Closes(Raise))) && run[i + 1] == Apply(run[i], Acts(t, Closes(Raise)))
    requires run[i].shared.core.quicConn == Some(c)
    requires t in run[j].threads && run[j].threads[t].CloseReturned?
    ensures run[j].shared.torn[c] == 1 && run[j].shared.released[c] == 1
    ensures c in run[j].shared.loops ==> run[j].shared.loops[c].done in run[j].shared.closed
  {
    hide Enabled, Apply, IsRun;
    CapturedStep(run[i], Acts(t, Closes(Raise)), t);
    CapturedStays(run, i + 1, j, t);
    RunKeepsInv(run, j);
    ConnectionsConserved(run, j, c);
    assert PcSound(run[j].shared, t, run[j].threads[t]);
  }

  // ---------------------------------------------------------------- the class

  /** The run went on by one event. */
  ghost predicate WentOn(before: seq<State>, after: seq<State>, e: Event) {
    before != [] && Enabled(Last(before), e) && after == before + [Apply(Last(before), e)]
  }

  lemma {:induction false} RunGrows(run: seq<State>, e: Event)
    requires IsRun(run) && Enabled(Last(run), e)
    ensures IsRun(run + [Apply(Last(run), e)])
  {
    hide Enabled, Apply, Initial;
    var more := run + [Apply(Last(run), e)];
    forall i | 0 <= i < |more| - 1
      ensures Next(more[i], more[i + 1])
    {
      if i < |run| - 1 {
        assert Next(run[i], run[i + 1]);
      }
    }
  }

  /** The installed connection is in no other place, belongs to the stored origin, and has the registered channels;
      without it, nobody's connection is stored. */
  lemma {:induction false} InstalledFacts(s: State)
    requires Inv(s)
    ensures s.shared.core.handles == s.shared.core.quicConn
    ensures s.shared.core.quicConn.Some? ==>
              var c := s.shared.core.quicConn.value;
              && c in s.shared.origins && s.shared.origins[c] == s.shared.core.origin
              && s.shared.torn[c] == 0 && c !in s.shared.tearing && !s.shared.core.connecting
    ensures s.shared.core.quicConn.None? ==> s.shared.core.channels == map[] && !s.shared.core.readRunning
    ensures forall t :: t in s.threads && s.threads[t].Connecting? ==>
              s.shared.core.connecting && s.threads[t].connect.done == s.shared.core.connectDone
    ensures s.shared.core.connectWaiters == |WaitingIn(s.threads)|
  {
    if s.shared.core.quicConn.Some? {
      OnePlace(s.shared, s.shared.core.quicConn.value);
    }
    hide PcSound, WaitingIn, Places;
  }

  // What the regions do, as far as the class needs to know it.

  lemma {:induction false} HeadFacts(s: State, t: Thread)
    requires Enabled(s, Acts(t, Dials(PassHead)))
    ensures var (core, decision) := Enter(s.shared.core, s.threads[t].first, s.threads[t].wanted, s.shared.made);
            var entered := if s.threads[t].first.Some? then s.threads[t].first.value else s.shared.core.closeGeneration;
            var r := Apply(s, Acts(t, Dials(PassHead)));
            && r.shared.core == core && t in r.threads
            && r.threads[t] == AfterHead(entered, s.threads[t].wanted, s.shared.core.closeGeneration, decision)
            && r.shared.origins == s.shared.origins && r.shared.torn == s.shared.torn
  {
  }

  lemma {:induction false} RelockFacts(s: State, t: Thread)
    requires Enabled(s, Acts(t, Dials(Relock)))
    ensures var connect := s.threads[t].connect;
            var r := Apply(s, Acts(t, Dials(Relock)));
            && r.shared.core == Install(s.shared.core, connect.generation, connect.conn, connect.origin)
            && t in r.threads && r.threads[t] == AfterConnect(s.shared, connect)
  {
  }

  /** Close, invalidateConnection and a read loop take the installed connection in the same way. */
  lemma {:induction false} UninstallFacts(s: State, t: Thread, step: Step)
    requires Enabled(s, Acts(t, step))
    requires || step == Closes(Raise)
             || (step == Invalidates(TryInvalidate) && s.shared.core.quicConn == Some(s.threads[t].target))
             || (step == Loops(LoopTriesInvalidate) && s.shared.core.quicConn == Some(s.threads[t].source))
    ensures var r := Apply(s, Acts(t, step));
            && r.shared.core == Uninstall(s.shared.core)
            && (s.shared.core.quicConn.Some? ==>
                  s.shared.core.quicConn.value in r.shared.tearing
                    && r.shared.tearing[s.shared.core.quicConn.value] == t)
  {
  }

  lemma {:induction false} NoUninstallFacts(s: State, t: Thread, step: Step)
    requires Enabled(s, Acts(t, step))
    requires || (step == Invalidates(TryInvalidate) && s.shared.core.quicConn != Some(s.threads[t].target))
             || (step == Loops(LoopTriesInvalidate) && s.shared.core.quicConn != Some(s.threads[t].source))
    ensures Apply(s, Acts(t, step)).shared == s.shared
  {
  }

  lemma {:induction false} RegisterFacts(s: State, t: Thread, id: ChannelId, channel: Channel)
    requires Enabled(s, RegisterChannel(t, id, channel))
    ensures var r := Apply(s, RegisterChannel(t, id, channel));
            && r.shared.core == Register(s.shared.core, id, channel, s.shared.made)
            && (Registers(s.shared.core, id) ==>
                  channel in r.shared.owner && r.shared.owner[channel] == s.shared.core.quicConn.value)
  {
  }

  /** QUICTransport's guarded fields. Each method is one mutex-held region, run by the thread `t` that stands before it;
      `run` records every state there was and `Valid` says that it is a run of the machine, so that every guarantee
      above holds of these fields. */
  class Quic {
    var quicConn: Option<Conn>
    var qtransport: Option<Conn>
    var pconn: Option<Conn>
    var proxyCloser: Option<Conn>
    var origin: Origin
    var connecting: bool
    var connectDone: Chan
    var connectWaiters: int
    var closeGeneration: nat
    var datagramChannels: map<ChannelId, Channel>
    var datagramReadRunning: bool
    var datagramReadDone: Option<Chan>
    ghost var run: seq<State>

    constructor ()
      ensures Valid() && Last(run).threads == map[]
    {
      quicConn, qtransport, pconn, proxyCloser, origin := None, None, None, None, "";
      connecting, connectDone, connectWaiters, closeGeneration := false, 0, 0, 0;
      datagramChannels, datagramReadRunning, datagramReadDone := map[], false, None;
      run := [State(Shared(Core(None, None, "", false, 0, 0, 0, map[], false, None), 0, {}, 0, map[],
                           multiset{}, multiset{}, map[], map[], map[], None), map[])];
    }

    function View(): (core: Core)
      reads this
    {
      Core(quicConn, pconn, origin, connecting, connectDone, connectWaiters, closeGeneration,
           datagramChannels, datagramReadRunning, datagramReadDone)
    }

    /** The three handles are those of one connection, and the fields are those of a reachable state. */
    ghost predicate Valid()
      reads this
    {
      qtransport == pconn == proxyCloser && run != [] && IsRun(run) && Last(run).shared.core == View()
    }

    /** Where thread `t` stands. */
    ghost predicate At(t: Thread, pc: Pc)
      reads this
    {
      run != [] && t in Last(run).threads && Last(run).threads[t] == pc
    }

    /** Calls, channel operations and everything else that does not touch the guarded fields. */
    ghost method Elsewhere(e: Event)
      requires Valid() && Enabled(Last(run), e) && Apply(Last(run), e).shared.core == View()
      modifies this`run
      ensures Valid() && WentOn(old(run), run, e)
    {
      RunGrows(run, e);
      run := run + [Apply(Last(run), e)];
    }

    /** The head of connection()'s loop. A connection is handed out only for its own origin and while it is installed
        and open; a connect starts only if nobody connects and nothing is installed. */
    method EnterConnection(ghost t: Thread, entered: Option<nat>, wanted: Origin, newDone: Chan)
      returns (decision: Decision)
      requires Valid() && At(t, Head(entered, wanted)) && newDone == Last(run).shared.made
      modifies this
      ensures Valid() && WentOn(old(run), run, Acts(t, Dials(PassHead)))
      ensures var first := if entered.Some? then entered.value else closeGeneration;
              At(t, AfterHead(first, wanted, closeGeneration, decision))
      ensures decision.Reuse? ==>
                && decision.conn in Last(run).shared.origins && Last(run).shared.origins[decision.conn] == wanted
                && Last(run).shared.torn[decision.conn] == 0 && (entered.Some? ==> entered.value == closeGeneration)
      ensures decision.Connect? ==>
                quicConn.None? && forall u :: u in old(Last(run)).threads ==> !old(Last(run)).threads[u].Connecting?
    {
      hide IsRun, Inv, WaitingIn, Apply;
      ghost var after := Apply(Last(run), Acts(t, Dials(PassHead)));
      RunKeepsInv(run, |run| - 1);
      InstalledFacts(Last(run));
      HeadFacts(Last(run), t);
      RunGrows(run, Acts(t, Dials(PassHead)));
      run := run + [after];
      if entered.Some? {
        if closeGeneration != entered.value {
          return Stopped;
        }
      }
      if quicConn.Some? {
        if origin != wanted {
          return WrongOrigin;
        }
        return Reuse(quicConn.value);
      }
      if connecting {
        connectWaiters := connectWaiters + 1;
        return AwaitConnect(connectDone);
      }
      connecting := true;
      connectDone := newDone;
      return Decision.Connect(connectDone);
    }

    /** A waiter leaves; the count remains that of the threads that wait. */
    method StopWaiting(ghost t: Thread)
      requires Valid() && Enabled(Last(run), Acts(t, Dials(Leave)))
      modifies this
      ensures Valid() && WentOn(old(run), run, Acts(t, Dials(Leave)))
      ensures connectWaiters == |WaitingIn(Last(run).threads)|
    {
      hide IsRun, Inv, WaitingIn;
      ghost var after := Apply(Last(run), Acts(t, Dials(Leave)));
      RunGrows(run, Acts(t, Dials(Leave)));
      RunKeepsInv(run + [after], |run|);
      InstalledFacts(after);
      run := run + [after];
      connectWaiters := connectWaiters - 1;
    }

    /** The end of a connect. Its connection is installed with all its handles, in no other place, exactly if no Close
        or invalidation came between; otherwise it is this thread's to close. */
    method FinishConnect(ghost t: Thread, ghost connect: Connect, generation: nat, conn: Option<Conn>, wanted: Origin)
      returns (stale: bool)
      requires Valid() && At(t, Connecting(connect)) && connect.returned
      requires connect.generation == generation && connect.conn == conn && connect.origin == wanted
      modifies this
      ensures Valid() && WentOn(old(run), run, Acts(t, Dials(Relock)))
      ensures stale <==> closeGeneration != generation
      ensures !connecting && closeGeneration == old(closeGeneration)
      ensures !stale ==> quicConn == conn && pconn == conn
      ensures stale ==> quicConn.None? && At(t, StaleTears(conn))
      ensures forall u :: u in Last(run).threads ==> !Last(run).threads[u].Connecting?
      ensures quicConn.Some? ==>
                Last(run).shared.torn[quicConn.value] == 0 && quicConn.value !in Last(run).shared.tearing
    {
      hide IsRun, Inv, WaitingIn, Apply;
      ghost var after := Apply(Last(run), Acts(t, Dials(Relock)));
      RunKeepsInv(run, |run| - 1);
      InstalledFacts(Last(run));
      RelockFacts(Last(run), t);
      RunGrows(run, Acts(t, Dials(Relock)));
      RunKeepsInv(run + [after], |run|);
      InstalledFacts(after);
      stale := InstallUnlessStale(generation, conn, wanted);
      run := run + [after];
    }

    method InstallUnlessStale(generation: nat, conn: Option<Conn>, wanted: Origin) returns (stale: bool)
      requires qtransport == pconn == proxyCloser
      modifies this
      ensures View() == Install(old(View()), generation, conn, wanted) && qtransport == pconn == proxyCloser
                && run == old(run)
      ensures stale <==> old(closeGeneration) != generation
    {
      stale := closeGeneration != generation;
      connecting := false;
      if conn.Some? && !stale {
        quicConn := conn;
        qtransport := conn;
        pconn := conn;
        proxyCloser := conn;
        origin := wanted;
      }
    }

    /** Part of Close and invalidateConnection. */
    method DetachDatagramChannels() returns (channels: set<Channel>)
      modifies this`datagramChannels, this`datagramReadRunning
      ensures View() == Detach(old(View())) && channels == old(datagramChannels).Values
    {
      channels := datagramChannels.Values;
      datagramChannels := map[];
      datagramReadRunning := false;
    }

    /** What Close and invalidateConnection share. */
    method UninstallAll()
      returns (conn: Option<Conn>, handles: Option<Conn>, channels: set<Channel>, readDone: Option<Chan>)
      requires qtransport == pconn == proxyCloser
      modifies this
      ensures View() == Uninstall(old(View())) && qtransport == pconn == proxyCloser && run == old(run)
      ensures conn == old(quicConn) && handles == old(pconn)
      ensures channels == old(datagramChannels).Values && readDone == old(datagramReadDone)
    {
      closeGeneration := closeGeneration + 1;
      channels := DetachDatagramChannels();
      readDone, conn, handles := datagramReadDone, quicConn, pconn;
      quicConn := None;
      origin := "";
      qtransport := None;
      pconn := None;
      proxyCloser := None;
    }

    /** The locked part of Close. It captures the installed connection with its own handles and all registered
        channels; from now on that connection is this thread's, and nobody else's, to close. */
    method BeginClose(ghost t: Thread)
      returns (conn: Option<Conn>, handles: Option<Conn>, channels: set<Channel>, readDone: Option<Chan>)
      requires Valid() && At(t, CloseHead)
      modifies this
      ensures Valid() && WentOn(old(run), run, Acts(t, Closes(Raise)))
      ensures conn == handles == old(quicConn) && channels == old(datagramChannels).Values
                && readDone == old(datagramReadDone)
      ensures quicConn.None? && datagramChannels == map[] && closeGeneration == old(closeGeneration) + 1
      ensures conn.Some? ==>
                && conn.value !in old(Last(run)).shared.tearing && old(Last(run)).shared.torn[conn.value] == 0
                && conn.value in Last(run).shared.tearing && Last(run).shared.tearing[conn.value] == t
    {
      hide IsRun, Inv, WaitingIn, Apply;
      ghost var after := Apply(Last(run), Acts(t, Closes(Raise)));
      RunKeepsInv(run, |run| - 1);
      InstalledFacts(Last(run));
      UninstallFacts(Last(run), t, Closes(Raise));
      RunGrows(run, Acts(t, Closes(Raise)));
      conn, handles, channels, readDone := UninstallAll();
      run := run + [after];
    }

    /** The locked part of invalidateConnection, called for itself or by a read loop: the same, exactly if the given
        connection is the installed one; otherwise nothing changes. */
    method BeginInvalidate(ghost t: Thread, ghost step: Step, conn: Conn)
      returns (ok: bool, handles: Option<Conn>, channels: set<Channel>)
      requires Valid() && Enabled(Last(run), Acts(t, step))
      requires (step == Invalidates(TryInvalidate) && At(t, InvalidateHead(conn))) ||
               (step == Loops(LoopTriesInvalidate) && Last(run).threads[t].source == conn)
      modifies this
      ensures Valid() && WentOn(old(run), run, Acts(t, step))
      ensures ok <==> old(quicConn) == Some(conn)
      ensures !ok ==> View() == old(View())
      ensures ok ==> handles == Some(conn) && channels == old(datagramChannels).Values && quicConn.None?
      ensures ok ==>
                && old(Last(run)).shared.torn[conn] == 0 && conn in Last(run).shared.tearing
                && Last(run).shared.tearing[conn] == t
    {
      hide IsRun, Inv, WaitingIn, Apply;
      ghost var after := Apply(Last(run), Acts(t, step));
      RunKeepsInv(run, |run| - 1);
      InstalledFacts(Last(run));
      if quicConn == Some(conn) {
        UninstallFacts(Last(run), t, step);
      } else {
        NoUninstallFacts(Last(run), t, step);
      }
      RunGrows(run, Acts(t, step));
      ok, handles, channels := quicConn == Some(conn), None, {};
      if ok {
        var installed, readDone;
        installed, handles, channels, readDone := UninstallAll();
      }
      run := run + [after];
    }

    /** Registers a channel on the installed connection, under an id that is free, and starts a read loop exactly if
        that connection has none. */
    method RegisterDatagramChannel(ghost t: Thread, id: ChannelId, channel: Channel, newDone: Chan)
      returns (ok: bool, start: bool)
      requires Valid() && Enabled(Last(run), RegisterChannel(t, id, channel)) && newDone == Last(run).shared.made
      modifies this
      ensures Valid() && WentOn(old(run), run, RegisterChannel(t, id, channel))
      ensures ok <==> quicConn.Some? && id !in old(datagramChannels)
      ensures ok ==> channel in Last(run).shared.owner && Some(Last(run).shared.owner[channel]) == quicConn
      ensures start <==> ok && quicConn.value !in old(Last(run)).shared.loops
      ensures ok ==>
                && quicConn.value in Last(run).shared.loops
                && datagramReadDone == Some(Last(run).shared.loops[quicConn.value].done)
    {
      hide IsRun, Inv, WaitingIn, Apply;
      ghost var after := Apply(Last(run), RegisterChannel(t, id, channel));
      RunKeepsInv(run, |run| - 1);
      LoopFacts(Last(run));
      RegisterFacts(Last(run), t, id, channel);
      RunGrows(run, RegisterChannel(t, id, channel));
      RunKeepsInv(run + [after], |run|);
      LoopFacts(after);
      run := run + [after];
      if quicConn.None? || id in datagramChannels {
        return false, false;
      }
      datagramChannels := datagramChannels[id := channel];
      ok, start := true, !datagramReadRunning;
      if start {
        datagramReadRunning := true;
        datagramReadDone := Some(newDone);
      }
    }

    /** Takes a channel out of the registry unless another one has its id by now. It is out, until it is registered
        again, exactly if it has no other id. */
    method UnregisterDatagramChannel(id: ChannelId, channel: Channel)
      requires Valid()
      modifies this
      ensures Valid() && WentOn(old(run), run, UnregisterChannel(id, channel))
      ensures forall k :: k in datagramChannels <==>
                k in old(datagramChannels) && !(k == id && old(datagramChannels)[k] == channel)
      ensures forall k :: k in datagramChannels ==> datagramChannels[k] == old(datagramChannels)[k]
      ensures TakenOut(Last(run).shared, channel) <==>
                forall k :: RegisteredAs(old(Last(run)).shared, k, channel) ==> k == id
    {
      hide IsRun;
      TakesOut(Last(run).shared, id, channel);
      RunGrows(run, UnregisterChannel(id, channel));
      run := run + [Apply(Last(run), UnregisterChannel(id, channel))];
      if id in datagramChannels && datagramChannels[id] == channel {
        datagramChannels := datagramChannels - {id};
      }
    }

    /** What a read loop does once its connection is gone: nothing, whatever is installed by then. */
    method CloseDatagramChannelsForConn(ghost t: Thread, conn: Conn) returns (channels: set<Channel>)
      requires Valid() && Enabled(Last(run), Acts(t, Loops(LoopCloseChannels))) && Last(run).threads[t].source == conn
      modifies this
      ensures Valid() && WentOn(old(run), run, Acts(t, Loops(LoopCloseChannels)))
      ensures channels == {} && View() == old(View())
    {
      hide IsRun, Inv, WaitingIn;
      ghost var before := run;
      RunGrows(run, Acts(t, Loops(LoopCloseChannels)));
      run := run + [Apply(Last(run), Acts(t, Loops(LoopCloseChannels)))];
      channels := {};
      if !(quicConn.Some? && quicConn != Some(conn)) {
        if quicConn == Some(conn) {
          datagramReadRunning := false;
          datagramReadDone := None;
        }
        channels := DetachDatagramChannels();
      }
      RunKeepsInv(before, |before| - 1);
      InstalledFacts(Last(before));
      LostLoop(Last(before), t);
    }
  }

  lemma {:induction false} LoopFacts(s: State)
    requires Inv(s)
    ensures s.shared.core.quicConn.Some? ==>
              var c := s.shared.core.quicConn.value;
              && (s.shared.core.readRunning <==> c in s.shared.loops)
              && (c in s.shared.loops ==> s.shared.core.readDone == Some(s.shared.loops[c].done))
  {
    hide PcSound, WaitingIn, OwnersSound;
  }

  lemma {:induction false} LostLoop(s: State, t: Thread)
    requires Inv(s) && t in s.threads && s.threads[t].LoopClosesChannels?
    ensures s.shared.core.quicConn != Some(s.threads[t].source)
    ensures CloseChannelsFor(s.shared.core, s.threads[t].source) == s.shared.core
  {
    assert PcSound(s.shared, t, s.threads[t]);
    OnePlace(s.shared, s.threads[t].source);
    CloseChannelsKeep(s.shared, s.threads[t].source, t, s.threads[t]);
  }

  /** A caller that finds nothing installed and nobody connecting, up to the end of its successful connect. */
  method ConnectAlone(quic: Quic, ghost t: Thread, ghost conn: Conn, wanted: Origin, newDone: Chan)
    requires quic.Valid() && t !in Last(quic.run).threads
    requires newDone == Last(quic.run).shared.made && conn == Last(quic.run).shared.dialed
    requires quic.quicConn.None? && !quic.connecting
    modifies quic
    ensures quic.Valid() && quic.closeGeneration == old(quic.closeGeneration)
    ensures quic.At(t, Connecting(Attempt(quic.closeGeneration, wanted, newDone, true, Some(conn))))
    ensures Last(quic.run).threads.Keys == old(Last(quic.run)).threads.Keys + {t}
  {
    hide IsRun, Inv, WaitingIn;
    quic.Elsewhere(CallConnection(t, wanted));
    var decision := quic.EnterConnection(t, None, wanted, newDone);
    quic.Elsewhere(Acts(t, Dials(ConnectReturns(true))));
  }

  /** Another thread closes meanwhile. */
  method CloseBegins(quic: Quic, ghost u: Thread)
    requires quic.Valid() && u !in Last(quic.run).threads
    modifies quic
    ensures quic.Valid() && quic.closeGeneration == old(quic.closeGeneration) + 1 && quic.quicConn.None?
    ensures forall t :: t in old(Last(quic.run)).threads ==> quic.At(t, old(Last(quic.run)).threads[t])
  {
    hide IsRun, Inv, WaitingIn;
    quic.Elsewhere(CallClose(u));
    var conn, handles, channels, readDone := quic.BeginClose(u);
  }

  /** A connect that another thread's Close overlaps: its connection is not installed, and closed once. */
  method OverlappedConnect(quic: Quic, ghost t: Thread, ghost u: Thread, conn: Conn, wanted: Origin, newDone: Chan)
    requires quic.Valid() && t !in Last(quic.run).threads && u !in Last(quic.run).threads && t != u
    requires newDone == Last(quic.run).shared.made && conn == Last(quic.run).shared.dialed
    requires quic.quicConn.None? && !quic.connecting
    modifies quic
    ensures quic.Valid() && quic.quicConn.None? && !quic.connecting && quic.At(t, Failed)
    ensures Last(quic.run).shared.torn[conn] == 1 && Last(quic.run).shared.released[conn] == 1
  {
    hide IsRun, Inv, WaitingIn, Places;
    ConnectAlone(quic, t, conn, wanted, newDone);
    var generation := quic.closeGeneration;
    CloseBegins(quic, u);
    ghost var connect := Attempt(generation, wanted, newDone, true, Some(conn));
    var stale := quic.FinishConnect(t, connect, generation, Some(conn), wanted);
    quic.Elsewhere(Acts(t, Dials(TearStale)));
    ConnectionsConserved(quic.run, |quic.run| - 1, conn);
  }
}
