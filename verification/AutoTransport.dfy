/**
 The single-flight selection protocol of AutoTransport (auto_transport.go): any number of Dial and Close calls
 interleave at their mutex-held regions and channel operations. Channels are numbered in the order they are made.
 */
module AutoTransport {
  import opened Content
  import opened Runs
  import opened Sets

  type Chan = nat
  type Thread = nat

  datatype Mode = Quic | Tls

  /** The fields of AutoTransport that its mutex guards. Nothing reads `selectionDone` before the first selection. */
  datatype Core = Core(
    selected: Option<Mode>,
    selecting: bool,
    selectionDone: Chan,
    selectionWaiters: int,
    cleanupDone: Option<Chan>,
    generation: nat
  )

  // ---------------------------------------------------------------- the mutex-held regions

  datatype Decision =
    | Stopped
    | UsePinned(mode: Mode)
    | AwaitSelection(done: Chan)
    | AwaitCleanup(done: Chan)
    | Select(done: Chan)

  /** The region at the head of Dial's loop. `entered` is the generation of the first pass, `newDone` the channel that
      a new selection would make. */
  function Enter(core: Core, entered: Option<nat>, newDone: Chan): (r: (Core, Decision))
  {
    if entered.Some? && entered.value != core.generation then (core, Stopped)
    else if core.selected.Some? then (core, UsePinned(core.selected.value))
    else if core.selecting then
      (core.(selectionWaiters := core.selectionWaiters + 1), AwaitSelection(core.selectionDone))
    else if core.cleanupDone.Some? then (core, AwaitCleanup(core.cleanupDone.value))
    else (core.(selecting := true, selectionDone := newDone), Select(newDone))
  }

  function LeaveWait(core: Core): (r: Core) {
    core.(selectionWaiters := core.selectionWaiters - 1)
  }

  /** Forgetting a finished cleanup, unless another one has taken its place. */
  function ForgetCleanup(core: Core, done: Chan): (r: Core) {
    if core.cleanupDone == Some(done) then core.(cleanupDone := None) else core
  }

  /** The end of a selection that is not stale. */
  function Install(core: Core, mode: Option<Mode>, cleanup: Option<Chan>): (r: Core) {
    core.(selected := if mode.Some? then mode else core.selected,
          cleanupDone := if cleanup.Some? then cleanup else core.cleanupDone,
          selecting := false)
  }

  /** The end of a stale selection. */
  function Abandon(core: Core): (r: Core) {
    core.(selecting := false)
  }

  /** The first region of Close. */
  function Retire(core: Core): (r: Core) {
    core.(generation := core.generation + 1, selected := None)
  }

  // ---------------------------------------------------------------- the state machine

  /** How far the Dial call that runs a selection has come: inside selectTransport, back from it with its results,
      or stale and waiting for its cleanup, or stale and about to finish. */
  datatype Phase =
    | Racing
    | Back(mode: Option<Mode>, conn: Option<nat>, cleanup: Option<Chan>)
    | StaleWait(cleanup: Option<Chan>)
    | StaleDone

  datatype Selection = Selection(generation: nat, done: Chan, phase: Phase)

  datatype Pc =
    | DialHead(first: Option<nat>)
    | DialAwaitsSelection(entered: nat, done: Chan)
    | DialLeaves(entered: nat, again: bool)
    | DialAwaitsCleanup(entered: nat, done: Chan)
    | DialForgets(entered: nat, done: Chan)
    | DialSelects(selection: Selection)
    | DialPinned(entered: nat, mode: Mode)
    | DialReturned
    | CloseHead
    | CloseAwaitsSelection(raised: nat, done: Chan)
    | CloseRereads(raised: nat)
    | CloseAwaitsCleanup(raised: nat, done: Chan)
    | CloseForgets(raised: nat, done: Chan)
    | CloseReturned(raised: nat)

  /** Who runs a selection, and that selection. */
  datatype Lease = Lease(thread: Thread, selection: Selection)

  /** Everything but the program counters. `made` counts the channels made, `closed` holds those closed. A cleanup
      goroutine is named by its channel and mapped to the generation of its selection. `pins` records what each
      generation pinned. Connections that selections opened are numbered below `opened`; a selection either returns
      its connection or closes it. `lease` mirrors the program counter of the selecting thread. */
  datatype Shared = Shared(
    core: Core,
    made: nat,
    closed: set<Chan>,
    cleanups: map<Chan, nat>,
    pins: map<nat, Mode>,
    conns: nat,
    returned: set<nat>,
    dropped: set<nat>,
    lease: Option<Lease>
  )

  datatype State = State(shared: Shared, threads: map<Thread, Pc>)

  ghost predicate Initial(s: State) {
    s == State(Shared(Core(None, false, 0, 0, None, 0), 0, {}, map[], map[], 0, {}, {}, None), map[])
  }

  /** One step of a thread that is inside Dial or Close. */
  datatype Step =
    | PassHead
    | SelectionSeen
    | WaitCancelled
    | Leave
    | CleanupSeen
    | CleanupWaitCancelled
    | Forget
    | SelectionEnds(mode: Option<Mode>, leftover: bool)
    | Relock
    | StaleCleanupSeen
    | StaleEnds
    | PinnedDialEnds
    | Raise
    | CloseSelectionSeen
    | Reread
    | CloseCleanupSeen
    | CloseForget

  datatype Event =
    | CallDial(thread: Thread)
    | CallClose(thread: Thread)
    | Acts(thread: Thread, step: Step)
    | CleanupEnds(done: Chan)

  function CleanupOf(phase: Phase): (c: Option<Chan>) {
    match phase
    case Back(_, _, c) => c
    case StaleWait(c) => c
    case _ => None
  }

  function ConnOf(phase: Phase): (c: Option<nat>) {
    if phase.Back? then phase.conn else None
  }

  predicate CanStep(w: Shared, pc: Pc, step: Step) {
    match step
    case PassHead => pc.DialHead?
    case SelectionSeen => pc.DialAwaitsSelection? && pc.done in w.closed
    case WaitCancelled => pc.DialAwaitsSelection?
    case Leave => pc.DialLeaves?
    case CleanupSeen => pc.DialAwaitsCleanup? && pc.done in w.closed
    case CleanupWaitCancelled => pc.DialAwaitsCleanup?
    case Forget => pc.DialForgets?
    case SelectionEnds(_, _) => pc.DialSelects? && pc.selection.phase.Racing?
    case Relock => pc.DialSelects? && pc.selection.phase.Back?
    case StaleCleanupSeen =>
      && pc.DialSelects? && pc.selection.phase.StaleWait?
      && (pc.selection.phase.cleanup.None? || pc.selection.phase.cleanup.value in w.closed)
    case StaleEnds => pc.DialSelects? && pc.selection.phase.StaleDone?
    case PinnedDialEnds => pc.DialPinned?
    case Raise => pc.CloseHead?
    case CloseSelectionSeen => pc.CloseAwaitsSelection? && pc.done in w.closed
    case Reread => pc.CloseRereads?
    case CloseCleanupSeen => pc.CloseAwaitsCleanup? && pc.done in w.closed
    case CloseForget => pc.CloseForgets?
  }

  predicate Enabled(s: State, e: Event) {
    match e
    case CallDial(t) => t !in s.threads
    case CallClose(t) => t !in s.threads
    case CleanupEnds(c) => c in s.shared.cleanups && c !in s.shared.closed
    case Acts(t, step) => t in s.threads && CanStep(s.shared, s.threads[t], step)
  }

  // What each event does to the shared state.

  function Starts(w: Shared, t: Thread, core: Core): (r: Shared) {
    w.(core := core, made := w.made + 1, lease := Some(Lease(t, Selection(core.generation, w.made, Racing))))
  }

  function Moves(w: Shared, t: Thread, selection: Selection, phase: Phase): (r: Shared) {
    w.(lease := Some(Lease(t, selection.(phase := phase))))
  }

  /** The results of selectTransport: a connection on success, and a cleanup goroutine if an attempt is left over. */
  function ResultsOf(w: Shared, mode: Option<Mode>, leftover: bool): (phase: Phase) {
    Back(mode, if mode.Some? then Some(w.conns) else None, if leftover then Some(w.made) else None)
  }

  function Ends(w: Shared, t: Thread, selection: Selection, mode: Option<Mode>, leftover: bool): (r: Shared) {
    Moves(w, t, selection, ResultsOf(w, mode, leftover)).(
      conns := if mode.Some? then w.conns + 1 else w.conns,
      made := if leftover then w.made + 1 else w.made,
      cleanups := if leftover then w.cleanups[w.made := selection.generation] else w.cleanups)
  }

  function Turns(w: Shared, t: Thread, selection: Selection): (r: Shared) {
    var conn := ConnOf(selection.phase);
    Moves(w, t, selection, StaleWait(CleanupOf(selection.phase))).(
      dropped := if conn.Some? then w.dropped + {conn.value} else w.dropped)
  }

  function Pins(w: Shared, selection: Selection): (r: Shared)
    requires selection.phase.Back?
  {
    var phase := selection.phase;
    w.(core := Install(w.core, phase.mode, phase.cleanup),
       closed := w.closed + {selection.done},
       pins := if phase.mode.Some? then w.pins[w.core.generation := phase.mode.value] else w.pins,
       returned := if phase.conn.Some? then w.returned + {phase.conn.value} else w.returned,
       lease := None)
  }

  function Lets(w: Shared, selection: Selection): (r: Shared) {
    w.(core := Abandon(w.core), closed := w.closed + {selection.done}, lease := None)
  }

  function AfterHead(entered: nat, generation: nat, decision: Decision): (pc: Pc) {
    match decision
    case Stopped => DialReturned
    case UsePinned(m) => DialPinned(entered, m)
    case AwaitSelection(c) => DialAwaitsSelection(entered, c)
    case AwaitCleanup(c) => DialAwaitsCleanup(entered, c)
    case Select(c) => DialSelects(Selection(generation, c, Racing))
  }

  /** Where Close goes once it knows which cleanup to wait for. */
  function CloseCleanup(raised: nat, cleanup: Option<Chan>): (pc: Pc) {
    if cleanup.Some? then CloseAwaitsCleanup(raised, cleanup.value) else CloseReturned(raised)
  }

  /** What a step does to the shared state, and where it takes its thread. */
  function Take(w: Shared, t: Thread, pc: Pc, step: Step): (r: (Shared, Pc))
    requires CanStep(w, pc, step)
  {
    match step
    case PassHead =>
      var (core, decision) := Enter(w.core, pc.first, w.made);
      var entered := if pc.first.Some? then pc.first.value else w.core.generation;
      (if decision.Select? then Starts(w, t, core) else w.(core := core),
       AfterHead(entered, w.core.generation, decision))
    case SelectionSeen => (w, DialLeaves(pc.entered, true))
    case WaitCancelled => (w, DialLeaves(pc.entered, false))
    case Leave =>
      (w.(core := LeaveWait(w.core)), if pc.again then DialHead(Some(pc.entered)) else DialReturned)
    case CleanupSeen => (w, DialForgets(pc.entered, pc.done))
    case CleanupWaitCancelled => (w, DialReturned)
    case Forget => (w.(core := ForgetCleanup(w.core, pc.done)), DialHead(Some(pc.entered)))
    case SelectionEnds(mode, leftover) =>
      (Ends(w, t, pc.selection, mode, leftover),
       DialSelects(pc.selection.(phase := ResultsOf(w, mode, leftover))))
    case Relock =>
      if pc.selection.generation != w.core.generation then
        (Turns(w, t, pc.selection), DialSelects(pc.selection.(phase := StaleWait(CleanupOf(pc.selection.phase)))))
      else
        (Pins(w, pc.selection), DialReturned)
    case StaleCleanupSeen =>
      (Moves(w, t, pc.selection, StaleDone), DialSelects(pc.selection.(phase := StaleDone)))
    case StaleEnds => (Lets(w, pc.selection), DialReturned)
    case PinnedDialEnds => (w, DialReturned)
    case Raise =>
      var raised := w.core.generation + 1;
      (w.(core := Retire(w.core)),
       if w.core.selecting then CloseAwaitsSelection(raised, w.core.selectionDone)
       else CloseCleanup(raised, w.core.cleanupDone))
    case CloseSelectionSeen => (w, CloseRereads(pc.raised))
    case Reread => (w, CloseCleanup(pc.raised, w.core.cleanupDone))
    case CloseCleanupSeen => (w, CloseForgets(pc.raised, pc.done))
    case CloseForget => (w.(core := ForgetCleanup(w.core, pc.done)), CloseReturned(pc.raised))
  }

  function Apply(s: State, e: Event): (r: State)
    requires Enabled(s, e)
  {
    match e
    case CallDial(t) => s.(threads := s.threads[t := DialHead(None)])
    case CallClose(t) => s.(threads := s.threads[t := CloseHead])
    case CleanupEnds(c) => s.(shared := s.shared.(closed := s.shared.closed + {c}))
    case Acts(t, step) =>
      var (w, pc) := Take(s.shared, t, s.threads[t], step);
      State(w, s.threads[t := pc])
  }

  ghost predicate Next(s: State, r: State) {
    exists e :: Enabled(s, e) && r == Apply(s, e)
  }

  ghost predicate IsRun(run: seq<State>) {
    && run != [] && Initial(run[0])
    && forall i :: 0 <= i < |run| - 1 ==> Next(run[i], run[i + 1])
  }

  lemma {:induction false} StepOf(run: seq<State>, i: nat) returns (e: Event)
    requires IsRun(run) && i + 1 < |run|
    ensures Enabled(run[i], e) && run[i + 1] == Apply(run[i], e)
  {
    hide Enabled, Apply;
    assert Next(run[i], run[i + 1]);
    e :| Enabled(run[i], e) && run[i + 1] == Apply(run[i], e);
  }

  // ---------------------------------------------------------------- what every step keeps

  predicate Running(w: Shared, c: Chan) {
    c in w.cleanups && c !in w.closed
  }

  ghost predicate ChannelsSound(w: Shared) {
    && (forall c :: c in w.closed ==> c < w.made)
    && (forall c :: c in w.cleanups ==> c < w.made && w.cleanups[c] <= w.core.generation)
    && (w.core.cleanupDone.Some? ==> w.core.cleanupDone.value in w.cleanups)
    && (forall c: Chan :: Running(w, c) ==>
          || w.core.cleanupDone == Some(c)
          || (w.lease.Some? && CleanupOf(w.lease.value.selection.phase) == Some(c)))
  }

  /** A selection runs exactly while `selecting` is set; meanwhile nothing is pinned and no cleanup is pending. */
  ghost predicate LeaseSound(w: Shared) {
    && (w.core.selecting <==> w.lease.Some?)
    && (w.lease.Some? ==>
          var selection := w.lease.value.selection;
          && w.core.selected.None? && w.core.cleanupDone.None?
          && selection.done == w.core.selectionDone && selection.done < w.made
          && selection.done !in w.closed && selection.done !in w.cleanups
          && selection.generation <= w.core.generation
          && (selection.phase.StaleWait? || selection.phase.StaleDone? ==> selection.generation < w.core.generation)
          && (selection.phase.Back? ==> (selection.phase.mode.Some? <==> selection.phase.conn.Some?))
          && (CleanupOf(selection.phase).Some? ==>
                && CleanupOf(selection.phase).value in w.cleanups
                && w.cleanups[CleanupOf(selection.phase).value] == selection.generation))
  }

  /** What is pinned is what the current generation pinned. */
  ghost predicate PinsSound(w: Shared) {
    && (forall g :: g in w.pins ==> g <= w.core.generation)
    && (w.core.selected.Some? <==> w.core.generation in w.pins)
    && (w.core.selected.Some? ==> w.pins[w.core.generation] == w.core.selected.value)
  }

  function HeldConn(w: Shared): (c: Option<nat>) {
    if w.lease.Some? then ConnOf(w.lease.value.selection.phase) else None
  }

  /** Every connection a selection opened is in exactly one place: with it, returned to its caller, or closed. */
  ghost predicate ConnsSound(w: Shared) {
    && (forall n: nat :: n < w.conns <==> n in w.returned || n in w.dropped || HeldConn(w) == Some(n))
    && w.returned !! w.dropped
    && (HeldConn(w).Some? ==> HeldConn(w).value !in w.returned && HeldConn(w).value !in w.dropped)
  }

  ghost predicate Sound(w: Shared) {
    ChannelsSound(w) && LeaseSound(w) && PinsSound(w) && ConnsSound(w)
  }

  /** No selection and no cleanup goroutine of a generation before `g` is running. */
  ghost predicate Quiet(w: Shared, g: nat) {
    && (w.lease.Some? ==> w.lease.value.selection.generation >= g)
    && forall c: Chan :: Running(w, c) ==> w.cleanups[c] >= g
  }

  /** A channel that is closed, or that the running selection is going to close. */
  predicate Awaited(w: Shared, done: Chan) {
    done < w.made && (done in w.closed || (w.lease.Some? && w.lease.value.selection.done == done))
  }

  /** What a thread may rely on where it stands. */
  ghost predicate PcSound(w: Shared, pc: Pc) {
    match pc
    case DialHead(first) => first.Some? ==> first.value <= w.core.generation
    case DialAwaitsSelection(g, done) => g <= w.core.generation && Awaited(w, done)
    case DialLeaves(g, _) => g <= w.core.generation
    case DialAwaitsCleanup(g, c) => g <= w.core.generation && c in w.cleanups
    case DialForgets(g, c) => g <= w.core.generation && c in w.closed
    case DialPinned(g, m) => g in w.pins && w.pins[g] == m
    case CloseAwaitsSelection(g, done) =>
      && g <= w.core.generation && Awaited(w, done)
      && (w.lease.Some? && w.lease.value.selection.generation < g ==> w.lease.value.selection.done == done)
      && (forall c: Chan :: Running(w, c) && w.cleanups[c] < g ==>
            w.lease.Some? && CleanupOf(w.lease.value.selection.phase) == Some(c))
      && (done in w.closed ==> Quiet(w, g))
    case CloseRereads(g) => g <= w.core.generation && Quiet(w, g)
    case CloseAwaitsCleanup(g, c) =>
      && g <= w.core.generation && c in w.cleanups
      && (w.lease.Some? ==> w.lease.value.selection.generation >= g)
      && (forall d: Chan :: Running(w, d) && w.cleanups[d] < g ==> d == c)
    case CloseForgets(g, c) => g <= w.core.generation && c in w.closed && Quiet(w, g)
    case CloseReturned(g) => g <= w.core.generation && Quiet(w, g)
    case _ => true
  }

  /** What every change of the shared state has to keep. */
  ghost predicate Kept(w: Shared, v: Shared, pc: Pc) {
    Sound(v) && (PcSound(w, pc) ==> PcSound(v, pc))
  }

  lemma {:induction false} WaitersKeep(w: Shared, waiters: int, pc: Pc)
    requires Sound(w)
    ensures Kept(w, w.(core := w.core.(selectionWaiters := waiters)), pc)
  {
  }

  lemma {:induction false} ForgetKeeps(w: Shared, c: Chan, pc: Pc)
    requires Sound(w) && c in w.closed
    ensures Kept(w, w.(core := ForgetCleanup(w.core, c)), pc)
  {
  }

  lemma {:induction false} StartKeeps(w: Shared, t: Thread, pc: Pc)
    requires Sound(w) && w.core.selected.None? && !w.core.selecting && w.core.cleanupDone.None?
    ensures Kept(w, Starts(w, t, w.core.(selecting := true, selectionDone := w.made)), pc)
  {
  }

  lemma {:induction false} EndKeeps(w: Shared, t: Thread, selection: Selection, mode: Option<Mode>, leftover: bool,
                                    pc: Pc)
    requires Sound(w) && w.lease == Some(Lease(t, selection)) && selection.phase.Racing?
    ensures Kept(w, Ends(w, t, selection, mode, leftover), pc)
  {
  }

  lemma {:induction false} TurnKeeps(w: Shared, t: Thread, selection: Selection, pc: Pc)
    requires Sound(w) && w.lease == Some(Lease(t, selection)) && selection.phase.Back?
    requires selection.generation != w.core.generation
    ensures Kept(w, Turns(w, t, selection), pc)
  {
  }

  lemma {:induction false} PinKeeps(w: Shared, t: Thread, selection: Selection, pc: Pc)
    requires Sound(w) && w.lease == Some(Lease(t, selection)) && selection.phase.Back?
    requires selection.generation == w.core.generation
    ensures Kept(w, Pins(w, selection), pc)
  {
  }

  lemma {:induction false} StaleSeenKeeps(w: Shared, t: Thread, selection: Selection, pc: Pc)
    requires Sound(w) && w.lease == Some(Lease(t, selection)) && selection.phase.StaleWait?
    requires selection.phase.cleanup.Some? ==> selection.phase.cleanup.value in w.closed
    ensures Kept(w, Moves(w, t, selection, StaleDone), pc)
  {
  }

  lemma {:induction false} LetKeeps(w: Shared, t: Thread, selection: Selection, pc: Pc)
    requires Sound(w) && w.lease == Some(Lease(t, selection)) && selection.phase.StaleDone?
    ensures Kept(w, Lets(w, selection), pc)
  {
  }

  lemma {:induction false} RetireKeeps(w: Shared, pc: Pc)
    requires Sound(w)
    ensures Kept(w, w.(core := Retire(w.core)), pc)
  {
  }

  lemma {:induction false} CleanupEndKeeps(w: Shared, c: Chan, pc: Pc)
    requires Sound(w) && Running(w, c)
    ensures Kept(w, w.(closed := w.closed + {c}), pc)
  {
  }

  /** After its first region, Close is waiting for whatever earlier generations still run. */
  lemma {:induction false} RaiseSound(w: Shared, t: Thread)
    requires Sound(w)
    ensures var (v, next) := Take(w, t, CloseHead, Raise); PcSound(v, next)
  {
    var v := Take(w, t, CloseHead, Raise).0;
    assert forall c: Chan :: Running(v, c) ==> Running(w, c);
  }

  lemma {:induction false} RereadSound(w: Shared, raised: nat)
    requires Sound(w) && PcSound(w, CloseRereads(raised))
    ensures PcSound(w, CloseCleanup(raised, w.core.cleanupDone))
  {
  }

  lemma {:induction false} HeadSound(w: Shared, t: Thread, pc: Pc)
    requires Sound(w) && PcSound(w, pc) && pc.DialHead?
    ensures var (v, next) := Take(w, t, pc, PassHead); PcSound(v, next)
  {
    hide ConnsSound;
  }

  lemma {:induction false} HeadKeeps(w: Shared, t: Thread, pc: Pc, other: Pc)
    requires Sound(w) && pc.DialHead?
    ensures Kept(w, Take(w, t, pc, PassHead).0, other)
  {
    hide Sound, PcSound;
    if pc.first.Some? && pc.first.value != w.core.generation {
    } else if w.core.selected.Some? {
    } else if w.core.selecting {
      WaitersKeep(w, w.core.selectionWaiters + 1, other);
    } else if w.core.cleanupDone.None? {
      StartKeeps(w, t, other);
    }
  }

  /** Every step of a thread keeps the shared state sound, leaves the other threads what they rely on and
      establishes what its own thread relies on next. */
  lemma {:induction false} TakeKeeps(w: Shared, t: Thread, pc: Pc, step: Step, other: Pc)
    requires Sound(w) && PcSound(w, pc) && CanStep(w, pc, step)
    requires pc.DialSelects? ==> w.lease == Some(Lease(t, pc.selection))
    ensures var (v, next) := Take(w, t, pc, step); Kept(w, v, other) && PcSound(v, next)
  {
    hide Sound;
    match step
    case PassHead => HeadKeeps(w, t, pc, other); HeadSound(w, t, pc);
    case Leave => WaitersKeep(w, w.core.selectionWaiters - 1, other);
    case Forget => ForgetKeeps(w, pc.done, other);
    case CloseForget => ForgetKeeps(w, pc.done, other); ForgetKeeps(w, pc.done, CloseReturned(pc.raised));
    case SelectionEnds(mode, leftover) => EndKeeps(w, t, pc.selection, mode, leftover, other);
    case Relock =>
      if pc.selection.generation != w.core.generation {
        TurnKeeps(w, t, pc.selection, other);
      } else {
        PinKeeps(w, t, pc.selection, other);
      }
    case StaleCleanupSeen => StaleSeenKeeps(w, t, pc.selection, other);
    case StaleEnds => LetKeeps(w, t, pc.selection, other);
    case Raise => RetireKeeps(w, other); RaiseSound(w, t);
    case Reread => RereadSound(w, pc.raised);
    case _ =>
  }

  // ---------------------------------------------------------------- every reachable state

  predicate Waits(pc: Pc) {
    pc.DialAwaitsSelection? || pc.DialLeaves?
  }

  function WaitingIn(threads: map<Thread, Pc>): (s: set<Thread>) {
    set t | t in threads && Waits(threads[t])
  }

  /** Only the thread that holds the lease is inside a selection. */
  ghost predicate Mirrors(s: State) {
    && (forall t :: t in s.threads && s.threads[t].DialSelects? ==>
          s.shared.lease == Some(Lease(t, s.threads[t].selection)))
    && (s.shared.lease.Some? ==>
          && s.shared.lease.value.thread in s.threads
          && s.threads[s.shared.lease.value.thread] == DialSelects(s.shared.lease.value.selection))
  }

  ghost predicate Inv(s: State) {
    && Sound(s.shared) && Mirrors(s)
    && (forall t :: t in s.threads ==> PcSound(s.shared, s.threads[t]))
    && s.shared.core.selectionWaiters == |WaitingIn(s.threads)|
  }

  lemma {:induction false} WaitingAfter(threads: map<Thread, Pc>, t: Thread, pc: Pc)
    ensures |WaitingIn(threads[t := pc])| ==
              |WaitingIn(threads)| + (if Waits(pc) then 1 else 0) - (if t in threads && Waits(threads[t]) then 1 else 0)
  {
    hide Waits, WaitingIn;
    WaitingElsewhere(threads, t, pc);
    WithAndWithout(WaitingIn(threads), WaitingIn(threads[t := pc]), t);
  }

  lemma {:induction false} WaitingElsewhere(threads: map<Thread, Pc>, t: Thread, pc: Pc)
    ensures WaitingIn(threads) - {t} == WaitingIn(threads[t := pc]) - {t}
    ensures t in WaitingIn(threads) <==> t in threads && Waits(threads[t])
    ensures t in WaitingIn(threads[t := pc]) <==> Waits(pc)
  {
    hide Waits;
  }

  /** What a step does to the lease and to the count of waiters. */
  lemma {:induction false} TakeLease(w: Shared, t: Thread, pc: Pc, step: Step)
    requires LeaseSound(w) && CanStep(w, pc, step)
    requires pc.DialSelects? ==> w.lease == Some(Lease(t, pc.selection))
    ensures var (v, next) := Take(w, t, pc, step);
            && v.lease == (if next.DialSelects? then Some(Lease(t, next.selection))
                           else if pc.DialSelects? then None else w.lease)
            && (next.DialSelects? && !pc.DialSelects? ==> w.lease.None?)
            && v.core.selectionWaiters ==
                 w.core.selectionWaiters + (if Waits(next) then 1 else 0) - (if Waits(pc) then 1 else 0)
  {
  }

  lemma {:induction false} ActKeepsInv(s: State, t: Thread, step: Step)
    requires Inv(s) && Enabled(s, Acts(t, step))
    ensures Inv(Apply(s, Acts(t, step)))
  {
    hide Sound, PcSound, CanStep, Take, Waits, WaitingIn;
    var pc := s.threads[t];
    var (v, next) := Take(s.shared, t, pc, step);
    forall u | u in s.threads
      ensures Kept(s.shared, v, s.threads[u]) && PcSound(v, next)
    {
      TakeKeeps(s.shared, t, pc, step, s.threads[u]);
    }
    SoundLease(s.shared);
    TakeLease(s.shared, t, pc, step);
    WaitingAfter(s.threads, t, next);
  }

  lemma {:induction false} SoundLease(w: Shared)
    requires Sound(w)
    ensures LeaseSound(w)
  {
  }

  lemma {:induction false} EventKeepsInv(s: State, e: Event)
    requires Inv(s) && Enabled(s, e)
    ensures Inv(Apply(s, e))
  {
    hide Sound, WaitingIn;
    match e
    case Acts(t, step) => ActKeepsInv(s, t, step);
    case CleanupEnds(c) =>
      CleanupEndKeeps(s.shared, c, DialReturned);
      forall t | t in s.threads
        ensures Kept(s.shared, Apply(s, e).shared, s.threads[t])
      {
        CleanupEndKeeps(s.shared, c, s.threads[t]);
      }
    case _ => WaitingAfter(s.threads, e.thread, Apply(s, e).threads[e.thread]);
  }

  lemma {:induction false} InitialInv(s: State)
    requires Initial(s)
    ensures Inv(s)
  {
    assert WaitingIn(s.threads) == {};
  }

  lemma {:induction false} RunKeepsInv(run: seq<State>, i: nat)
    requires IsRun(run) && i < |run|
    ensures Inv(run[i])
  {
    hide Inv, Enabled, Apply;
    if i == 0 {
      InitialInv(run[0]);
    } else {
      RunKeepsInv(run, i - 1);
      var e := StepOf(run, i - 1);
      EventKeepsInv(run[i - 1], e);
    }
  }

  // ---------------------------------------------------------------- the guarantees

  /** At most one selection runs; `selecting` says whether one does; while it does, nothing is pinned and no
      cleanup is pending. */
  lemma {:induction false} SelectionIsExclusive(run: seq<State>, i: nat)
    requires IsRun(run) && i < |run|
    ensures var s := run[i];
            && (forall t, u ::
                  t in s.threads && u in s.threads && s.threads[t].DialSelects? && s.threads[u].DialSelects? ==> t == u)
            && (s.shared.core.selecting <==> exists t :: t in s.threads && s.threads[t].DialSelects?)
            && (s.shared.core.selecting ==> s.shared.core.selected.None? && s.shared.core.cleanupDone.None?)
            && s.shared.core.selectionWaiters == |WaitingIn(s.threads)|
  {
    RunKeepsInv(run, i);
  }

  /** What never goes back: the generation, closed channels, started cleanups. Within a generation, neither does
      what is pinned. */
  ghost predicate Later(w: Shared, v: Shared) {
    && w.core.generation <= v.core.generation
    && w.closed <= v.closed
    && (forall c :: c in w.cleanups ==> c in v.cleanups && v.cleanups[c] == w.cleanups[c])
    && (w.core.generation == v.core.generation && w.core.selected.Some? ==> v.core.selected == w.core.selected)
  }

  lemma {:induction false} EventIsLater(s: State, e: Event)
    requires Inv(s) && Enabled(s, e)
    ensures Later(s.shared, Apply(s, e).shared)
  {
    hide ConnsSound, PcSound, WaitingIn;
  }

  lemma {:induction false} RunIsLater(run: seq<State>, i: nat, j: nat)
    requires IsRun(run) && i <= j < |run|
    ensures Later(run[i].shared, run[j].shared)
  {
    hide Inv, Enabled, Apply, IsRun;
    if i < j {
      RunIsLater(run, i, j - 1);
      RunKeepsInv(run, j - 1);
      var e := StepOf(run, j - 1);
      EventIsLater(run[j - 1], e);
      RunKeepsInv(run, i);
      LaterIsTransitive(run[i].shared, run[j - 1].shared, run[j].shared);
    }
  }

  lemma {:induction false} LaterIsTransitive(u: Shared, v: Shared, w: Shared)
    requires Later(u, v) && Later(v, w)
    ensures Later(u, w)
  {
  }

  /** The pinned transport changes at most once in a generation: once there is one, it stays. */
  lemma {:induction false} PinnedOncePerGeneration(run: seq<State>, i: nat, j: nat)
    requires IsRun(run) && i <= j < |run|
    requires run[i].shared.core.generation == run[j].shared.core.generation && run[i].shared.core.selected.Some?
    ensures run[j].shared.core.selected == run[i].shared.core.selected
  {
    RunIsLater(run, i, j);
  }

  /** Thread `t` is inside one selection in all these states. */
  ghost predicate SelectsThroughout(run: seq<State>, i: nat, j: nat, t: Thread) {
    && i <= j < |run|
    && forall m :: i <= m <= j ==> t in run[m].threads && run[m].threads[t].DialSelects?
  }

  /** The connection that a thread's selection holds. */
  function HeldBy(s: State, t: Thread): (c: Option<nat>) {
    if t in s.threads && s.threads[t].DialSelects? then ConnOf(s.threads[t].selection.phase) else None
  }

  /** What a step of anybody does to a running selection: it keeps its generation, and keeps its connection until it
      is closed. A stale one ends only without a connection, and pins nothing. */
  lemma {:induction false} SelectionStep(s: State, e: Event, t: Thread)
    requires Enabled(s, e) && t in s.threads && s.threads[t].DialSelects?
    ensures var r := Apply(s, e);
            && t in r.threads && s.shared.dropped <= r.shared.dropped
            && (r.threads[t].DialSelects? ==>
                  && r.threads[t].selection.generation == s.threads[t].selection.generation
                  && (HeldBy(s, t).Some? ==> HeldBy(r, t) == HeldBy(s, t) || HeldBy(s, t).value in r.shared.dropped)
                  && (e.Acts? && e.thread == t ==> r.shared.core.selected == s.shared.core.selected))
            && (!r.threads[t].DialSelects? && s.threads[t].selection.generation != s.shared.core.generation ==>
                  && r.threads[t] == DialReturned && HeldBy(s, t).None?
                  && r.shared.core.selected == s.shared.core.selected)
  {
  }

  lemma {:induction false} SelectionKeeps(run: seq<State>, i: nat, m: nat, j: nat, t: Thread)
    requires IsRun(run) && SelectsThroughout(run, i, j, t) && i <= m <= j
    ensures run[j].threads[t].selection.generation == run[m].threads[t].selection.generation
    ensures HeldBy(run[m], t).Some? ==>
              HeldBy(run[j], t) == HeldBy(run[m], t) || HeldBy(run[m], t).value in run[j].shared.dropped
  {
    hide IsRun, Enabled, Apply, HeldBy;
    if m < j {
      SelectionKeeps(run, i, m, j - 1, t);
      var e := StepOf(run, j - 1);
      SelectionStep(run[j - 1], e, t);
    }
  }

  /** A selection that was running when a Close raised the generation, between states `i` and `k`, never pins
      anything, at no later step of its own; when it ends, every connection it ever held has been closed and none was
      returned. */
  lemma {:induction false} StaleSelectionsNeverPin(run: seq<State>, i: nat, k: nat, n: nat, t: Thread)
    requires IsRun(run) && SelectsThroughout(run, i, n, t) && i < k <= n && n + 1 < |run|
    requires run[k].shared.core.generation > run[i].shared.core.generation
    requires !(t in run[n + 1].threads && run[n + 1].threads[t].DialSelects?)
    ensures forall m: nat, step ::
              i <= m <= n && Enabled(run[m], Acts(t, step)) && run[m + 1] == Apply(run[m], Acts(t, step)) ==>
              run[m + 1].shared.core.selected == run[m].shared.core.selected
    ensures t in run[n + 1].threads && run[n + 1].threads[t] == DialReturned
    ensures forall m: nat :: i <= m <= n && HeldBy(run[m], t).Some? ==>
              HeldBy(run[m], t).value in run[n + 1].shared.dropped
                && HeldBy(run[m], t).value !in run[n + 1].shared.returned
  {
    hide IsRun, Enabled, Apply, HeldBy, Inv;
    RunKeepsInv(run, i);
    NothingNewer(run[i]);
    SelectionKeeps(run, i, i, n, t);
    RunIsLater(run, k, n);
    var e := StepOf(run, n);
    SelectionStep(run[n], e, t);
    RunKeepsInv(run, n + 1);
    NeverBoth(run[n + 1]);
    forall m: nat | i <= m <= n && HeldBy(run[m], t).Some?
      ensures HeldBy(run[m], t).value in run[n + 1].shared.dropped
    {
      SelectionKeeps(run, i, m, n, t);
    }
    forall m: nat, step | i <= m <= n && Enabled(run[m], Acts(t, step)) && run[m + 1] == Apply(run[m], Acts(t, step))
      ensures run[m + 1].shared.core.selected == run[m].shared.core.selected
    {
      SelectionStep(run[m], Acts(t, step), t);
    }
  }

  lemma {:induction false} NeverBoth(s: State)
    requires Inv(s)
    ensures s.shared.returned !! s.shared.dropped
  {
  }

  function RaisedBy(pc: Pc): (g: Option<nat>) {
    match pc
    case CloseAwaitsSelection(g, _) => Some(g)
    case CloseRereads(g) => Some(g)
    case CloseAwaitsCleanup(g, _) => Some(g)
    case CloseForgets(g, _) => Some(g)
    case CloseReturned(g) => Some(g)
    case _ => None
  }

  lemma {:induction false} RaisedStep(s: State, e: Event, t: Thread)
    requires Enabled(s, e) && t in s.threads
    ensures t in Apply(s, e).threads
    ensures RaisedBy(s.threads[t]).Some? ==> RaisedBy(Apply(s, e).threads[t]) == RaisedBy(s.threads[t])
    ensures e == Acts(t, Raise) ==> RaisedBy(Apply(s, e).threads[t]) == Some(s.shared.core.generation + 1)
  {
  }

  lemma {:induction false} RaisedStays(run: seq<State>, i: nat, j: nat, t: Thread)
    requires IsRun(run) && i <= j < |run| && t in run[i].threads && RaisedBy(run[i].threads[t]).Some?
    ensures t in run[j].threads && RaisedBy(run[j].threads[t]) == RaisedBy(run[i].threads[t])
  {
    hide Enabled, Apply, IsRun, RaisedBy;
    if i < j {
      RaisedStays(run, i, j - 1, t);
      var e := StepOf(run, j - 1);
      RaisedStep(run[j - 1], e, t);
    }
  }

  /** When Close returns, every selection that was running when it began is over, and so is every cleanup
      goroutine; those that run now belong to later generations. */
  lemma {:induction false} CloseOutlivesEarlierSelections(run: seq<State>, i: nat, j: nat, t: Thread)
    requires IsRun(run) && i < j < |run|
    requires Enabled(run[i], Acts(t, Raise)) && run[i + 1] == Apply(run[i], Acts(t, Raise))
    requires t in run[j].threads && run[j].threads[t].CloseReturned?
    ensures forall u, v ::
              && u in run[i].threads && v in run[j].threads
              && run[i].threads[u].DialSelects? && run[j].threads[v].DialSelects? ==>
              run[i].threads[u].selection.generation < run[j].threads[v].selection.generation
    ensures forall c: Chan :: Running(run[i].shared, c) ==> c in run[j].shared.closed
    ensures forall c: Chan :: Running(run[j].shared, c) ==>
              c in run[j].shared.cleanups && run[j].shared.cleanups[c] > run[i].shared.core.generation
  {
    hide Enabled, Apply, IsRun, Inv, Running;
    assert t in run[i].threads by {
      EnabledThread(run[i], t, Raise);
    }
    RaisedStep(run[i], Acts(t, Raise), t);
    RaisedStays(run, i + 1, j, t);
    RunIsLater(run, i, j);
    RunKeepsInv(run, i);
    RunKeepsInv(run, j);
    NothingNewer(run[i]);
    ReturnedIsQuiet(run[j], t);
    forall c: Chan
      ensures Running(run[i].shared, c) ==> c in run[j].shared.closed
      ensures Running(run[j].shared, c) ==>
                c in run[j].shared.cleanups && run[j].shared.cleanups[c] > run[i].shared.core.generation
    {
      RunningIsStarted(run[i].shared, c);
      RunningIsStarted(run[j].shared, c);
    }
  }

  lemma {:induction false} EnabledThread(s: State, t: Thread, step: Step)
    requires Enabled(s, Acts(t, step))
    ensures t in s.threads
  {
  }

  lemma {:induction false} RunningIsStarted(w: Shared, c: Chan)
    ensures Running(w, c) <==> c in w.cleanups && c !in w.closed
  {
  }

  lemma {:induction false} NothingNewer(s: State)
    requires Inv(s)
    ensures forall t :: t in s.threads && s.threads[t].DialSelects? ==>
              s.threads[t].selection.generation <= s.shared.core.generation
    ensures forall c :: c in s.shared.cleanups ==> s.shared.cleanups[c] <= s.shared.core.generation
  {
  }

  lemma {:induction false} ReturnedIsQuiet(s: State, t: Thread)
    requires Inv(s) && t in s.threads && s.threads[t].CloseReturned?
    ensures forall u :: u in s.threads && s.threads[u].DialSelects? ==>
              s.threads[u].selection.generation >= s.threads[t].raised
    ensures forall c: Chan :: Running(s.shared, c) ==> s.shared.cleanups[c] >= s.threads[t].raised
  {
    assert PcSound(s.shared, s.threads[t]);
  }

  /** Whoever waits, waits for a channel that is closed or that somebody running is going to close. */
  lemma {:induction false} NobodyWaitsInVain(run: seq<State>, i: nat, t: Thread)
    requires IsRun(run) && i < |run| && t in run[i].threads
    ensures var s := run[i];
            var pc := s.threads[t];
            && (pc.DialAwaitsSelection? || pc.CloseAwaitsSelection? ==>
                  pc.done in s.shared.closed ||
                  exists u :: u in s.threads && s.threads[u].DialSelects? && s.threads[u].selection.done == pc.done)
            && (pc.DialAwaitsCleanup? || pc.CloseAwaitsCleanup? ==>
                  pc.done in s.shared.closed || Running(s.shared, pc.done))
  {
    RunKeepsInv(run, i);
    assert PcSound(run[i].shared, run[i].threads[t]);
  }

  /** A Dial that uses a pinned transport uses the one its own generation pinned. */
  lemma {:induction false} DialsUseTheirGeneration(run: seq<State>, i: nat, t: Thread)
    requires IsRun(run) && i < |run| && t in run[i].threads && run[i].threads[t].DialPinned?
    ensures run[i].threads[t].entered in run[i].shared.pins
    ensures run[i].shared.pins[run[i].threads[t].entered] == run[i].threads[t].mode
  {
    RunKeepsInv(run, i);
    assert PcSound(run[i].shared, run[i].threads[t]);
  }

  /** No connection of a selection is lost: it went to a caller or was closed, never both, unless the one
      selection that runs still holds it. */
  lemma {:induction false} ConnectionsConserved(run: seq<State>, i: nat)
    requires IsRun(run) && i < |run|
    ensures var w := run[i].shared;
            && w.returned !! w.dropped
            && (!w.core.selecting ==> forall n: nat :: n < w.conns <==> n in w.returned || n in w.dropped)
            && (forall n: nat :: n < w.conns && n !in w.returned && n !in w.dropped ==>
                  exists t :: t in run[i].threads && run[i].threads[t].DialSelects?
                    && ConnOf(run[i].threads[t].selection.phase) == Some(n))
  {
    RunKeepsInv(run, i);
  }

  // ---------------------------------------------------------------- the class

  /** The run went on by one event. */
  ghost predicate WentOn(before: seq<State>, after: seq<State>, e: Event) {
    before != [] && Enabled(Last(before), e) && after == before + [Apply(Last(before), e)]
  }

  lemma {:induction false} RunGrows(run: seq<State>, e: Event)
    requires IsRun(run) && Enabled(Last(run), e)
    ensures IsRun(run + [Apply(Last(run), e)])
  {
    hide Enabled, Apply, Initial;
    var more := run + [Apply(Last(run), e)];
    forall i | 0 <= i < |more| - 1
      ensures Next(more[i], more[i + 1])
    {
      if i < |run| - 1 {
        assert Next(run[i], run[i + 1]);
      }
    }
  }

  /** AutoTransport's guarded fields. Each method is one mutex-held region of Dial or Close, run by the thread `t`
      that stands before it; `run` records every state there was and `Valid` says that it is a run of the machine, so
      that every guarantee above holds of these fields. */
  class Auto {
    var selected: Option<Mode>
    var selecting: bool
    var selectionDone: Chan
    var selectionWaiters: int
    var cleanupDone: Option<Chan>
    var generation: nat
    ghost var run: seq<State>

    constructor ()
      ensures Valid() && Last(run).threads == map[]
    {
      selected, selecting, selectionDone, selectionWaiters, cleanupDone, generation := None, false, 0, 0, None, 0;
      run := [State(Shared(Core(None, false, 0, 0, None, 0), 0, {}, map[], map[], 0, {}, {}, None), map[])];
    }

    function View(): (core: Core)
      reads this
    {
      Core(selected, selecting, selectionDone, selectionWaiters, cleanupDone, generation)
    }

    ghost predicate Valid()
      reads this
    {
      run != [] && IsRun(run) && Last(run).shared.core == View()
    }

    /** Where thread `t` stands. */
    ghost predicate At(t: Thread, pc: Pc)
      reads this
    {
      run != [] && t in Last(run).threads && Last(run).threads[t] == pc
    }

    /** Calls, channel operations and everything else that does not touch the guarded fields. */
    ghost method Elsewhere(e: Event)
      requires Valid() && Enabled(Last(run), e) && Apply(Last(run), e).shared.core == View()
      modifies this`run
      ensures Valid() && WentOn(old(run), run, e)
    {
      RunGrows(run, e);
      run := run + [Apply(Last(run), e)];
    }

    /** The head of Dial's loop. A new selection starts only if nobody selects and every cleanup has ended; a pinned
        transport is that of the caller's own generation. */
    method EnterDial(ghost t: Thread, entered: Option<nat>, newDone: Chan) returns (decision: Decision)
      requires Valid() && At(t, DialHead(entered)) && newDone == Last(run).shared.made
      modifies this
      ensures Valid() && WentOn(old(run), run, Acts(t, PassHead))
      ensures At(t, AfterHead(if entered.Some? then entered.value else generation, generation, decision))
      ensures decision.Select? ==>
                && (forall u :: u in old(Last(run)).threads ==> !old(Last(run)).threads[u].DialSelects?)
                && (forall c: Chan :: !Running(old(Last(run)).shared, c))
      ensures decision.UsePinned? ==>
                generation in Last(run).shared.pins && Last(run).shared.pins[generation] == decision.mode &&
                (entered.Some? ==> entered.value == generation)
    {
      hide IsRun, Inv, Running;
      ghost var before := Last(run);
      RunKeepsInv(run, |run| - 1);
      NobodySelects(before);
      RunGrows(run, Acts(t, PassHead));
      run := run + [Apply(Last(run), Acts(t, PassHead))];
      if entered.Some? {
        if generation != entered.value {
          return Stopped;
        }
      }
      if selected.Some? {
        return UsePinned(selected.value);
      }
      if selecting {
        selectionWaiters := selectionWaiters + 1;
        return AwaitSelection(selectionDone);
      }
      if cleanupDone.Some? {
        return AwaitCleanup(cleanupDone.value);
      }
      selecting := true;
      selectionDone := newDone;
      return Select(selectionDone);
    }

    /** A waiter leaves; the count remains that of the threads that wait. */
    method StopWaiting(ghost t: Thread, ghost again: bool, ghost entered: nat)
      requires Valid() && At(t, DialLeaves(entered, again))
      modifies this
      ensures Valid() && WentOn(old(run), run, Acts(t, Leave))
      ensures selectionWaiters == |WaitingIn(Last(run).threads)| == |WaitingIn(old(Last(run)).threads)| - 1
    {
      hide IsRun, Sound, WaitingIn, PcSound;
      RunGrows(run, Acts(t, Leave));
      RunKeepsInv(run, |run| - 1);
      RunKeepsInv(run + [Apply(Last(run), Acts(t, Leave))], |run|);
      run := run + [Apply(Last(run), Acts(t, Leave))];
      selectionWaiters := selectionWaiters - 1;
    }

    /** Forgetting a cleanup, by a Dial or a Close that saw it end: only one that has ended is ever forgotten. */
    method Forget(ghost t: Thread, ghost step: Step, done: Chan)
      requires Valid() && Enabled(Last(run), Acts(t, step)) && (step.Forget? || step.CloseForget?)
      requires done == Last(run).threads[t].done
      modifies this
      ensures Valid() && WentOn(old(run), run, Acts(t, step))
      ensures cleanupDone != Some(done) && !Running(Last(run).shared, done)
      ensures forall c: Chan :: Running(old(Last(run)).shared, c) && old(cleanupDone) == Some(c) ==>
                cleanupDone == Some(c)
    {
      hide IsRun, Inv;
      RunKeepsInv(run, |run| - 1);
      ForgottenHasEnded(Last(run), t);
      RunGrows(run, Acts(t, step));
      run := run + [Apply(Last(run), Acts(t, step))];
      if cleanupDone == Some(done) {
        cleanupDone := None;
      }
    }

    /** Relocking after selectTransport. A stale selection changes nothing yet; any other ends here, with its cleanup
        recorded and its transport pinned if it has one. */
    method FinishSelection(ghost t: Thread, ghost selection: Selection, selectionGeneration: nat, mode: Option<Mode>,
                           cleanup: Option<Chan>)
      returns (stale: bool)
      requires Valid() && At(t, DialSelects(selection)) && selectionGeneration == selection.generation
      requires selection.phase.Back? && selection.phase.mode == mode && selection.phase.cleanup == cleanup
      modifies this
      ensures Valid() && WentOn(old(run), run, Acts(t, Relock))
      ensures stale <==> selectionGeneration != generation
      ensures stale ==> View() == old(View()) && selecting
      ensures !stale ==> selected == mode && cleanupDone == cleanup && !selecting
      ensures !stale ==> forall u :: u in Last(run).threads ==> !Last(run).threads[u].DialSelects?
    {
      hide IsRun, Inv;
      ghost var after := Apply(Last(run), Acts(t, Relock));
      RunKeepsInv(run, |run| - 1);
      NobodySelects(Last(run));
      RunGrows(run, Acts(t, Relock));
      RunKeepsInv(run + [after], |run|);
      NobodySelects(after);
      run := run + [after];
      stale := selectionGeneration != generation;
      if stale {
        return;
      }
      if mode.Some? {
        selected := mode;
      }
      if cleanup.Some? {
        cleanupDone := cleanup;
      }
      selecting := false;
    }

    /** The end of a stale selection: nobody selects, nothing of it is pinned, its cleanup has ended, and its waiters
        are free to go. */
    method FinishStale(ghost t: Thread, ghost selection: Selection)
      requires Valid() && At(t, DialSelects(selection)) && selection.phase.StaleDone?
      modifies this
      ensures Valid() && WentOn(old(run), run, Acts(t, StaleEnds))
      ensures !selecting && selected.None? && selection.done in Last(run).shared.closed
      ensures forall u :: u in Last(run).threads ==> !Last(run).threads[u].DialSelects?
      ensures forall c: Chan :: !Running(Last(run).shared, c)
    {
      hide IsRun, Inv, Running;
      ghost var after := Apply(Last(run), Acts(t, StaleEnds));
      RunKeepsInv(run, |run| - 1);
      NobodySelects(Last(run));
      RunGrows(run, Acts(t, StaleEnds));
      RunKeepsInv(run + [after], |run|);
      NobodySelects(after);
      run := run + [after];
      selecting := false;
    }

    /** The first region of Close: it captures what was there, and from now on every selection that runs is stale. */
    method BeginClose(ghost t: Thread)
      returns (wasSelecting: bool, done: Chan, cleanup: Option<Chan>, pinned: Option<Mode>)
      requires Valid() && At(t, CloseHead)
      modifies this
      ensures Valid() && WentOn(old(run), run, Acts(t, Raise))
      ensures Core(pinned, wasSelecting, done, old(selectionWaiters), cleanup, old(generation)) == old(View())
      ensures selected.None? && generation == old(generation) + 1
      ensures forall u :: u in Last(run).threads && Last(run).threads[u].DialSelects? ==>
                wasSelecting && Last(run).threads[u].selection.done == done
                  && Last(run).threads[u].selection.generation < generation
      ensures forall c: Chan :: Running(Last(run).shared, c) ==> wasSelecting || cleanup == Some(c)
    {
      hide IsRun, Inv, Running;
      ghost var after := Apply(Last(run), Acts(t, Raise));
      RunKeepsInv(run, |run| - 1);
      NobodySelects(Last(run));
      SelectorsHold(Last(run));
      RunGrows(run, Acts(t, Raise));
      RaiseStartsNothing(Last(run), t);
      run := run + [after];
      generation := generation + 1;
      done, wasSelecting, cleanup, pinned := selectionDone, selecting, cleanupDone, selected;
      selected := None;
    }
  }

  /** While `selecting` is not set nobody selects, and only the recorded cleanup may run; while it is, nothing is
      pinned or recorded. */
  lemma {:induction false} NobodySelects(s: State)
    requires Inv(s)
    ensures !s.shared.core.selecting ==>
              && (forall u :: u in s.threads ==> !s.threads[u].DialSelects?)
              && (forall c: Chan :: Running(s.shared, c) ==> s.shared.core.cleanupDone == Some(c))
    ensures s.shared.core.selecting ==> s.shared.core.selected.None? && s.shared.core.cleanupDone.None?
    ensures s.shared.core.selected.Some? ==>
              s.shared.core.generation in s.shared.pins
                && s.shared.pins[s.shared.core.generation] == s.shared.core.selected.value
    ensures forall u :: u in s.threads && s.threads[u].DialSelects? ==>
              s.shared.core.selecting
                && (s.threads[u].selection.phase.StaleDone? ==> forall c: Chan :: !Running(s.shared, c))
  {
    hide ConnsSound, PcSound, WaitingIn;
  }

  lemma {:induction false} ForgottenHasEnded(s: State, t: Thread)
    requires Inv(s) && t in s.threads && (s.threads[t].DialForgets? || s.threads[t].CloseForgets?)
    ensures s.threads[t].done in s.shared.closed
  {
    assert PcSound(s.shared, s.threads[t]);
  }

  lemma {:induction false} RaiseStartsNothing(s: State, t: Thread)
    requires Enabled(s, Acts(t, Raise))
    ensures forall c: Chan :: Running(Apply(s, Acts(t, Raise)).shared, c) ==> Running(s.shared, c)
  {
  }

  lemma {:induction false} SelectorsHold(s: State)
    requires Inv(s)
    ensures forall u :: u in s.threads && s.threads[u].DialSelects? ==>
              s.threads[u].selection.done == s.shared.core.selectionDone
                && s.threads[u].selection.generation <= s.shared.core.generation
  {
    hide ConnsSound, PcSound, WaitingIn;
  }

  lemma {:induction false} ClosedAreMade(s: State)
    requires Inv(s)
    ensures forall c :: c in s.shared.closed ==> c < s.shared.made
  {
    hide ConnsSound, PcSound, WaitingIn;
  }

  /** A Dial that finds nothing pinned and nobody selecting, up to the end of selectTransport. */
  method SelectAlone(auto: Auto, ghost t: Thread, newDone: Chan, ghost conn: Option<nat>,
                     mode: Option<Mode>, cleanup: Option<Chan>)
    requires auto.Valid() && t !in Last(auto.run).threads
    requires newDone == Last(auto.run).shared.made && (cleanup.Some? ==> cleanup.value == newDone + 1)
    requires conn == if mode.Some? then Some(Last(auto.run).shared.conns) else None
    requires auto.selected.None? && !auto.selecting && auto.cleanupDone.None?
    modifies auto
    ensures auto.Valid() && auto.generation == old(auto.generation) && auto.selecting && auto.selectionDone == newDone
    ensures auto.At(t, DialSelects(Selection(auto.generation, newDone, Back(mode, conn, cleanup))))
    ensures cleanup.Some? ==> Running(Last(auto.run).shared, cleanup.value)
    ensures Last(auto.run).threads.Keys == old(Last(auto.run)).threads.Keys + {t}
  {
    hide IsRun, Inv;
    auto.Elsewhere(CallDial(t));
    var decision := auto.EnterDial(t, None, newDone);
    RunKeepsInv(auto.run, |auto.run| - 1);
    ClosedAreMade(Last(auto.run));
    auto.Elsewhere(Acts(t, SelectionEnds(mode, cleanup.Some?)));
  }

  /** A Close that finds a selection running, up to its wait for it. */
  method CloseBegins(auto: Auto, ghost u: Thread)
    requires auto.Valid() && u !in Last(auto.run).threads && auto.selecting
    modifies auto
    ensures auto.Valid() && auto.generation == old(auto.generation) + 1 && auto.selecting
    ensures Last(auto.run).shared.(core := old(Last(auto.run)).shared.core) == old(Last(auto.run)).shared
    ensures Last(auto.run).threads ==
              old(Last(auto.run)).threads[u := CloseAwaitsSelection(auto.generation, old(auto.selectionDone))]
  {
    hide IsRun, Inv;
    auto.Elsewhere(CallClose(u));
    var wasSelecting, done, recorded, pinned := auto.BeginClose(u);
  }

  /** The stale end of a selection: it waits for its cleanup, which ends meanwhile. */
  method EndStale(auto: Auto, ghost t: Thread, ghost selection: Selection, ghost cleanup: Option<Chan>)
    requires auto.Valid() && auto.At(t, DialSelects(selection)) && selection.phase == StaleWait(cleanup)
    requires cleanup.Some? ==> Running(Last(auto.run).shared, cleanup.value)
    modifies auto
    ensures auto.Valid() && auto.selected.None? && !auto.selecting && auto.generation == old(auto.generation)
    ensures selection.done in Last(auto.run).shared.closed
              && Last(auto.run).shared.dropped == old(Last(auto.run)).shared.dropped
    ensures Last(auto.run).threads == old(Last(auto.run)).threads[t := DialReturned]
  {
    hide IsRun, Inv;
    if cleanup.Some? {
      auto.Elsewhere(CleanupEnds(cleanup.value));
    }
    auto.Elsewhere(Acts(t, StaleCleanupSeen));
    auto.FinishStale(t, selection.(phase := StaleDone));
  }

  /** A Dial that selects while another thread closes: its selection comes back stale, pins nothing, waits for its
      cleanup, and its connection is closed. */
  method OverlappedDial(auto: Auto, ghost t: Thread, ghost u: Thread, newDone: Chan, ghost conn: Option<nat>,
                        mode: Option<Mode>, cleanup: Option<Chan>)
    requires auto.Valid() && t !in Last(auto.run).threads && u !in Last(auto.run).threads && t != u
    requires newDone == Last(auto.run).shared.made && (cleanup.Some? ==> cleanup.value == newDone + 1)
    requires conn == if mode.Some? then Some(Last(auto.run).shared.conns) else None
    requires auto.selected.None? && !auto.selecting && auto.cleanupDone.None?
    modifies auto
    ensures auto.Valid() && auto.At(t, DialReturned) && auto.At(u, CloseAwaitsSelection(auto.generation, newDone))
    ensures auto.selected.None? && !auto.selecting && newDone in Last(auto.run).shared.closed
    ensures conn.Some? ==> conn.value in Last(auto.run).shared.dropped
  {
    hide IsRun, Inv;
    SelectAlone(auto, t, newDone, conn, mode, cleanup);
    ghost var selection := Selection(auto.generation, newDone, Back(mode, conn, cleanup));
    var generation := auto.generation;
    CloseBegins(auto, u);
    var stale := auto.FinishSelection(t, selection, generation, mode, cleanup);
    EndStale(auto, t, selection.(phase := StaleWait(cleanup)), cleanup);
  }
}
