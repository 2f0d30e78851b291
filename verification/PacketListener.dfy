/**
 The packet socket made from an admitting listener (packetListenerWrapper in net.go). One accept loop, one reader per
 accepted path and any number of Close calls interleave at their mutex-held regions. Accepted paths are numbered.
 */
module PacketListener {
  import opened Content
  import opened Runs
  import opened Sets

  type Path = nat
  type Thread = nat

  /** Under which name a path is registered: the address it reported, or its own number with unique peers. */
  datatype Key = Address(name: string) | Unique(number: nat)

  /** The guarded fields. `shut` says that shutdown began: the registry is then nil. The two counters say how often
      `done` and `admissionDone` were closed. */
  datatype Core = Core(
    closed: bool,
    admissionStopped: bool,
    shut: bool,
    conns: map<Key, Path>,
    nextPeer: nat,
    readers: int,
    doneCloses: nat,
    admissionCloses: nat
  )

  // ---------------------------------------------------------------- the regions

  function CloseDone(core: Core): (r: Core) {
    if core.doneCloses > 0 then core else core.(doneCloses := 1)
  }

  function CloseAdmission(core: Core): (r: Core) {
    if core.admissionCloses > 0 then core else core.(admissionCloses := 1)
  }

  function NameFor(core: Core, uniquePeers: bool, address: string): (k: Key) {
    if uniquePeers then Unique(core.nextPeer + 1) else Address(address)
  }

  /** The accept loop registers a path. */
  function Admit(core: Core, uniquePeers: bool, address: string, path: Path): (r: Core) {
    core.(nextPeer := if uniquePeers then core.nextPeer + 1 else core.nextPeer,
          conns := core.conns[NameFor(core, uniquePeers, address) := path],
          readers := core.readers + 1)
  }

  /** A reader that ended takes its own path, and nothing else, out of the registry. */
  function Leave(core: Core, key: Key, path: Path): (r: Core) {
    if core.closed then core
    else
      var left := if key in core.conns && core.conns[key] == path then core.(conns := core.conns - {key}) else core;
      if left.admissionStopped && left.conns == map[] then CloseDone(left.(closed := true)) else left
  }

  function StopAdmission(core: Core): (r: Core) {
    if core.closed then core
    else
      var stopped := CloseAdmission(core.(admissionStopped := true));
      if stopped.conns == map[] then CloseDone(stopped.(closed := true)) else stopped
  }

  /** The body of shutdownOnce. */
  function Shutdown(core: Core): (r: Core) {
    if core.shut then core else CloseDone(CloseAdmission(core.(closed := true, shut := true, conns := map[])))
  }

  // ---------------------------------------------------------------- the state machine

  datatype AcceptPc = Accepting | Stopping | Draining | ClosingInner | Finished
  datatype ReaderPc = Reading | Left | Deactivated | Gone
  datatype CloserPc = CloseHead | CloseInner | CloseWaits | CloseReturned

  datatype Entry = Entry(key: Key, active: bool, reader: ReaderPc)

  datatype State = State(
    uniquePeers: bool,
    core: Core,
    accept: AcceptPc,
    entries: map<Path, Entry>,
    closers: map<Thread, CloserPc>,
    innerCloses: nat
  )

  ghost predicate Initial(s: State) {
    && s.core == Core(false, false, false, map[], 0, 0, 0, 0)
    && s.accept == Accepting && s.entries == map[] && s.closers == map[] && s.innerCloses == 0
  }

  datatype Event =
    | AcceptPath(address: string, path: Path)
    | AcceptFails
    | RunStop
    | ReadersDone
    | AcceptEnds
    | ReaderStops(path: Path)
    | ReaderDeactivates(path: Path)
    | ReaderLeaves(path: Path)
    | CallClose(thread: Thread)
    | RunShutdown(thread: Thread)
    | ShutdownClosesInner(thread: Thread)
    | ShutdownSeen(thread: Thread)

  predicate Enabled(s: State, e: Event) {
    match e
    case AcceptPath(_, path) => s.accept.Accepting? && path !in s.entries
    case AcceptFails => s.accept.Accepting?
    case RunStop => s.accept.Stopping?
    case ReadersDone => s.accept.Draining? && s.core.readers == 0
    case AcceptEnds => s.accept.ClosingInner?
    case ReaderStops(path) => path in s.entries && s.entries[path].reader.Reading?
    case ReaderDeactivates(path) => path in s.entries && s.entries[path].reader.Left?
    case ReaderLeaves(path) => path in s.entries && s.entries[path].reader.Deactivated?
    case CallClose(t) => t !in s.closers
    case RunShutdown(t) => t in s.closers && s.closers[t].CloseHead?
    case ShutdownClosesInner(t) => t in s.closers && s.closers[t].CloseInner?
    case ShutdownSeen(t) => t in s.closers && s.closers[t].CloseWaits? && s.accept.Finished?
  }

  /** innerClose.Do. */
  function InnerClosed(closes: nat): (n: nat) {
    if closes > 0 then closes else 1
  }

  function Deactivate(entries: map<Path, Entry>, which: set<Path>): (r: map<Path, Entry>) {
    map p | p in entries :: if p in which then entries[p].(active := false) else entries[p]
  }

  /** The path that a newly accepted one replaces, if any. */
  function Replaced(s: State, address: string): (r: set<Path>) {
    var key := NameFor(s.core, s.uniquePeers, address);
    if key in s.core.conns then {s.core.conns[key]} else {}
  }

  function Accepts(s: State, address: string, path: Path): (r: State) {
    if s.core.closed then s.(accept := Draining)
    else
      var entry := Entry(NameFor(s.core, s.uniquePeers, address), true, Reading);
      s.(core := Admit(s.core, s.uniquePeers, address, path),
         entries := Deactivate(s.entries, Replaced(s, address))[path := entry])
  }

  function Apply(s: State, e: Event): (r: State)
    requires Enabled(s, e)
  {
    match e
    case AcceptPath(address, path) => Accepts(s, address, path)
    case AcceptFails => s.(accept := Stopping)
    case RunStop => s.(core := StopAdmission(s.core), accept := Draining)
    case ReadersDone => s.(accept := ClosingInner)
    case AcceptEnds => s.(innerCloses := InnerClosed(s.innerCloses), accept := Finished)
    case ReaderStops(p) =>
      s.(core := s.core.(readers := s.core.readers - 1), entries := s.entries[p := s.entries[p].(reader := Left)])
    case ReaderDeactivates(p) => s.(entries := s.entries[p := s.entries[p].(active := false, reader := Deactivated)])
    case ReaderLeaves(p) =>
      s.(core := Leave(s.core, s.entries[p].key, p), entries := s.entries[p := s.entries[p].(reader := Gone)])
    case CallClose(t) => s.(closers := s.closers[t := CloseHead])
    case RunShutdown(t) =>
      s.(core := Shutdown(s.core), entries := Deactivate(s.entries, s.core.conns.Values),
         closers := s.closers[t := if s.core.shut then CloseWaits else CloseInner])
    case ShutdownClosesInner(t) => s.(innerCloses := InnerClosed(s.innerCloses), closers := s.closers[t := CloseWaits])
    case ShutdownSeen(t) => s.(closers := s.closers[t := CloseReturned])
  }

  ghost predicate Next(s: State, r: State) {
    exists e :: Enabled(s, e) && r == Apply(s, e)
  }

  ghost predicate IsRun(run: seq<State>) {
    && run != [] && Initial(run[0])
    && forall i :: 0 <= i < |run| - 1 ==> Next(run[i], run[i + 1])
  }

  lemma {:induction false} StepOf(run: seq<State>, i: nat) returns (e: Event)
    requires IsRun(run) && i + 1 < |run|
    ensures Enabled(run[i], e) && run[i + 1] == Apply(run[i], e)
  {
    hide Enabled, Apply;
    assert Next(run[i], run[i + 1]);
    e :| Enabled(run[i], e) && run[i + 1] == Apply(run[i], e);
  }

  // ---------------------------------------------------------------- every reachable state

  /** When the socket counts as closed. */
  predicate Ended(core: Core) {
    core.shut || (core.admissionStopped && core.conns == map[])
  }

  ghost predicate FlagsSound(s: State) {
    && (s.core.closed <==> Ended(s.core))
    && s.core.doneCloses == (if s.core.closed then 1 else 0)
    && s.core.admissionCloses == (if s.core.shut || s.core.admissionStopped then 1 else 0)
    && (s.core.shut ==> s.core.conns == map[])
    && (s.core.admissionStopped ==> !s.accept.Accepting? && !s.accept.Stopping?)
    && (!s.accept.Accepting? && !s.accept.Stopping? ==> s.core.closed || s.core.admissionStopped)
  }

  /** What is registered is read; what is active is registered, and conversely while its reader reads. */
  ghost predicate RegistrySound(s: State) {
    && (forall k :: k in s.core.conns ==>
          var p := s.core.conns[k];
          p in s.entries && s.entries[p].key == k && !s.entries[p].reader.Gone?)
    && (forall p :: p in s.entries && s.entries[p].active ==>
          s.entries[p].key in s.core.conns && s.core.conns[s.entries[p].key] == p)
    && (forall k :: k in s.core.conns && s.entries[s.core.conns[k]].reader.Reading? ==>
          s.entries[s.core.conns[k]].active)
    && (forall p :: p in s.entries && (s.entries[p].reader.Deactivated? || s.entries[p].reader.Gone?) ==>
          !s.entries[p].active)
  }

  /** With unique peers no two paths ever share a name. */
  ghost predicate PeersSound(s: State) {
    s.uniquePeers ==>
      && (forall p :: p in s.entries ==> s.entries[p].key.Unique? && s.entries[p].key.number <= s.core.nextPeer)
      && (forall p, q :: p in s.entries && q in s.entries && s.entries[p].key == s.entries[q].key ==> p == q)
  }

  function ReadingIn(entries: map<Path, Entry>): (r: set<Path>) {
    set p | p in entries && entries[p].reader.Reading?
  }

  ghost predicate ReadersSound(s: State) {
    && s.core.readers == |ReadingIn(s.entries)|
    && (s.accept.ClosingInner? || s.accept.Finished? ==> s.core.readers == 0)
    && s.innerCloses <= 1
    && (s.accept.Finished? ==> s.innerCloses == 1)
    && (forall t :: t in s.closers && s.closers[t].CloseReturned? ==> s.accept.Finished?)
    && (forall t :: t in s.closers && !s.closers[t].CloseHead? ==> s.core.shut)
  }

  ghost predicate Inv(s: State) {
    FlagsSound(s) && RegistrySound(s) && PeersSound(s) && ReadersSound(s)
  }

  lemma {:induction false} EventKeepsFlags(s: State, e: Event)
    requires Inv(s) && Enabled(s, e)
    ensures FlagsSound(Apply(s, e))
  {
  }

  lemma {:induction false} AcceptKeepsRegistry(s: State, address: string, path: Path)
    requires Inv(s) && Enabled(s, AcceptPath(address, path))
    ensures RegistrySound(Accepts(s, address, path))
  {
    hide FlagsSound, PeersSound, ReadersSound;
  }

  lemma {:induction false} ShutdownKeepsRegistry(s: State, t: Thread)
    requires Inv(s) && Enabled(s, RunShutdown(t))
    ensures RegistrySound(Apply(s, RunShutdown(t)))
  {
    hide PeersSound, ReadersSound;
    forall p | p in s.entries && s.entries[p].active
      ensures p in s.core.conns.Values
    {
      assert s.core.conns[s.entries[p].key] == p;
    }
  }

  lemma {:induction false} LeaveKeepsRegistry(s: State, p: Path)
    requires Inv(s) && Enabled(s, ReaderLeaves(p))
    ensures RegistrySound(Apply(s, ReaderLeaves(p)))
  {
    hide PeersSound, ReadersSound;
  }

  lemma {:induction false} EventKeepsRegistry(s: State, e: Event)
    requires Inv(s) && Enabled(s, e)
    ensures RegistrySound(Apply(s, e))
  {
    hide FlagsSound, PeersSound, ReadersSound, Accepts, Leave, Shutdown, Deactivate;
    match e
    case AcceptPath(address, path) => hide RegistrySound; AcceptKeepsRegistry(s, address, path);
    case RunShutdown(t) => hide RegistrySound; ShutdownKeepsRegistry(s, t);
    case ReaderLeaves(p) => hide RegistrySound; LeaveKeepsRegistry(s, p);
    case ReaderStops(p) => hide RegistrySound; ReaderKeepsRegistry(s, e);
    case ReaderDeactivates(p) => hide RegistrySound; ReaderKeepsRegistry(s, e);
    case _ => hide RegistrySound; SameRegistry(s, Apply(s, e));
  }

  lemma {:induction false} ReaderKeepsRegistry(s: State, e: Event)
    requires RegistrySound(s) && Enabled(s, e) && (e.ReaderStops? || e.ReaderDeactivates?)
    ensures RegistrySound(Apply(s, e))
  {
  }

  /** RegistrySound is about the registry and the entries alone. */
  lemma {:induction false} SameRegistry(s: State, r: State)
    requires RegistrySound(s) && r.core.conns == s.core.conns && r.entries == s.entries
    ensures RegistrySound(r)
  {
  }

  lemma {:induction false} AcceptKeepsPeers(s: State, address: string, path: Path)
    requires PeersSound(s) && path !in s.entries
    ensures PeersSound(Accepts(s, address, path))
  {
    hide Replaced;
  }

  lemma {:induction false} EventKeepsPeers(s: State, e: Event)
    requires Inv(s) && Enabled(s, e)
    ensures PeersSound(Apply(s, e))
  {
    hide FlagsSound, RegistrySound, ReadersSound, Accepts;
    match e
    case AcceptPath(address, path) => hide PeersSound; AcceptKeepsPeers(s, address, path);
    case _ =>
  }

  /** Deactivating paths stops no reader. */
  lemma {:induction false} DeactivatedStillRead(entries: map<Path, Entry>, which: set<Path>)
    ensures ReadingIn(Deactivate(entries, which)) == ReadingIn(entries)
  {
  }

  lemma {:induction false} ReadingAfter(entries: map<Path, Entry>, p: Path, entry: Entry)
    ensures |ReadingIn(entries[p := entry])| ==
              |ReadingIn(entries)| + (if entry.reader.Reading? then 1 else 0)
              - (if p in entries && entries[p].reader.Reading? then 1 else 0)
  {
    assert ReadingIn(entries) - {p} == ReadingIn(entries[p := entry]) - {p};
    WithAndWithout(ReadingIn(entries), ReadingIn(entries[p := entry]), p);
  }

  lemma {:induction false} EventKeepsReaders(s: State, e: Event)
    requires Inv(s) && Enabled(s, e)
    ensures ReadersSound(Apply(s, e))
  {
    hide RegistrySound, PeersSound, ReadingIn, Deactivate;
    match e
    case AcceptPath(address, path) =>
      var kept := Deactivate(s.entries, Replaced(s, address));
      DeactivatedStillRead(s.entries, Replaced(s, address));
      ReadingAfter(kept, path, Entry(NameFor(s.core, s.uniquePeers, address), true, Reading));
      assert path !in kept by {
        DeactivateKeys(s.entries, Replaced(s, address));
      }
    case ReaderStops(p) => ReadingAfter(s.entries, p, s.entries[p].(reader := Left));
    case ReaderDeactivates(p) => ReadingAfter(s.entries, p, s.entries[p].(active := false, reader := Deactivated));
    case ReaderLeaves(p) => ReadingAfter(s.entries, p, s.entries[p].(reader := Gone));
    case RunShutdown(t) => DeactivatedStillRead(s.entries, s.core.conns.Values);
    case _ =>
  }

  lemma {:induction false} DeactivateKeys(entries: map<Path, Entry>, which: set<Path>)
    ensures Deactivate(entries, which).Keys == entries.Keys
  {
  }

  lemma {:induction false} InitialInv(s: State)
    requires Initial(s)
    ensures Inv(s)
  {
    assert ReadingIn(s.entries) == {};
  }

  lemma {:induction false} RunKeepsInv(run: seq<State>, i: nat)
    requires IsRun(run) && i < |run|
    ensures Inv(run[i])
  {
    hide Enabled, Apply, FlagsSound, RegistrySound, PeersSound, ReadersSound;
    if i == 0 {
      InitialInv(run[0]);
    } else {
      RunKeepsInv(run, i - 1);
      var e := StepOf(run, i - 1);
      EventKeepsFlags(run[i - 1], e);
      EventKeepsRegistry(run[i - 1], e);
      EventKeepsPeers(run[i - 1], e);
      EventKeepsReaders(run[i - 1], e);
    }
  }

  // ---------------------------------------------------------------- the guarantees

  /** `done` is closed, once, exactly when shutdown was started or admission has stopped with no path registered;
      `admissionDone` exactly when shutdown was started or admission has stopped. */
  lemma {:induction false} DoneExactlyWhenEnded(run: seq<State>, i: nat)
    requires IsRun(run) && i < |run|
    ensures var core := run[i].core;
            && core.doneCloses <= 1 && core.admissionCloses <= 1
            && (core.doneCloses == 1 <==> core.shut || (core.admissionStopped && core.conns == map[]))
            && (core.doneCloses == 1 <==> core.closed)
            && (core.admissionCloses == 1 <==> core.shut || core.admissionStopped)
  {
    RunKeepsInv(run, i);
  }

  predicate RegisteredAs(s: State, key: Key, path: Path) {
    key in s.core.conns && s.core.conns[key] == path
  }

  /** One step: a registered path leaves only by its own reader, by a path accepted under its name, or by shutdown. */
  lemma {:induction false} StepKeepsPath(s: State, e: Event, key: Key, path: Path)
    requires Enabled(s, e) && RegistrySound(s) && RegisteredAs(s, key, path)
    ensures var r := Apply(s, e);
            || RegisteredAs(r, key, path)
            || e == ReaderLeaves(path)
            || (e.AcceptPath? && e.path in r.entries && e.path !in s.entries && r.entries[e.path].key == key)
            || r.core.shut
  {
  }

  /** What never goes back: entries keep their names, readers that are gone stay gone, and so does shutdown. */
  ghost predicate Later(s: State, r: State) {
    && (forall p :: p in s.entries ==> p in r.entries && r.entries[p].key == s.entries[p].key)
    && (forall p :: p in s.entries && s.entries[p].reader.Gone? ==> r.entries[p].reader.Gone?)
    && (s.core.shut ==> r.core.shut)
  }

  lemma {:induction false} EventIsLater(s: State, e: Event)
    requires Enabled(s, e)
    ensures Later(s, Apply(s, e))
    ensures e.ReaderLeaves? ==> e.path in Apply(s, e).entries && Apply(s, e).entries[e.path].reader.Gone?
  {
  }

  lemma {:induction false} RunIsLater(run: seq<State>, i: nat, j: nat)
    requires IsRun(run) && i <= j < |run|
    ensures Later(run[i], run[j])
  {
    hide IsRun, Enabled, Apply;
    if i < j {
      RunIsLater(run, i, j - 1);
      var e := StepOf(run, j - 1);
      EventIsLater(run[j - 1], e);
    }
  }

  /** A path stays registered as long as its reader is not gone, nothing was accepted under its name and shutdown has
      not begun. In particular the reader of a replaced path never removes its replacement, however late it runs. */
  lemma {:induction false} PathsStayRegistered(run: seq<State>, i: nat, j: nat, key: Key, path: Path)
    requires IsRun(run) && i <= j < |run| && RegisteredAs(run[i], key, path)
    requires path in run[j].entries && !run[j].entries[path].reader.Gone?
    requires forall q :: q in run[j].entries && run[j].entries[q].key == key ==> q in run[i].entries
    requires !run[j].core.shut
    ensures RegisteredAs(run[j], key, path)
  {
    hide IsRun, Enabled, Apply, RegistrySound, FlagsSound, PeersSound, ReadersSound, RegisteredAs;
    if i < j {
      RunKeepsInv(run, i);
      PathHasEntry(run[i], key, path);
      RunIsLater(run, i, j - 1);
      RunIsLater(run, j - 1, j);
      PathsStayRegistered(run, i, j - 1, key, path);
      RunKeepsInv(run, j - 1);
      var e := StepOf(run, j - 1);
      EventIsLater(run[j - 1], e);
      StepKeepsPath(run[j - 1], e, key, path);
    }
  }

  lemma {:induction false} PathHasEntry(s: State, key: Key, path: Path)
    requires RegistrySound(s) && RegisteredAs(s, key, path)
    ensures path in s.entries && s.entries[path].key == key
  {
  }

  /** A path that packets may be taken from is registered under its own name, and every registered path still has
      its reader. */
  lemma {:induction false} ActivePathsAreRegistered(run: seq<State>, i: nat, p: Path)
    requires IsRun(run) && i < |run| && p in run[i].entries
    ensures var s := run[i];
            var registered := s.entries[p].key in s.core.conns && s.core.conns[s.entries[p].key] == p;
            && (s.entries[p].active ==> registered && !s.core.shut)
            && (registered ==> !s.entries[p].reader.Gone?)
            && (s.entries[p].reader.Reading? ==> (registered <==> s.entries[p].active))
  {
    RunKeepsInv(run, i);
  }

  /** With unique peers, accepting a path never replaces another. */
  lemma {:induction false} UniquePeersNeverReplace(run: seq<State>, i: nat, address: string, path: Path)
    requires IsRun(run) && i < |run| && Enabled(run[i], AcceptPath(address, path))
    requires run[i].uniquePeers
    ensures Replaced(run[i], address) == {}
    ensures forall k :: k in run[i].core.conns ==>
              k in Apply(run[i], AcceptPath(address, path)).core.conns &&
              Apply(run[i], AcceptPath(address, path)).core.conns[k] == run[i].core.conns[k]
  {
    hide IsRun;
    RunKeepsInv(run, i);
  }

  /** When Close returns, shutdown has begun, the listener was closed once and no reader is reading. */
  lemma {:induction false} CloseWaitsForReaders(run: seq<State>, i: nat, t: Thread)
    requires IsRun(run) && i < |run| && t in run[i].closers && run[i].closers[t].CloseReturned?
    ensures var s := run[i];
            && s.core.shut && s.innerCloses == 1
            && forall p :: p in s.entries ==> !s.entries[p].reader.Reading?
  {
    RunKeepsInv(run, i);
    assert ReadingIn(run[i].entries) == {};
    assert forall p :: p in run[i].entries && run[i].entries[p].reader.Reading? ==> p in ReadingIn(run[i].entries);
  }

  /** After shutdown nothing is registered. */
  lemma {:induction false} ShutStep(s: State, e: Event)
    requires Inv(s) && Enabled(s, e) && s.core.shut
    ensures Apply(s, e).core.shut && Apply(s, e).core.conns == map[] && Apply(s, e).entries.Keys == s.entries.Keys
  {
    hide RegistrySound, PeersSound, ReadersSound;
  }

  /** Nothing is ever written into a registry that shutdown has set to nil, and no path is accepted any more. */
  lemma {:induction false} NilRegistryStaysEmpty(run: seq<State>, i: nat, j: nat)
    requires IsRun(run) && i <= j < |run| && run[i].core.shut
    ensures run[j].core.shut && run[j].core.conns == map[] && run[j].entries.Keys == run[i].entries.Keys
  {
    hide IsRun, Enabled, Apply, RegistrySound, PeersSound, ReadersSound;
    if i == j {
      RunKeepsInv(run, i);
    } else {
      NilRegistryStaysEmpty(run, i, j - 1);
      RunKeepsInv(run, j - 1);
      var e := StepOf(run, j - 1);
      ShutStep(run[j - 1], e);
    }
  }

  // ---------------------------------------------------------------- the class

  /** The run went on by one event. */
  ghost predicate WentOn(before: seq<State>, after: seq<State>, e: Event) {
    before != [] && Enabled(Last(before), e) && after == before + [Apply(Last(before), e)]
  }

  lemma {:induction false} RunGrows(run: seq<State>, e: Event)
    requires IsRun(run) && Enabled(Last(run), e)
    ensures IsRun(run + [Apply(Last(run), e)])
  {
    hide Enabled, Apply, Initial;
    var more := run + [Apply(Last(run), e)];
    forall i | 0 <= i < |more| - 1
      ensures Next(more[i], more[i + 1])
    {
      if i < |run| - 1 {
        assert Next(run[i], run[i + 1]);
      }
    }
  }

  /** packetListenerWrapper's guarded fields. Each method is one mutex-held region; `run` records every state there was
      and `Valid` says that it is a run of the machine, so that every guarantee above holds of these fields. */
  class Wrapper {
    const uniquePeers: bool
    var closed: bool
    var admissionStopped: bool
    var shut: bool
    var conns: map<Key, Path>
    var nextPeer: nat
    var readers: int
    var doneCloses: nat
    var admissionCloses: nat
    ghost var run: seq<State>

    constructor (uniquePeers: bool)
      ensures Valid() && this.uniquePeers == uniquePeers && Last(run).accept == Accepting && Last(run).entries == map[]
    {
      this.uniquePeers := uniquePeers;
      closed, admissionStopped, shut, conns := false, false, false, map[];
      nextPeer, readers, doneCloses, admissionCloses := 0, 0, 0, 0;
      run := [State(uniquePeers, Core(false, false, false, map[], 0, 0, 0, 0), Accepting, map[], map[], 0)];
    }

    function View(): (core: Core)
      reads this
    {
      Core(closed, admissionStopped, shut, conns, nextPeer, readers, doneCloses, admissionCloses)
    }

    ghost predicate Valid()
      reads this
    {
      run != [] && IsRun(run) && Last(run).core == View() && Last(run).uniquePeers == uniquePeers
    }

    /** Everything that does not touch the guarded fields. */
    ghost method Elsewhere(e: Event)
      requires Valid() && Enabled(Last(run), e) && Apply(Last(run), e).core == View()
      modifies this`run
      ensures Valid() && WentOn(old(run), run, e)
    {
      RunGrows(run, e);
      run := run + [Apply(Last(run), e)];
    }

    /** doneOnce.Do and admissionOnce.Do. */
    method CloseDoneOnce()
      modifies this`doneCloses
      ensures View() == CloseDone(old(View()))
    {
      if doneCloses == 0 {
        doneCloses := 1;
      }
    }

    method CloseAdmissionOnce()
      modifies this`admissionCloses
      ensures View() == CloseAdmission(old(View()))
    {
      if admissionCloses == 0 {
        admissionCloses := 1;
      }
    }

    /** The accept loop registers a path, which is then the active one of its name, unless the socket has ended; the
        path it replaces, if any, is not active any more. */
    method Register(address: string, path: Path) returns (ok: bool, previous: Option<Path>)
      requires Valid() && Enabled(Last(run), AcceptPath(address, path))
      modifies this
      ensures Valid() && WentOn(old(run), run, AcceptPath(address, path))
      ensures ok <==> !Ended(old(View()))
      ensures ok ==>
                && path in Last(run).entries && Last(run).entries[path].active
                && RegisteredAs(Last(run), Last(run).entries[path].key, path)
      ensures previous.Some? ==> previous.value in Last(run).entries && !Last(run).entries[previous.value].active
      ensures uniquePeers ==> previous.None?
      ensures !ok ==> View() == old(View())
    {
      hide IsRun, Inv;
      RunKeepsInv(run, |run| - 1);
      AcceptFacts(Last(run), address, path);
      RunGrows(run, AcceptPath(address, path));
      run := run + [Apply(Last(run), AcceptPath(address, path))];
      if closed {
        return false, None;
      }
      var key := Address(address);
      if uniquePeers {
        nextPeer := nextPeer + 1;
        key := Unique(nextPeer);
      }
      ok, previous := true, if key in conns then Some(conns[key]) else None;
      conns := conns[key := path];
      readers := readers + 1;
    }

    /** A reader that ended takes out its own path and no other. If it was the last one after admission stopped, the
        socket ends with it. */
    method Unregister(key: Key, path: Path)
      requires Valid() && Enabled(Last(run), ReaderLeaves(path)) && key == Last(run).entries[path].key
      modifies this
      ensures Valid() && WentOn(old(run), run, ReaderLeaves(path))
      ensures forall k :: k in old(conns) && old(conns)[k] != path ==> k in conns
      ensures forall k :: k in conns ==> k in old(conns) && conns[k] == old(conns)[k] != path
      ensures closed <==> Ended(View())
    {
      hide IsRun, Inv;
      RunKeepsInv(run, |run| - 1);
      LeaveFacts(Last(run), path);
      RunGrows(run, ReaderLeaves(path));
      run := run + [Apply(Last(run), ReaderLeaves(path))];
      if closed {
        return;
      }
      if key in conns && conns[key] == path {
        conns := conns - {key};
      }
      if admissionStopped && conns == map[] {
        closed := true;
        CloseDoneOnce();
      }
    }

    /** readers.Done: the count remains that of the readers that read. */
    method ReaderDone(ghost path: Path)
      requires Valid() && Enabled(Last(run), ReaderStops(path))
      modifies this
      ensures Valid() && WentOn(old(run), run, ReaderStops(path))
      ensures readers == |ReadingIn(Last(run).entries)|
    {
      hide IsRun, FlagsSound, RegistrySound, PeersSound, ReadingIn;
      RunGrows(run, ReaderStops(path));
      RunKeepsInv(run + [Apply(Last(run), ReaderStops(path))], |run|);
      run := run + [Apply(Last(run), ReaderStops(path))];
      readers := readers - 1;
    }

    /** No path is admitted any more; those that are registered stay, and without any the socket ends. */
    method StopAdmitting()
      requires Valid() && Enabled(Last(run), RunStop)
      modifies this
      ensures Valid() && WentOn(old(run), run, RunStop)
      ensures conns == old(conns) && (closed <==> old(closed) || conns == map[])
      ensures closed <==> doneCloses == 1
      ensures admissionCloses == 1 && !Last(run).accept.Accepting?
    {
      hide IsRun, Inv;
      RunKeepsInv(run, |run| - 1);
      FlagFacts(Last(run));
      RunGrows(run, RunStop);
      run := run + [Apply(Last(run), RunStop)];
      if closed {
        return;
      }
      admissionStopped := true;
      CloseAdmissionOnce();
      if conns == map[] {
        closed := true;
        CloseDoneOnce();
      }
    }

    /** The first call hands back all registered paths, and no path is active from then on; `done` and `admissionDone`
        have been closed, once, whoever came first. */
    method InitiateShutdown(ghost t: Thread) returns (paths: set<Path>)
      requires Valid() && Enabled(Last(run), RunShutdown(t))
      modifies this
      ensures Valid() && WentOn(old(run), run, RunShutdown(t))
      ensures paths == old(conns).Values
      ensures shut && closed && conns == map[] && doneCloses == 1 && admissionCloses == 1
      ensures forall p :: p in Last(run).entries ==> !Last(run).entries[p].active
    {
      hide IsRun, Inv;
      ghost var after := Apply(Last(run), RunShutdown(t));
      RunKeepsInv(run, |run| - 1);
      FlagFacts(Last(run));
      RunGrows(run, RunShutdown(t));
      RunKeepsInv(run + [after], |run|);
      NoneActive(after);
      run := run + [after];
      if shut {
        return {};
      }
      shut := true;
      closed := true;
      CloseAdmissionOnce();
      paths := conns.Values;
      conns := map[];
      CloseDoneOnce();
    }
  }

  lemma {:induction false} AcceptFacts(s: State, address: string, path: Path)
    requires Inv(s) && Enabled(s, AcceptPath(address, path))
    ensures s.core.closed <==> Ended(s.core)
    ensures var r := Apply(s, AcceptPath(address, path));
            var key := NameFor(s.core, s.uniquePeers, address);
            !s.core.closed ==>
              && path in r.entries && r.entries[path] == Entry(key, true, Reading) && RegisteredAs(r, key, path)
              && (key in s.core.conns ==> s.core.conns[key] in r.entries && !r.entries[s.core.conns[key]].active)
              && (s.uniquePeers ==> key !in s.core.conns)
  {
  }

  lemma {:induction false} LeaveFacts(s: State, path: Path)
    requires Inv(s) && Enabled(s, ReaderLeaves(path))
    ensures forall k :: k in s.core.conns && s.core.conns[k] == path ==> k == s.entries[path].key
    ensures s.core.closed <==> Ended(s.core)
    ensures s.core.closed ==> s.core.conns == map[]
  {
  }

  lemma {:induction false} FlagFacts(s: State)
    requires Inv(s)
    ensures s.core.closed <==> Ended(s.core)
    ensures s.core.doneCloses == (if s.core.closed then 1 else 0)
    ensures s.core.admissionCloses == (if s.core.shut || s.core.admissionStopped then 1 else 0)
    ensures s.core.closed ==> s.core.conns == map[]
  {
  }

  lemma {:induction false} NoneActive(s: State)
    requires Inv(s) && s.core.shut
    ensures forall p :: p in s.entries ==> !s.entries[p].active
  {
  }

  /** The reader of a path ends. */
  method EndReader(wrapper: Wrapper, key: Key, path: Path)
    requires wrapper.Valid() && path in Last(wrapper.run).entries
               && Last(wrapper.run).entries[path] == Entry(key, true, Reading)
    modifies wrapper
    ensures wrapper.Valid() && wrapper.shut == old(wrapper.shut)
              && wrapper.admissionStopped == old(wrapper.admissionStopped)
    ensures forall k :: k in wrapper.conns ==>
              k in old(wrapper.conns) && wrapper.conns[k] == old(wrapper.conns)[k] != path
    ensures wrapper.closed <==> Ended(wrapper.View())
  {
    hide IsRun, Inv;
    wrapper.ReaderDone(path);
    wrapper.Elsewhere(ReaderDeactivates(path));
    wrapper.Unregister(key, path);
  }

  /** The socket outlives its listener: with a path registered, the end of admission does not close it, and the end of
      that path's reader does. */
  method LastPathEndsSocket(wrapper: Wrapper, address: string, path: Path) returns (key: Key)
    requires wrapper.Valid() && Enabled(Last(wrapper.run), AcceptPath(address, path))
    requires !wrapper.closed && wrapper.conns == map[]
    modifies wrapper
    ensures wrapper.Valid() && wrapper.closed && !wrapper.shut && wrapper.conns == map[] && wrapper.doneCloses == 1
  {
    hide IsRun, Inv;
    var ok, previous := wrapper.Register(address, path);
    key := if wrapper.uniquePeers then Unique(wrapper.nextPeer) else Address(address);
    wrapper.Elsewhere(AcceptFails);
    wrapper.StopAdmitting();
    assert !wrapper.closed;
    EndReader(wrapper, key, path);
    DoneExactlyWhenEnded(wrapper.run, |wrapper.run| - 1);
  }
}
