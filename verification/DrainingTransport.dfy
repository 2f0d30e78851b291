/**
 The reference-counted transport that outlives its control channel (drainingProxyTransport in client.go). A thread is
 a call of Dial together with the life of the connection it returned, or a call of Detach or Close.
 */
module DrainingTransport {
  import opened Content
  import opened Runs
  import opened Sets

  type Thread = nat

  /** The guarded fields, and the sync.Once around closing the underlying transport: whether it has run, and how
      often its body closed the transport. */
  datatype Core = Core(active: int, detached: bool, closed: bool, once: bool, closes: nat)

  // ---------------------------------------------------------------- the regions

  predicate Refuses(core: Core) {
    core.detached || core.closed
  }

  function Admit(core: Core): (r: Core) {
    if Refuses(core) then core else core.(active := core.active + 1)
  }

  function Release(core: Core): (r: Core) {
    if core.active > 0 then core.(active := core.active - 1) else core
  }

  function Detached(core: Core): (r: Core) {
    core.(detached := true)
  }

  function Shut(core: Core): (r: Core) {
    core.(closed := true, detached := true)
  }

  function CloseOnce(core: Core): (r: Core) {
    if core.once then core else core.(once := true, closes := core.closes + 1)
  }

  // ---------------------------------------------------------------- the state machine

  datatype Pc =
    | DialHead
    | InFlight
    | Back
    | GivesUp
    | Open
    | Releasing
    | DetachHead
    | CloseHead
    | Finishing
    | Over

  datatype State = State(core: Core, threads: map<Thread, Pc>)

  ghost predicate Initial(s: State) {
    s == State(Core(0, false, false, false, 0), map[])
  }

  datatype Step = Enter | DialFails | DialWorks | Recheck | CloseConn | Drop | Finish | RunDetach | RunClose

  datatype Event =
    | CallDial(thread: Thread)
    | CallDetach(thread: Thread)
    | CallClose(thread: Thread)
    | Acts(thread: Thread, step: Step)

  predicate CanStep(pc: Pc, step: Step) {
    match step
    case Enter => pc.DialHead?
    case DialFails => pc.InFlight?
    case DialWorks => pc.InFlight?
    case Recheck => pc.Back?
    case CloseConn => pc.Open?
    case Drop => pc.GivesUp? || pc.Releasing?
    case Finish => pc.Finishing?
    case RunDetach => pc.DetachHead?
    case RunClose => pc.CloseHead?
  }

  predicate Enabled(s: State, e: Event) {
    match e
    case Acts(t, step) => t in s.threads && CanStep(s.threads[t], step)
    case _ => e.thread !in s.threads
  }

  function Take(core: Core, step: Step): (r: (Core, Pc)) {
    match step
    case Enter => (Admit(core), if Refuses(core) then Over else InFlight)
    case DialFails => (core, GivesUp)
    case DialWorks => (core, Back)
    case Recheck => (core, if Refuses(core) then GivesUp else Open)
    case CloseConn => (core, Releasing)
    case Drop => (Release(core), if core.detached && Release(core).active == 0 then Finishing else Over)
    case Finish => (CloseOnce(core), Over)
    case RunDetach => (Detached(core), if core.active == 0 then Finishing else Over)
    case RunClose => (Shut(core), Finishing)
  }

  function Apply(s: State, e: Event): (r: State)
    requires Enabled(s, e)
  {
    match e
    case CallDial(t) => s.(threads := s.threads[t := DialHead])
    case CallDetach(t) => s.(threads := s.threads[t := DetachHead])
    case CallClose(t) => s.(threads := s.threads[t := CloseHead])
    case Acts(t, step) =>
      var (core, pc) := Take(s.core, step);
      State(core, s.threads[t := pc])
  }

  ghost predicate Next(s: State, r: State) {
    exists e :: Enabled(s, e) && r == Apply(s, e)
  }

  ghost predicate IsRun(run: seq<State>) {
    && run != [] && Initial(run[0])
    && forall i :: 0 <= i < |run| - 1 ==> Next(run[i], run[i + 1])
  }

  lemma {:induction false} StepOf(run: seq<State>, i: nat) returns (e: Event)
    requires IsRun(run) && i + 1 < |run|
    ensures Enabled(run[i], e) && run[i + 1] == Apply(run[i], e)
  {
    hide Enabled, Apply;
    assert Next(run[i], run[i + 1]);
    e :| Enabled(run[i], e) && run[i + 1] == Apply(run[i], e);
  }

  // ---------------------------------------------------------------- every reachable state

  /** A dial in flight, or a connection that was not released. */
  predicate HoldsRef(pc: Pc) {
    pc.InFlight? || pc.Back? || pc.GivesUp? || pc.Open? || pc.Releasing?
  }

  function Refs(threads: map<Thread, Pc>): (s: set<Thread>) {
    set t | t in threads && HoldsRef(threads[t])
  }

  ghost predicate SomebodyFinishes(threads: map<Thread, Pc>) {
    exists t :: t in threads && threads[t].Finishing?
  }

  /** Whoever is about to close the transport, or did, had a reason: an explicit Close, or nothing left to drain.
      And when there is a reason, somebody is about to close it or did. */
  ghost predicate Inv(s: State) {
    && s.core.active == |Refs(s.threads)|
    && s.core.closes == (if s.core.once then 1 else 0)
    && (s.core.closed ==> s.core.detached)
    && (s.core.once || SomebodyFinishes(s.threads) <==> (s.core.detached && s.core.active == 0) || s.core.closed)
  }

  lemma {:induction false} RefsAfter(threads: map<Thread, Pc>, t: Thread, pc: Pc)
    ensures |Refs(threads[t := pc])| ==
              |Refs(threads)| + (if HoldsRef(pc) then 1 else 0)
              - (if t in threads && HoldsRef(threads[t]) then 1 else 0)
  {
    hide HoldsRef;
    assert Refs(threads) - {t} == Refs(threads[t := pc]) - {t};
    WithAndWithout(Refs(threads), Refs(threads[t := pc]), t);
  }

  lemma {:induction false} FinishersAfter(threads: map<Thread, Pc>, t: Thread, pc: Pc)
    ensures pc.Finishing? ==> SomebodyFinishes(threads[t := pc])
    ensures !pc.Finishing? && !(t in threads && threads[t].Finishing?) ==>
              (SomebodyFinishes(threads[t := pc]) <==> SomebodyFinishes(threads))
  {
    var after := threads[t := pc];
    if pc.Finishing? {
      assert t in after && after[t].Finishing?;
    } else if !(t in threads && threads[t].Finishing?) {
      if SomebodyFinishes(threads) {
        var u :| u in threads && threads[u].Finishing?;
        assert u in after && after[u].Finishing?;
      }
      if SomebodyFinishes(after) {
        var u :| u in after && after[u].Finishing?;
        assert u in threads && threads[u].Finishing?;
      }
    }
  }

  /** A thread that holds a reference keeps the count above zero. */
  lemma {:induction false} RefCounts(s: State, t: Thread)
    requires Inv(s) && t in s.threads && HoldsRef(s.threads[t])
    ensures s.core.active > 0
  {
    assert t in Refs(s.threads);
  }

  lemma {:induction false} EventKeepsInv(s: State, e: Event)
    requires Inv(s) && Enabled(s, e)
    ensures Inv(Apply(s, e))
  {
    hide Refs, SomebodyFinishes;
    var t := e.thread;
    var r := Apply(s, e);
    RefsAfter(s.threads, t, r.threads[t]);
    FinishersAfter(s.threads, t, r.threads[t]);
    if t in s.threads && HoldsRef(s.threads[t]) {
      RefCounts(s, t);
    }
    if e.Acts? && e.step.Finish? {
      assert SomebodyFinishes(s.threads) by {
        FinisherIsThere(s.threads, t);
      }
    }
  }

  lemma {:induction false} FinisherIsThere(threads: map<Thread, Pc>, t: Thread)
    requires t in threads && threads[t].Finishing?
    ensures SomebodyFinishes(threads)
  {
  }

  lemma {:induction false} RunKeepsInv(run: seq<State>, i: nat)
    requires IsRun(run) && i < |run|
    ensures Inv(run[i])
  {
    hide Inv, Enabled, Apply;
    if i == 0 {
      InitialInv(run[0]);
    } else {
      RunKeepsInv(run, i - 1);
      var e := StepOf(run, i - 1);
      EventKeepsInv(run[i - 1], e);
    }
  }

  lemma {:induction false} InitialInv(s: State)
    requires Initial(s)
    ensures Inv(s)
  {
    assert Refs(s.threads) == {};
  }

  // ---------------------------------------------------------------- the guarantees

  /** `active` is the number of dials in flight and connections not released; the guard in release never fails. */
  lemma {:induction false} ActiveCountsReferences(run: seq<State>, i: nat)
    requires IsRun(run) && i < |run|
    ensures run[i].core.active == |Refs(run[i].threads)|
    ensures forall t :: t in run[i].threads && (run[i].threads[t].GivesUp? || run[i].threads[t].Releasing?) ==>
              run[i].core.active > 0
  {
    RunKeepsInv(run, i);
    forall t | t in run[i].threads && (run[i].threads[t].GivesUp? || run[i].threads[t].Releasing?)
      ensures run[i].core.active > 0
    {
      RefCounts(run[i], t);
    }
  }

  /** The underlying transport is closed at most once, and without an explicit Close only when it is detached and
      nothing is active. */
  lemma {:induction false} ClosedAtMostOnce(run: seq<State>, i: nat)
    requires IsRun(run) && i < |run|
    ensures run[i].core.closes <= 1
    ensures run[i].core.closes == 1 && !run[i].core.closed ==> run[i].core.detached && Refs(run[i].threads) == {}
  {
    RunKeepsInv(run, i);
  }

  /** Once nobody is about to close it, the transport has been closed exactly when there was a reason to: an
      explicit Close, or detachment with every reference released. */
  lemma {:induction false} LastReleaseCloses(run: seq<State>, i: nat)
    requires IsRun(run) && i < |run|
    requires forall t :: t in run[i].threads ==> !run[i].threads[t].Finishing?
    ensures run[i].core.closes == 1 <==> run[i].core.closed || (run[i].core.detached && Refs(run[i].threads) == {})
  {
    RunKeepsInv(run, i);
  }

  /** Nothing is dialed any more once the transport was detached: the set of references only shrinks. */
  lemma {:induction false} DetachedOnlyDrains(run: seq<State>, i: nat, j: nat)
    requires IsRun(run) && i <= j < |run| && run[i].core.detached
    ensures run[j].core.detached && Refs(run[j].threads) <= Refs(run[i].threads)
  {
    hide IsRun, Enabled, Apply, Refs;
    if i < j {
      DetachedOnlyDrains(run, i, j - 1);
      var e := StepOf(run, j - 1);
      DetachedDrains(run[j - 1], e);
    }
  }

  lemma {:induction false} DetachedDrains(s: State, e: Event)
    requires Enabled(s, e) && s.core.detached
    ensures Apply(s, e).core.detached && Refs(Apply(s, e).threads) <= Refs(s.threads)
  {
  }

  // ---------------------------------------------------------------- the class

  /** The run went on by one event. */
  ghost predicate WentOn(before: seq<State>, after: seq<State>, e: Event) {
    before != [] && Enabled(Last(before), e) && after == before + [Apply(Last(before), e)]
  }

  lemma {:induction false} RunGrows(run: seq<State>, e: Event)
    requires IsRun(run) && Enabled(Last(run), e)
    ensures IsRun(run + [Apply(Last(run), e)])
  {
    hide Enabled, Apply, Initial;
    var more := run + [Apply(Last(run), e)];
    forall i | 0 <= i < |more| - 1
      ensures Next(more[i], more[i + 1])
    {
      if i < |run| - 1 {
        assert Next(run[i], run[i + 1]);
      }
    }
  }

  /** The fields of drainingProxyTransport. The methods are run by the thread `t` that stands before them; `run` records
      every state there was and `Valid` says that it is a run of the machine, so that every guarantee above holds of
      these fields. */
  class Draining {
    var active: int
    var detached: bool
    var closed: bool
    var once: bool
    var closes: nat
    ghost var run: seq<State>

    constructor ()
      ensures Valid() && Last(run).threads == map[]
    {
      active, detached, closed, once, closes := 0, false, false, false, 0;
      run := [State(Core(0, false, false, false, 0), map[])];
    }

    function View(): (core: Core)
      reads this
    {
      Core(active, detached, closed, once, closes)
    }

    ghost predicate Valid()
      reads this
    {
      run != [] && IsRun(run) && Last(run).core == View()
    }

    /** Who holds a reference. */
    ghost function Holders(): (s: set<Thread>)
      requires run != []
      reads this
    {
      Refs(Last(run).threads)
    }

    /** One event of the machine, together with what it does to the fields. */
    ghost method Advance(e: Event)
      requires run != [] && IsRun(run) && Enabled(Last(run), e)
      modifies this`run
      ensures WentOn(old(run), run, e) && IsRun(run)
    {
      RunGrows(run, e);
      run := run + [Apply(Last(run), e)];
    }

    /** A dial is admitted, and then holds a reference, exactly before the transport is detached or closed. */
    method BeginDial(ghost t: Thread) returns (admitted: bool)
      requires Valid() && Enabled(Last(run), Acts(t, Enter))
      modifies this
      ensures Valid() && WentOn(old(run), run, Acts(t, Enter))
      ensures Holders() == old(Holders()) + if admitted then {t} else {}
      ensures admitted <==> !detached && !closed
      ensures active == |Holders()|
    {
      hide IsRun, Inv, Refs, Apply, Enabled;
      EnterFacts(Last(run), t);
      RefsOf(Last(run).threads, t, Over);
      RefsOf(Last(run).threads, t, InFlight);
      Advance(Acts(t, Enter));
      RunKeepsInv(run, |run| - 1);
      InvCounts(Last(run));
      if detached || closed {
        return false;
      }
      active := active + 1;
      return true;
    }

    /** closeUnderlying, by a thread that has a reason for it: the transport has been closed, once. */
    method CloseUnderlying(ghost t: Thread)
      requires Valid() && Enabled(Last(run), Acts(t, Finish))
      modifies this
      ensures Valid() && WentOn(old(run), run, Acts(t, Finish))
      ensures closes == 1 && (closed || (detached && Holders() == {}))
      ensures View() == CloseOnce(old(View())) && Holders() == old(Holders())
    {
      hide IsRun, Inv, Refs;
      RefsOf(Last(run).threads, t, Over);
      Advance(Acts(t, Finish));
      RunKeepsInv(run, |run| - 1);
      InvCounts(Last(run));
      if !once {
        once := true;
        closes := closes + 1;
      }
    }

    /** release: the thread gives its reference up, and the last one of a detached transport closes it. */
    method ReleaseRef(ghost t: Thread)
      requires Valid() && Enabled(Last(run), Acts(t, Drop))
      modifies this
      ensures Valid() && old(run) <= run && Holders() == old(Holders()) - {t} && active == |Holders()|
      ensures t in old(Holders()) && old(active) > 0
      ensures detached == old(detached) && (detached && Holders() == {} ==> closes == 1)
      ensures closes != old(closes) ==> detached && Holders() == {}
    {
      hide IsRun, Inv, Refs;
      RunKeepsInv(run, |run| - 1);
      RefCounts(Last(run), t);
      RefsOf(Last(run).threads, t, Over);
      RefsOf(Last(run).threads, t, Finishing);
      Advance(Acts(t, Drop));
      RunKeepsInv(run, |run| - 1);
      InvCounts(Last(run));
      if active > 0 {
        active := active - 1;
      }
      if detached && active == 0 {
        CloseUnderlying(t);
      }
    }

    /** Nothing new is admitted any more, and without a reference left the transport is closed. */
    method Detach(ghost t: Thread)
      requires Valid() && Enabled(Last(run), Acts(t, RunDetach))
      modifies this
      ensures Valid() && old(run) <= run && Holders() == old(Holders()) && detached
      ensures Holders() == {} ==> closes == 1
      ensures closes != old(closes) ==> Holders() == {}
    {
      hide IsRun, Inv, Refs;
      RefsOf(Last(run).threads, t, Over);
      RefsOf(Last(run).threads, t, Finishing);
      Advance(Acts(t, RunDetach));
      RunKeepsInv(run, |run| - 1);
      InvCounts(Last(run));
      detached := true;
      if active == 0 {
        CloseUnderlying(t);
      }
    }

    /** An explicit Close closes the transport at once, whoever still holds a reference. */
    method Close(ghost t: Thread)
      requires Valid() && Enabled(Last(run), Acts(t, RunClose))
      modifies this
      ensures Valid() && old(run) <= run && Holders() == old(Holders()) && closed && detached && closes == 1
    {
      hide IsRun, Inv, Refs;
      RefsOf(Last(run).threads, t, Finishing);
      Advance(Acts(t, RunClose));
      closed := true;
      detached := true;
      CloseUnderlying(t);
    }
  }

  lemma {:induction false} EnterFacts(s: State, t: Thread)
    requires Enabled(s, Acts(t, Enter))
    ensures t in s.threads && !HoldsRef(s.threads[t])
    ensures Apply(s, Acts(t, Enter)) == State(Admit(s.core), s.threads[t := if Refuses(s.core) then Over else InFlight])
  {
  }

  lemma {:induction false} RefsOf(threads: map<Thread, Pc>, t: Thread, pc: Pc)
    ensures Refs(threads[t := pc]) == if HoldsRef(pc) then Refs(threads) + {t} else Refs(threads) - {t}
    ensures t in Refs(threads) <==> t in threads && HoldsRef(threads[t])
  {
  }

  lemma {:induction false} InvCounts(s: State)
    requires Inv(s)
    ensures s.core.active == |Refs(s.threads)| && s.core.closes <= 1
    ensures s.core.closes == 1 <==> s.core.once
    ensures s.core.once ==> s.core.closed || (s.core.detached && Refs(s.threads) == {})
    ensures s.core.active == 0 <==> Refs(s.threads) == {}
  {
  }
}
