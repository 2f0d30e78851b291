/**
 The lock around control channel writes (contextMutex in client.go) and what it is for: any number of writers take a
 token from a channel, may be cancelled while they wait, write their frame piece by piece, fail, and put the token
 back. A thread is one call of writePbMessageContext.
 */
module ControlLock {
  import opened Content
  import opened Framing
  import opened Runs
  import opened Sets

  type Thread = nat
  type Msg = seq<byte>

  /** Where a writer stands: before the lock, waiting for the token, with the token and `count` bytes of its frame
      written, about to put it back, or back. `turn` says how many had the token before. */
  datatype Pc =
    | LockHead(msg: Msg)
    | Waits(msg: Msg)
    | Holds(msg: Msg, turn: nat, count: nat)
    | Unlocks
    | Returned

  /** A message whose write failed, the turn it was written in, and how much of its frame was written. */
  datatype Cut = Cut(msg: Msg, turn: nat, count: nat)

  /** `made` says that the channel exists, `tokens` how many tokens are in it, `grants` who took one, in order. `wire`
      is what the connection took, `err` the writer's sticky error. `sent` are the messages written in full, with the
      turns they were written in, and `cut` the one, if any, whose write failed. `owner` mirrors the program counter of
      the thread that has the token. */
  datatype State = State(
    made: bool,
    tokens: nat,
    grants: seq<Thread>,
    owner: Option<Thread>,
    threads: map<Thread, Pc>,
    wire: seq<byte>,
    err: bool,
    sent: seq<Msg>,
    turns: seq<nat>,
    cut: Option<Cut>
  )

  ghost predicate Initial(s: State) {
    s == State(false, 0, [], None, map[], [], false, [], [], None)
  }

  datatype Step =
    | Init
    | Acquire
    | WaitCancelled
    | CancelledEarly
    | WritePiece(n: nat)
    | WriteEnds
    | WriteFails
    | Unlock

  datatype Event = CallWrite(thread: Thread, msg: Msg) | Acts(thread: Thread, step: Step)

  predicate Fits(msg: Msg) {
    |msg| <= MAX_FRAMED_PACKET_SIZE
  }

  predicate CanStep(s: State, pc: Pc, step: Step) {
    match step
    case Init => pc.LockHead?
    case Acquire => pc.Waits? && s.tokens > 0
    case WaitCancelled => pc.Waits?
    case CancelledEarly => pc.Holds? && pc.count == 0
    case WritePiece(n) => pc.Holds? && !s.err && Fits(pc.msg) && n > 0 && pc.count + n <= |Frame(pc.msg)|
    case WriteEnds => pc.Holds? && !s.err && Fits(pc.msg) && pc.count == |Frame(pc.msg)|
    case WriteFails => pc.Holds?
    case Unlock => pc.Unlocks?
  }

  predicate Enabled(s: State, e: Event) {
    match e
    case CallWrite(t, _) => t !in s.threads
    case Acts(t, step) => t in s.threads && CanStep(s, s.threads[t], step)
  }

  function Goes(s: State, t: Thread, pc: Pc): (r: State) {
    s.(threads := s.threads[t := pc])
  }

  /** A write that fails leaves the sticky error behind, and what it had written; a message that is too long, or comes
      after an error, leaves nothing. */
  function Fails(s: State, pc: Pc): (r: State)
    requires pc.Holds?
  {
    if s.err || !Fits(pc.msg) then s else s.(err := true, cut := Some(Cut(pc.msg, pc.turn, pc.count)))
  }

  function Take(s: State, t: Thread, pc: Pc, step: Step): (r: State)
    requires CanStep(s, pc, step)
  {
    match step
    case Init => Goes(if s.made then s else s.(made := true, tokens := 1), t, Waits(pc.msg))
    case Acquire =>
      Goes(s.(tokens := s.tokens - 1, grants := s.grants + [t], owner := Some(t)), t, Holds(pc.msg, |s.grants|, 0))
    case WaitCancelled => Goes(s, t, Returned)
    case CancelledEarly => Goes(s, t, Unlocks)
    case WritePiece(n) =>
      Goes(s.(wire := s.wire + Frame(pc.msg)[pc.count..pc.count + n]), t, pc.(count := pc.count + n))
    case WriteEnds => Goes(s.(sent := s.sent + [pc.msg], turns := s.turns + [pc.turn]), t, Unlocks)
    case WriteFails => Goes(Fails(s, pc), t, Unlocks)
    case Unlock => Goes(s.(tokens := s.tokens + 1, owner := None), t, Returned)
  }

  function Apply(s: State, e: Event): (r: State)
    requires Enabled(s, e)
  {
    match e
    case CallWrite(t, msg) => Goes(s, t, LockHead(msg))
    case Acts(t, step) => Take(s, t, s.threads[t], step)
  }

  ghost predicate Next(s: State, r: State) {
    exists e :: Enabled(s, e) && r == Apply(s, e)
  }

  ghost predicate IsRun(run: seq<State>) {
    && run != [] && Initial(run[0])
    && forall i :: 0 <= i < |run| - 1 ==> Next(run[i], run[i + 1])
  }

  lemma {:induction false} StepOf(run: seq<State>, i: nat) returns (e: Event)
    requires IsRun(run) && i + 1 < |run|
    ensures Enabled(run[i], e) && run[i + 1] == Apply(run[i], e)
  {
    hide Enabled, Apply;
    assert Next(run[i], run[i + 1]);
    e :| Enabled(run[i], e) && run[i + 1] == Apply(run[i], e);
  }

  // ---------------------------------------------------------------- every reachable state

  predicate HasToken(pc: Pc) {
    pc.Holds? || pc.Unlocks?
  }

  function Holders(threads: map<Thread, Pc>): (s: set<Thread>) {
    set t | t in threads && HasToken(threads[t])
  }

  /** There is one token from the first Lock on: in the channel, or with the owner. */
  ghost predicate TokenSound(s: State) {
    && (!s.made ==> s.tokens == 0 && s.owner.None? && forall t :: t in s.threads ==> s.threads[t].LockHead?)
    && (s.made ==> s.tokens == if s.owner.None? then 1 else 0)
    && (forall t :: t in s.threads && HasToken(s.threads[t]) ==> s.owner == Some(t))
    && (s.owner.Some? ==> s.owner.value in s.threads && HasToken(s.threads[s.owner.value]))
  }

  /** The owner has the last turn, and messages were sent in the order of their turns. */
  ghost predicate TurnsSound(s: State) {
    && |s.turns| == |s.sent|
    && (forall i, j :: 0 <= i < j < |s.turns| ==> s.turns[i] < s.turns[j])
    && (forall i :: 0 <= i < |s.turns| ==> s.turns[i] < |s.grants|)
    && (forall t :: t in s.threads && s.threads[t].Holds? ==>
          && s.threads[t].turn == |s.grants| - 1 && s.grants[s.threads[t].turn] == t
          && forall i :: 0 <= i < |s.turns| ==> s.turns[i] < s.threads[t].turn)
  }

  /** A failed write comes after all that were sent. */
  ghost predicate CutSound(s: State) {
    && (s.err <==> s.cut.Some?)
    && (s.cut.Some? ==>
          s.cut.value.turn < |s.grants| && forall i :: 0 <= i < |s.turns| ==> s.turns[i] < s.cut.value.turn)
  }

  /** What the owner has written of its frame, or what a failed write left of its own. */
  function Partial(s: State): (bytes: seq<byte>)
    requires s.cut.Some? ==> Fits(s.cut.value.msg) && s.cut.value.count <= |Frame(s.cut.value.msg)|
  {
    if s.cut.Some? then Frame(s.cut.value.msg)[..s.cut.value.count]
    else if s.owner.Some? && s.owner.value in s.threads && s.threads[s.owner.value].Holds? then
      var pc := s.threads[s.owner.value];
      if Fits(pc.msg) && pc.count <= |Frame(pc.msg)| then Frame(pc.msg)[..pc.count] else []
    else []
  }

  /** The wire holds whole frames and what one writer has written of its own. */
  ghost predicate WireSound(s: State) {
    && Sendable(s.sent)
    && (s.cut.Some? ==> Fits(s.cut.value.msg) && s.cut.value.count <= |Frame(s.cut.value.msg)|)
    && (forall t :: t in s.threads && s.threads[t].Holds? ==>
          s.threads[t].count == 0
            || (!s.err && Fits(s.threads[t].msg) && s.threads[t].count <= |Frame(s.threads[t].msg)|))
    && s.wire == Frames(s.sent) + Partial(s)
  }

  ghost predicate Inv(s: State) {
    TokenSound(s) && TurnsSound(s) && CutSound(s) && WireSound(s)
  }

  lemma {:induction false} EventKeepsToken(s: State, e: Event)
    requires Inv(s) && Enabled(s, e)
    ensures TokenSound(Apply(s, e))
  {
    hide TurnsSound, WireSound, Frame;
  }

  lemma {:induction false} AcquireKeepsTurns(s: State, t: Thread)
    requires Inv(s) && Enabled(s, Acts(t, Acquire))
    ensures TurnsSound(Apply(s, Acts(t, Acquire)))
  {
    hide WireSound;
  }

  lemma {:induction false} WriteEndsKeepsTurns(s: State, t: Thread)
    requires Inv(s) && Enabled(s, Acts(t, WriteEnds))
    ensures TurnsSound(Apply(s, Acts(t, WriteEnds)))
  {
    hide WireSound, Frame;
  }

  /** A step that neither takes the token nor ends a write. */
  lemma {:induction false} SameTurns(s: State, r: State, t: Thread, pc: Pc)
    requires TurnsSound(s) && r.grants == s.grants && r.sent == s.sent && r.turns == s.turns
               && r.threads == s.threads[t := pc]
    requires pc.Holds? ==> t in s.threads && s.threads[t].Holds? && pc.turn == s.threads[t].turn
    ensures TurnsSound(r)
  {
  }

  lemma {:induction false} EventKeepsTurns(s: State, e: Event)
    requires Inv(s) && Enabled(s, e)
    ensures TurnsSound(Apply(s, e))
  {
    hide TokenSound, TurnsSound, WireSound, Frame;
    if e.Acts? && e.step.Acquire? {
      AcquireKeepsTurns(s, e.thread);
    } else if e.Acts? && e.step.WriteEnds? {
      WriteEndsKeepsTurns(s, e.thread);
    } else {
      SameTurns(s, Apply(s, e), e.thread, Apply(s, e).threads[e.thread]);
    }
  }

  lemma {:induction false} EventKeepsCut(s: State, e: Event)
    requires Inv(s) && Enabled(s, e)
    ensures CutSound(Apply(s, e))
  {
    hide TokenSound, WireSound, Frame;
  }

  lemma {:induction false} WriteKeepsWire(s: State, t: Thread, step: Step)
    requires Inv(s) && Enabled(s, Acts(t, step)) && (step.WritePiece? || step.WriteEnds? || step.WriteFails?)
    ensures WireSound(Apply(s, Acts(t, step)))
  {
    hide TurnsSound, Frame, Frames;
    var pc := s.threads[t];
    match step
    case WritePiece(n) =>
      var frame := Frame(pc.msg);
      assert s.wire + frame[pc.count..pc.count + n] == Frames(s.sent) + frame[..pc.count + n];
    case WriteEnds =>
      FramesMore(s.sent, pc.msg);
      assert Frame(pc.msg)[..pc.count] == Frame(pc.msg);
      assert Frames(s.sent + [pc.msg]) + [] == Frames(s.sent + [pc.msg]);
    case _ =>
  }

  lemma {:induction false} EventKeepsWire(s: State, e: Event)
    requires Inv(s) && Enabled(s, e)
    ensures WireSound(Apply(s, e))
  {
    hide TurnsSound, Frame, Frames;
    if e.Acts? && (e.step.WritePiece? || e.step.WriteEnds? || e.step.WriteFails?) {
      WriteKeepsWire(s, e.thread, e.step);
    } else if e.Acts? && e.step.CancelledEarly? {
      assert Partial(s) == Partial(Apply(s, e));
    }
  }

  lemma {:induction false} RunKeepsInv(run: seq<State>, i: nat)
    requires IsRun(run) && i < |run|
    ensures Inv(run[i])
  {
    hide Enabled, Apply, TokenSound, TurnsSound, CutSound, WireSound;
    if i == 0 {
      InitialInv(run[0]);
    } else {
      RunKeepsInv(run, i - 1);
      var e := StepOf(run, i - 1);
      EventKeepsToken(run[i - 1], e);
      EventKeepsTurns(run[i - 1], e);
      EventKeepsCut(run[i - 1], e);
      EventKeepsWire(run[i - 1], e);
    }
  }

  lemma {:induction false} InitialInv(s: State)
    requires Initial(s)
    ensures Inv(s)
  {
  }

  // ---------------------------------------------------------------- the guarantees

  /** From the first Lock on, the tokens in the channel and the writers that hold one are one together; so no two
      writers hold it, and putting it back never finds the channel full. */
  lemma {:induction false} OneToken(run: seq<State>, i: nat)
    requires IsRun(run) && i < |run|
    ensures run[i].tokens + |Holders(run[i].threads)| == if run[i].made then 1 else 0
    ensures forall t, u :: t in Holders(run[i].threads) && u in Holders(run[i].threads) ==> t == u
    ensures Holders(run[i].threads) != {} ==> run[i].tokens == 0
  {
    RunKeepsInv(run, i);
    var s := run[i];
    hide TurnsSound, WireSound;
    if s.owner.Some? {
      assert Holders(s.threads) == {s.owner.value};
    } else {
      assert Holders(s.threads) == {};
    }
  }

  /** The write of `msg` failed, or is not over, in the given turn, after `n` bytes of its frame. In the second case
      it is the last turn, and its writer holds the lock. */
  ghost predicate Unfinished(s: State, msg: Msg, turn: nat, n: nat) {
    && Fits(msg) && n <= |Frame(msg)| && turn < |s.grants|
    && (forall i :: 0 <= i < |s.turns| ==> s.turns[i] < turn)
    && if s.cut.Some? then s.cut == Some(Cut(msg, turn, n))
       else turn == |s.grants| - 1 && s.grants[turn] in s.threads && s.threads[s.grants[turn]] == Holds(msg, turn, n)
  }

  /** Whatever the writers do, and however their pieces, cancellations and failures interleave, the wire holds whole
      frames in the order in which the lock was taken, followed by nothing or by a part of one more: that of the one
      message whose write failed, or of the lock holder's, if none did. */
  lemma {:induction false} FramesInLockOrder(run: seq<State>, i: nat)
    requires IsRun(run) && i < |run|
    ensures var s := run[i];
            && Sendable(s.sent) && |s.turns| == |s.sent|
            && (forall j, k :: 0 <= j < k < |s.turns| ==> s.turns[j] < s.turns[k] < |s.grants|)
            && (|| s.wire == Frames(s.sent)
                || exists msg: Msg, turn: nat, n: nat ::
                  Unfinished(s, msg, turn, n) && s.wire == Frames(s.sent) + Frame(msg)[..n])
  {
    RunKeepsInv(run, i);
    var s := run[i];
    hide Frame, Frames;
    if s.cut.Some? {
      assert Unfinished(s, s.cut.value.msg, s.cut.value.turn, s.cut.value.count);
    } else if s.owner.Some? && s.threads[s.owner.value].Holds? && Fits(s.threads[s.owner.value].msg) {
      var pc := s.threads[s.owner.value];
      assert Unfinished(s, pc.msg, pc.turn, pc.count);
    } else {
      assert s.wire == Frames(s.sent) + [];
    }
  }

  /** So the peer reads exactly the messages written in full, in lock order, and at most one besides: the one whose
      write failed, or is not over, although all of its frame went out. */
  lemma {:induction false} PeerReadsInLockOrder(run: seq<State>, i: nat)
    requires IsRun(run) && i < |run|
    ensures var got := Parse(run[i].wire);
            && got.1 != TooLarge
            && (|| got.0 == run[i].sent
                || exists msg: Msg, turn: nat ::
                  Fits(msg) && Unfinished(run[i], msg, turn, |Frame(msg)|) && got.0 == run[i].sent + [msg])
  {
    hide IsRun, Frame, Frames, Parse;
    FramesInLockOrder(run, i);
    var s := run[i];
    if s.wire == Frames(s.sent) {
      assert s.wire == Frames(s.sent) + Frame([])[..0];
      WireRoundTrip(s.sent, [], 0);
      FrameIsLonger([]);
    } else {
      var msg: Msg, turn: nat, n: nat :| Unfinished(s, msg, turn, n) && s.wire == Frames(s.sent) + Frame(msg)[..n];
      WireRoundTrip(s.sent, msg, n);
    }
  }

  lemma {:induction false} FrameIsLonger(msg: Msg)
    requires Fits(msg)
    ensures |Frame(msg)| > 0
  {
  }

  // ---------------------------------------------------------------- the class

  /** The run went on by one event. */
  ghost predicate WentOn(before: seq<State>, after: seq<State>, e: Event) {
    before != [] && Enabled(Last(before), e) && after == before + [Apply(Last(before), e)]
  }

  lemma {:induction false} RunGrows(run: seq<State>, e: Event)
    requires IsRun(run) && Enabled(Last(run), e)
    ensures IsRun(run + [Apply(Last(run), e)])
  {
    hide Enabled, Apply, Initial;
    var more := run + [Apply(Last(run), e)];
    forall i | 0 <= i < |more| - 1
      ensures Next(more[i], more[i + 1])
    {
      if i < |run| - 1 {
        assert Next(run[i], run[i + 1]);
      }
    }
  }

  /** contextMutex: whether its channel exists, and the tokens in it. The methods are run by the thread `t` that stands
      before them. */
  class ContextMutex {
    var made: bool
    var tokens: nat
    ghost var run: seq<State>

    constructor ()
      ensures Valid() && Last(run).threads == map[]
    {
      made, tokens := false, 0;
      run := [State(false, 0, [], None, map[], [], false, [], [], None)];
    }

    ghost predicate Valid()
      reads this
    {
      run != [] && IsRun(run) && Last(run).made == made && Last(run).tokens == tokens
    }

    ghost method Advance(e: Event)
      requires run != [] && IsRun(run) && Enabled(Last(run), e)
      modifies this`run
      ensures WentOn(old(run), run, e) && IsRun(run)
    {
      RunGrows(run, e);
      run := run + [Apply(Last(run), e)];
    }

    /** The once of Lock: the channel is made with one token, however often this runs. */
    method Prepare(ghost t: Thread)
      requires Valid() && Enabled(Last(run), Acts(t, Init))
      modifies this
      ensures Valid() && WentOn(old(run), run, Acts(t, Init)) && made
      ensures tokens + |Holders(Last(run).threads)| == 1
    {
      hide IsRun;
      Advance(Acts(t, Init));
      OneToken(run, |run| - 1);
      if !made {
        made := true;
        tokens := 1;
      }
    }

    /** The select of Lock, once one of its cases is ready. With the lock, nobody else has it. */
    method Lock(ghost t: Thread, cancelled: bool) returns (locked: bool)
      requires Valid() && t in Last(run).threads && Last(run).threads[t].Waits? && (cancelled || tokens > 0)
      modifies this
      ensures Valid() && WentOn(old(run), run, Acts(t, if locked then Acquire else WaitCancelled))
      ensures !locked ==> cancelled
      ensures locked ==> Holders(Last(run).threads) == {t}
    {
      hide IsRun;
      locked := *;
      locked := tokens > 0 && (locked || !cancelled);
      Advance(Acts(t, if locked then Acquire else WaitCancelled));
      OneToken(run, |run| - 1);
      if locked {
        assert t in Holders(Last(run).threads);
        tokens := tokens - 1;
      }
    }

    /** Unlock never blocks: the channel, which holds one, is empty. */
    method Release(ghost t: Thread)
      requires Valid() && Enabled(Last(run), Acts(t, Unlock))
      modifies this
      ensures Valid() && WentOn(old(run), run, Acts(t, Unlock))
      ensures old(tokens) == 0 && tokens == 1 && Holders(Last(run).threads) == {}
    {
      hide IsRun;
      OneToken(run, |run| - 1);
      assert t in Holders(Last(run).threads);
      Advance(Acts(t, Unlock));
      OneToken(run, |run| - 1);
      tokens := tokens + 1;
    }
  }
}
