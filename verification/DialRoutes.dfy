/**
 Racing connection attempts over every pair of a target address and a proxy address (dial_routes.go), two at a
 time in the style of section 5 of RFC 8305.
 */
module DialRoutes {
  import opened Content
  import opened Sets

  // ---------------------------------------------------------------- the order of the pairs

  datatype Route = Route(target: string, proxy: string)

  /** Where route `index` sits in the two address lists: the proxy varies fastest, and each proxy starts its own
      walk over the targets one step further. */
  function Position(targets: int, proxies: int, index: int): (p: (int, int))
    requires targets > 0 && proxies > 0
  {
    ((index / proxies + index % proxies) % targets, index % proxies)
  }

  /** The index at which a pair of positions is tried. */
  function IndexOf(targets: int, proxies: int, target: int, proxy: int): (index: int)
    requires targets > 0 && proxies > 0
  {
    ((target - proxy) % targets) * proxies + proxy
  }

  datatype Routes = Routes(targets: seq<string>, proxies: seq<string>) {
    predicate Valid() {
      targets != [] && proxies != []
    }

    function Count(): (n: nat)
      ensures Valid() ==> n > 0
    {
      CountPositive(|targets|, |proxies|);
      |targets| * |proxies|
    }

    function At(index: int): (r: Route)
      requires Valid() && 0 <= index < Count()
    {
      var proxy := index % |proxies|;
      var target := (index / |proxies| + proxy) % |targets|;
      Route(targets[target], proxies[proxy])
    }
  }

  lemma {:induction false} CountPositive(a: nat, b: nat)
    ensures 0 <= a * b && (a > 0 && b > 0 ==> a * b > 0)
  {
  }

  lemma {:induction false} SmallMultiple(m: int, k: int)
    requires m > 0 && -m < m * k < m
    ensures k == 0
  {
  }

  /** Division with remainder is unique. */
  lemma {:induction false} DivModUnique(x: int, m: int, q: int, r: int)
    requires m > 0 && 0 <= r < m && x == q * m + r
    ensures x / m == q && x % m == r
  {
    assert x == m * (x / m) + x % m;
    assert m * (x / m - q) == m * (x / m) - m * q;
    assert m * q == q * m;
    SmallMultiple(m, x / m - q);
  }

  lemma {:induction false} QuotientInRange(x: int, m: int, n: int)
    requires m > 0 && 0 <= x < n * m
    ensures 0 <= x / m < n
  {
  }

  /** Shifting a position forth and back around a cycle. */
  lemma {:induction false} ShiftBack(q: int, p: int, m: int)
    requires m > 0 && 0 <= q < m
    ensures ((q + p) % m - p) % m == q
  {
    var k := (q + p) / m;
    assert q + p == m * k + (q + p) % m;
    assert (q + p) % m - p == (-k) * m + q by {
      assert (-k) * m == -(m * k);
    }
    DivModUnique((q + p) % m - p, m, -k, q);
  }

  /** The pair tried at an index is tried at no other index. */
  lemma {:induction false} PositionThenIndex(targets: int, proxies: int, index: int)
    requires targets > 0 && proxies > 0 && 0 <= index < targets * proxies
    ensures var p := Position(targets, proxies, index);
            0 <= p.0 < targets && 0 <= p.1 < proxies && IndexOf(targets, proxies, p.0, p.1) == index
  {
    QuotientInRange(index, proxies, targets);
    ShiftBack(index / proxies, index % proxies, targets);
    assert index == proxies * (index / proxies) + index % proxies;
  }

  lemma {:induction false} Distributes(a: int, b: int, m: int)
    ensures (a + b) * m == a * m + b * m
  {
  }

  lemma {:induction false} RowInRange(q: int, proxy: int, targets: int, proxies: int)
    requires 0 <= q < targets && 0 <= proxy < proxies
    ensures 0 <= q * proxies + proxy < targets * proxies
  {
    var rest := targets - (q + 1);
    Distributes(q, 1 + rest, proxies);
    Distributes(1, rest, proxies);
    CountPositive(rest, proxies);
    CountPositive(q, proxies);
  }

  /** Every pair is tried at some index of the race. */
  lemma {:induction false} IndexThenPosition(targets: int, proxies: int, target: int, proxy: int)
    requires targets > 0 && proxies > 0 && 0 <= target < targets && 0 <= proxy < proxies
    ensures var i := IndexOf(targets, proxies, target, proxy);
            0 <= i < targets * proxies && Position(targets, proxies, i) == (target, proxy)
  {
    var q := (target - proxy) % targets;
    RowInRange(q, proxy, targets, proxies);
    DivModUnique(q * proxies + proxy, proxies, q, proxy);
    ShiftBack(target, -proxy, targets);
  }

  /** For all non-empty address lists, the indices below the count enumerate all pairs of positions, each exactly
      once, and `At` returns the addresses at those positions. */
  lemma {:induction false} RoutesEnumerateAllPairs(routes: Routes, target: int, proxy: int, i: int, j: int)
    requires routes.Valid() && 0 <= target < |routes.targets| && 0 <= proxy < |routes.proxies|
    requires 0 <= i < routes.Count() && 0 <= j < routes.Count()
    ensures var k := IndexOf(|routes.targets|, |routes.proxies|, target, proxy);
            0 <= k < routes.Count() && routes.At(k) == Route(routes.targets[target], routes.proxies[proxy])
    ensures Position(|routes.targets|, |routes.proxies|, i) == Position(|routes.targets|, |routes.proxies|, j) ==>
              i == j
  {
    IndexThenPosition(|routes.targets|, |routes.proxies|, target, proxy);
    PositionThenIndex(|routes.targets|, |routes.proxies|, i);
    PositionThenIndex(|routes.targets|, |routes.proxies|, j);
  }

  // ---------------------------------------------------------------- the race

  /** How one attempt ends: with a connection, which is named by the index of its attempt, or with an error. */
  datatype Attempt = Opened | Refused(error: int)

  datatype Outcome = Won(index: nat) | Cancelled | AllFailed(error: int)

  /** Where an attempt stands: its goroutine is dialing, has sent its result into the channel, or the result was
      received: an error, or a connection that is held or has been closed. */
  datatype Stage = Dialing | Sent(attempt: Attempt) | Failed(error: int) | Held | Closed

  predicate Outstanding(stage: Stage) {
    stage.Dialing? || stage.Sent?
  }

  /** What draining does: outstanding attempts end failed or closed, the others stay as they are. */
  ghost predicate Drained(before: map<nat, Stage>, after: map<nat, Stage>) {
    && after.Keys == before.Keys
    && forall i :: i in before ==>
         if Outstanding(before[i]) then after[i].Failed? || after[i].Closed? else after[i] == before[i]
  }

  /** Every attempt is over; only the winner's connection is still open. */
  ghost predicate Settled(stage: map<nat, Stage>, outcome: Outcome) {
    && (forall i :: i in stage ==> match stage[i] {
         case Failed(_) => true
         case Closed => !outcome.AllFailed?
         case Held => outcome == Won(i)
         case _ => false
       })
    && (outcome.Won? ==> outcome.index in stage && stage[outcome.index].Held?)
  }

  function DialingIn(stage: map<nat, Stage>): (s: set<nat>) {
    set i | i in stage && stage[i].Dialing?
  }

  /** Attempts whose result the race still has to receive. */
  function OutstandingIn(stage: map<nat, Stage>): (s: set<nat>) {
    set i | i in stage && Outstanding(stage[i])
  }

  function SentIn(stage: map<nat, Stage>): (s: set<nat>) {
    set i | i in stage && stage[i].Sent?
  }

  /** closeValue was called once for each closed connection. */
  ghost predicate ClosedOnce(stage: map<nat, Stage>, closes: seq<nat>) {
    && (forall i, j :: 0 <= i < j < |closes| ==> closes[i] != closes[j])
    && (forall i :: i in closes <==> i in stage && stage[i].Closed?)
  }

  /** The error that is remembered is the one received first. */
  ghost predicate Remembers(stage: map<nat, Stage>, failures: seq<nat>, firstError: Option<int>) {
    && (forall i :: i in failures <==> i in stage && stage[i].Failed?)
    && (firstError.None? <==> failures == [])
    && (failures != [] ==> stage[failures[0]] == Failed(firstError.value))
  }

  /** Every connection the race ever saw came from a dial that does open. */
  ghost predicate Genuine(stage: map<nat, Stage>, dial: nat -> Attempt) {
    forall i :: i in stage && (stage[i] == Sent(Opened) || stage[i].Held? || stage[i].Closed?) ==> dial(i) == Opened
  }

  /** Nothing was aborted: every error received or on its way is the dial's own. */
  ghost predicate Exact(stage: map<nat, Stage>, dial: nat -> Attempt) {
    && (forall i :: i in stage && stage[i].Sent? ==> stage[i].attempt == dial(i))
    && (forall i :: i in stage && stage[i].Failed? ==> dial(i) == Refused(stage[i].error))
  }

  /** No connection has been received yet. */
  ghost predicate NothingOpen(stage: map<nat, Stage>) {
    forall i :: i in stage ==> !stage[i].Held? && !stage[i].Closed?
  }

  ghost predicate Clean(stage: map<nat, Stage>, dial: nat -> Attempt, exact: bool) {
    NothingOpen(stage) && Genuine(stage, dial) && (exact ==> Exact(stage, dial))
  }

  lemma {:induction false} CleanParts(stage: map<nat, Stage>, dial: nat -> Attempt, exact: bool)
    requires Clean(stage, dial, exact)
    ensures NothingOpen(stage) && Genuine(stage, dial) && (exact ==> Exact(stage, dial))
  {
  }

  lemma {:induction false} StaysCleanWhenCancelled(stage: map<nat, Stage>, dial: nat -> Attempt)
    requires Clean(stage, dial, true)
    ensures Clean(stage, dial, false)
  {
  }

  lemma {:induction false} StaysClean(stage: map<nat, Stage>, i: nat, s: Stage, dial: nat -> Attempt, exact: bool)
    requires Clean(stage, dial, exact)
    requires !s.Held? && !s.Closed?
    requires s == Sent(Opened) ==> dial(i) == Opened
    requires exact && s.Sent? ==> s.attempt == dial(i)
    requires exact && s.Failed? ==> dial(i) == Refused(s.error)
    ensures Clean(stage[i := s], dial, exact)
  {
  }

  ghost function Size(stage: map<nat, Stage>): (n: nat) {
    |DialingIn(stage)| + |OutstandingIn(stage)|
  }

  /** What a change of one attempt does to the two counts. */
  lemma {:induction false} CountAfter(stage: map<nat, Stage>, i: nat, s: Stage)
    ensures |OutstandingIn(stage[i := s])| == |OutstandingIn(stage) - {i}| + (if Outstanding(s) then 1 else 0)
    ensures |DialingIn(stage[i := s])| == |DialingIn(stage) - {i}| + (if s.Dialing? then 1 else 0)
    ensures |OutstandingIn(stage)| ==
              |OutstandingIn(stage) - {i}| + (if i in stage && Outstanding(stage[i]) then 1 else 0)
    ensures |DialingIn(stage)| == |DialingIn(stage) - {i}| + (if i in stage && stage[i].Dialing? then 1 else 0)
  {
    hide OutstandingIn, DialingIn, Outstanding;
    SetsAfter(stage, i, s);
    WithAndWithout(OutstandingIn(stage), OutstandingIn(stage[i := s]), i);
    WithAndWithout(DialingIn(stage), DialingIn(stage[i := s]), i);
  }

  lemma {:induction false} SetsAfter(stage: map<nat, Stage>, i: nat, s: Stage)
    ensures OutstandingIn(stage) - {i} == OutstandingIn(stage[i := s]) - {i}
    ensures DialingIn(stage) - {i} == DialingIn(stage[i := s]) - {i}
    ensures i in OutstandingIn(stage) <==> i in stage && Outstanding(stage[i])
    ensures i in DialingIn(stage) <==> i in stage && stage[i].Dialing?
    ensures i in OutstandingIn(stage[i := s]) <==> Outstanding(s)
    ensures i in DialingIn(stage[i := s]) <==> s.Dialing?
  {
    hide Outstanding;
  }

  /** The variables of raceDialRoutes, the stage of every attempt it started, and every call of closeValue. */
  class Race {
    const count: nat
    var next: nat
    var active: nat
    var timer: bool
    var cancelled: bool
    var firstError: Option<int>
    var stage: map<nat, Stage>
    var closes: seq<nat>
    ghost var failures: seq<nat>

    constructor (count: nat)
      requires count > 0
      ensures Valid() && this.count == count && next == 0 && active == 0 && stage == map[] && timer && !cancelled
    {
      this.count := count;
      next, active, timer, cancelled, firstError, stage, closes, failures := 0, 0, true, false, None, map[], [], [];
    }

    /** Indices start in order, each once; at most two attempts are outstanding. */
    ghost predicate Valid()
      reads this
    {
      && 0 < count && next <= count
      && (forall i :: i in stage <==> 0 <= i < next)
      && active <= 2 && active == |OutstandingIn(stage)|
      && ClosedOnce(stage, closes)
      && Remembers(stage, failures, firstError)
    }

    lemma {:induction false} SomeOutstanding()
      requires Valid() && active > 0
      ensures OutstandingIn(stage) != {}
    {
    }

    lemma {:induction false} HasRoutes()
      requires Valid()
      ensures 0 < count
    {
    }

    /** A race that received everything and opened nothing remembers an error. */
    lemma {:induction false} SomeError()
      requires Valid() && active == 0 && next > 0 && NothingOpen(stage)
      ensures firstError.Some?
    {
      AllReceived();
      assert 0 in stage;
    }

    lemma {:induction false} AllReceived()
      requires Valid() && active == 0
      ensures forall i :: i in stage ==> !Outstanding(stage[i])
    {
      assert OutstandingIn(stage) == {};
      assert forall i :: i in stage && Outstanding(stage[i]) ==> i in OutstandingIn(stage);
    }

    /** The closure `start`. The divisor of the time budget it hands out is never zero. */
    method Start()
      requires Valid() && active < 2 && next < count
      modifies this`next, this`active, this`stage
      ensures Valid() && next == old(next) + 1 && active == old(active) + 1
      ensures stage == old(stage)[old(next) := Dialing]
      ensures Size(stage) == old(Size(stage)) + 2
      ensures (count - old(next) + 1) / 2 > 0
    {
      hide OutstandingIn, DialingIn;
      CountAfter(stage, next, Dialing);
      stage := stage[next := Dialing];
      next, active := next + 1, active + 1;
    }

    /** A goroutine sends its result. The channel holds two, and there is always room. */
    method Send(index: nat, attempt: Attempt)
      requires Valid() && index in stage && stage[index].Dialing?
      modifies this`stage
      ensures Valid() && |SentIn(stage)| <= 2
      ensures stage == old(stage)[index := Sent(attempt)]
      ensures Size(stage) == old(Size(stage)) - 1
    {
      CountAfter(stage, index, Sent(attempt));
      stage := stage[index := Sent(attempt)];
      assert SentIn(stage) <= OutstandingIn(stage);
      SubsetIsSmaller(SentIn(stage), OutstandingIn(stage));
    }

    /** Receiving a result from the channel; the first error is kept. */
    method Receive(index: nat) returns (usable: bool)
      requires Valid() && index in stage && stage[index].Sent?
      modifies this`stage, this`active, this`firstError, this`failures
      ensures Valid() && active == old(active) - 1
      ensures usable == old(stage)[index].attempt.Opened?
      ensures stage == old(stage)[index := if usable then Held else Failed(old(stage)[index].attempt.error)]
      ensures Size(stage) == old(Size(stage)) - 1
    {
      hide OutstandingIn, DialingIn;
      var attempt := stage[index].attempt;
      usable := attempt.Opened?;
      CountAfter(stage, index, if usable then Held else Failed(attempt.error));
      stage := stage[index := if usable then Held else Failed(attempt.error)];
      active := active - 1;
      if attempt.Refused? {
        if firstError.None? {
          firstError := Some(attempt.error);
        }
        failures := failures + [index];
      }
    }

    method CloseValue(index: nat)
      requires Valid() && index in stage && stage[index].Held?
      modifies this`stage, this`closes
      ensures Valid() && stage == old(stage)[index := Closed]
      ensures Size(stage) == old(Size(stage))
    {
      hide OutstandingIn, DialingIn;
      CountAfter(stage, index, Closed);
      stage := stage[index := Closed];
      closes := closes + [index];
    }

    /** Some goroutine sends its result, or some result in the channel is received. */
    method Await(dial: nat -> Attempt, abortable: bool) returns (index: nat, received: bool, usable: bool)
      requires Valid() && Genuine(stage, dial) && active > 0
      modifies this`stage, this`active, this`firstError, this`failures
      ensures Valid() && Genuine(stage, dial)
      ensures Size(stage) == old(Size(stage)) - 1
      ensures index in old(stage)
      ensures received ==>
                && old(stage)[index].Sent? && active == old(active) - 1
                && usable == old(stage)[index].attempt.Opened?
                && stage == old(stage)[index := if usable then Held else Failed(old(stage)[index].attempt.error)]
      ensures !received ==>
                && old(stage)[index].Dialing? && active == old(active)
                && stage[index].Sent? && stage == old(stage)[index := stage[index]]
                && (!abortable ==> stage[index].attempt == dial(index))
    {
      hide Valid, Size;
      SomeOutstanding();
      index :| index in OutstandingIn(stage);
      received, usable := stage[index].Sent?, false;
      if received {
        usable := Receive(index);
      } else {
        var aborted: bool := *;
        Send(index, if abortable && aborted then Refused(-1) else dial(index));
      }
    }

    /** The closure `drain`: cancel, then wait for every outstanding attempt and close what it opened. Nothing
        that was received before is touched. An attempt that is aborted by the cancellation fails. */
    method Drain(dial: nat -> Attempt)
      requires Valid() && Genuine(stage, dial)
      modifies this`stage, this`active, this`firstError, this`failures, this`closes
      ensures Valid() && Genuine(stage, dial) && active == 0
      ensures Drained(old(stage), stage)
    {
      hide Valid, Size;
      while active > 0
        invariant Valid() && Genuine(stage, dial)
        invariant stage.Keys == old(stage).Keys
        invariant forall i :: i in old(stage) ==>
                    if Outstanding(old(stage)[i]) then !stage[i].Held? else stage[i] == old(stage)[i]
        decreases Size(stage)
      {
        var index, received, usable := Await(dial, true);
        if received && usable {
          CloseValue(index);
        }
      }
      AllReceived();
    }

    /** The failure branch: with routes left, start the next one at once. */
    method NextAfterFailure()
      requires Valid() && active < 2
      modifies this`next, this`active, this`stage, this`timer
      ensures Valid() && Measure() <= old(Measure())
      ensures stage == if old(next) < count then old(stage)[old(next) := Dialing] else old(stage)
      ensures active == 0 ==> next == count
    {
      if next < count {
        Start();
        if active < 2 {
          timer := true;
        }
      }
    }

    /** Bounds the steps that are left: starts, sends, receives, one expiry of the timer and one cancellation. */
    ghost function Measure(): (m: int)
      reads this
    {
      4 * (count - next) + Size(stage) + (if timer then 1 else 0) + (if cancelled then 0 else 1)
    }

    /** The success branch: drain, then give the connection up if the caller has gone. */
    method Finish(index: nat, dial: nat -> Attempt, cancellable: bool) returns (outcome: Outcome)
      requires Valid() && Genuine(stage, dial) && (cancelled ==> cancellable)
      requires index in stage && stage[index].Held?
      requires forall i :: i in stage && i != index ==> !stage[i].Held?
      modifies this`stage, this`active, this`firstError, this`failures, this`closes
      ensures Valid() && active == 0 && Genuine(stage, dial)
      ensures Settled(stage, outcome) && outcome in {Won(index), Cancelled}
      ensures outcome.Cancelled? ==> cancellable
    {
      hide Valid, Size;
      Drain(dial);
      var late: bool := *;
      if cancelled || (cancellable && late) {
        CloseValue(index);
        AllReceived();
        return Cancelled;
      }
      AllReceived();
      return Won(index);
    }

    /** What holds between two turns of the select loop. */
    ghost predicate Racing(dial: nat -> Attempt, cancellable: bool)
      reads this
    {
      && Valid() && active <= 2 && Clean(stage, dial, !cancelled)
      && (cancelled ==> cancellable) && 0 < next && (active == 0 ==> next == count)
    }

    /** What holds when the race returns. */
    ghost predicate Over(dial: nat -> Attempt, cancellable: bool, outcome: Outcome)
      reads this
    {
      && Valid() && active == 0 && Genuine(stage, dial) && Settled(stage, outcome)
      && (outcome.AllFailed? ==> next == count && Exact(stage, dial) && firstError == Some(outcome.error))
      && (outcome.Cancelled? ==> cancellable)
    }

    /** The result branch of the select, or a goroutine sending before it. */
    method Turn(dial: nat -> Attempt, cancellable: bool) returns (over: bool, outcome: Outcome)
      requires Racing(dial, cancellable) && active > 0
      modifies this`next, this`active, this`timer, this`firstError, this`stage, this`closes, this`failures
      ensures over ==> Over(dial, cancellable, outcome)
      ensures !over ==> Racing(dial, cancellable) && Measure() < old(Measure())
    {
      CleanParts(stage, dial, !cancelled);
      hide Valid, Size, Clean;
      var index, received, usable := Await(dial, cancelled);
      over, outcome := received && usable, Cancelled;
      if over {
        outcome := Finish(index, dial, cancellable);
      } else {
        StaysClean(old(stage), index, stage[index], dial, !cancelled);
        if received {
          label settled:
          NextAfterFailure();
          StaysClean(old@settled(stage), old(next), Dialing, dial, !cancelled);
        }
      }
    }

    /** The select loop. Goroutines send, the caller cancels and the timer expires in any order. */
    method Run(dial: nat -> Attempt, cancellable: bool) returns (outcome: Outcome)
      requires Valid() && next == 0 && active == 0 && stage == map[] && timer && !cancelled
      modifies this
      ensures Over(dial, cancellable, outcome)
    {
      HasRoutes();
      assert Clean(stage, dial, true);
      hide Valid, Size, Settled, Clean;
      Start();
      StaysClean(old(stage), 0, Dialing, dial, true);
      while active > 0
        invariant Racing(dial, cancellable)
        decreases Measure()
      {
        var event: nat := *;
        if event == 0 && cancellable && !cancelled {
          StaysCleanWhenCancelled(stage, dial);
          cancelled := true;
        } else if event == 1 && cancelled {
          CleanParts(stage, dial, !cancelled);
          Drain(dial);
          AllReceived();
          DrainedIsSettled(stage);
          return Cancelled;
        } else if event == 2 && timer {
          timer := false;
          if next < count && active < 2 {
            StaysClean(stage, next, Dialing, dial, !cancelled);
            Start();
          }
        } else {
          var over, result := Turn(dial, cancellable);
          if over {
            return result;
          }
        }
      }
      AllReceived();
      CleanParts(stage, dial, !cancelled);
      SomeError();
      outcome := if cancelled then Cancelled else AllFailed(firstError.value);
      NothingOpenIsSettled(stage, outcome);
    }
  }

  lemma {:induction false} DrainedIsSettled(stage: map<nat, Stage>)
    requires forall i :: i in stage ==> stage[i].Failed? || stage[i].Closed?
    ensures Settled(stage, Cancelled)
  {
  }

  lemma {:induction false} NothingOpenIsSettled(stage: map<nat, Stage>, outcome: Outcome)
    requires forall i :: i in stage ==> stage[i].Failed?
    requires !outcome.Won?
    ensures Settled(stage, outcome)
  {
  }

  /** A whole race over `count` routes, whose attempt `i` would end as `dial(i)` if nothing aborts it. When it
      returns, every attempt it started is finished; the caller owns the winner and nothing else is open. */
  method RaceIndexed(count: nat, dial: nat -> Attempt, cancellable: bool)
    returns (outcome: Outcome, stage: map<nat, Stage>, closes: seq<nat>)
    requires count > 0
    ensures forall i :: i in stage ==> i < count && forall j :: 0 <= j < i ==> j in stage
    ensures forall i :: i in stage ==> stage[i].Failed? || stage[i].Closed? || (stage[i].Held? && outcome == Won(i))
    ensures forall i :: i in stage && !stage[i].Failed? ==> dial(i) == Opened
    ensures forall i :: i in closes <==> i in stage && stage[i].Closed?
    ensures forall i, j :: 0 <= i < j < |closes| ==> closes[i] != closes[j]
    ensures outcome.Won? ==> outcome.index in stage && dial(outcome.index) == Opened
    ensures outcome.Won? ==> outcome.index !in closes
    ensures outcome.AllFailed? ==> forall i :: 0 <= i < count ==> i in stage && dial(i).Refused?
    ensures outcome.AllFailed? ==> exists i :: 0 <= i < count && dial(i) == Refused(outcome.error)
    ensures !cancellable ==> (outcome.Won? <==> exists i :: 0 <= i < count && dial(i) == Opened)
  {
    var cancelledBefore: bool := *;
    if cancellable && cancelledBefore {
      outcome, stage, closes := Cancelled, map[], [];
      assert forall i :: i in stage <==> 0 <= i < 0;
      return;
    }
    var race := new Race(count);
    outcome := race.Run(dial, cancellable);
    stage, closes := race.stage, race.closes;
    assert forall i :: i in stage <==> 0 <= i < race.next;
    if outcome.AllFailed? {
      assert forall i :: 0 <= i < count ==> i in stage;
    }
  }

  ghost predicate SomePairOpens(routes: Routes, dial: Route -> Attempt) {
    exists t, p :: 0 <= t < |routes.targets| && 0 <= p < |routes.proxies| &&
                   dial(Route(routes.targets[t], routes.proxies[p])) == Opened
  }

  lemma {:induction false} IndicesCoverPairs(routes: Routes, dial: Route -> Attempt, indexed: nat -> Attempt)
    requires routes.Valid()
    requires forall i :: 0 <= i < routes.Count() ==> indexed(i) == dial(routes.At(i))
    ensures SomePairOpens(routes, dial) <==> exists i :: 0 <= i < routes.Count() && indexed(i) == Opened
  {
    if SomePairOpens(routes, dial) {
      var t, p :| 0 <= t < |routes.targets| && 0 <= p < |routes.proxies| &&
                  dial(Route(routes.targets[t], routes.proxies[p])) == Opened;
      IndexThenPosition(|routes.targets|, |routes.proxies|, t, p);
      assert indexed(IndexOf(|routes.targets|, |routes.proxies|, t, p)) == Opened;
    }
    forall i | 0 <= i < routes.Count() && indexed(i) == Opened
      ensures SomePairOpens(routes, dial)
    {
      PositionThenIndex(|routes.targets|, |routes.proxies|, i);
      var p := Position(|routes.targets|, |routes.proxies|, i);
      assert dial(Route(routes.targets[p.0], routes.proxies[p.1])) == Opened;
    }
  }

  /** The race over the pairs of two address lists: without cancellation it succeeds exactly when some pair of a
      target and a proxy can be dialed, and a failure means that every pair was dialed and refused. */
  method RaceDialRoutes(routes: Routes, dial: Route -> Attempt, cancellable: bool)
    returns (outcome: Outcome, stage: map<nat, Stage>, closes: seq<nat>)
    requires routes.Valid()
    ensures forall i :: i in stage ==> i < routes.Count()
    ensures forall i :: i in stage ==> stage[i].Failed? || stage[i].Closed? || (stage[i].Held? && outcome == Won(i))
    ensures forall i :: i in closes <==> i in stage && stage[i].Closed?
    ensures forall i, j :: 0 <= i < j < |closes| ==> closes[i] != closes[j]
    ensures outcome.Won? ==> outcome.index in stage && outcome.index !in closes
    ensures outcome.Won? ==> 0 <= outcome.index < routes.Count() && dial(routes.At(outcome.index)) == Opened
    ensures outcome.AllFailed? ==> !SomePairOpens(routes, dial)
    ensures !cancellable ==> (outcome.Won? <==> SomePairOpens(routes, dial))
  {
    hide Routes.Count, Routes.At, SomePairOpens;
    var indexed := i => if 0 <= i < routes.Count() then dial(routes.At(i)) else Refused(0);
    outcome, stage, closes := RaceIndexed(routes.Count(), indexed, cancellable);
    IndicesCoverPairs(routes, dial, indexed);
  }
}
