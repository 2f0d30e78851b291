/**
 What every run of the upload protocol guarantees: one effect per Upload-Id, receipts that tell the truth
 and never change, lookups that never miss an admitted upload, and no lost update among guarded writes.
 */
module UploadGuarantees {
  import opened Content
  import opened UploadProtocol
  import P = Preconditions
  import L = UploadLimits

  // ---------------------------------------------------------------- receipts over a run

  predicate Keeps(older: State, newer: State) {
    && (forall id :: id in older.receipts ==> id in newer.receipts && newer.receipts[id] == older.receipts[id])
    && older.log <= newer.log
    && older.base == newer.base
  }

  /** One effect never changes or removes a receipt or a log entry, and never forgets an admitted upload. */
  lemma {:induction false} EffectKeeps(s: State, e: Effect)
    requires Enabled(s, e)
    ensures Keeps(s, Apply(s, e))
    ensures forall id :: Known(s, id) ==> Known(Apply(s, e), id)
  {
  }

  lemma {:induction false} StepKeeps(s: State, s': State)
    requires Next(s, s')
    ensures Keeps(s, s')
    ensures forall id :: Known(s, id) ==> Known(s', id)
  {
    hide Enabled, Apply;
    var e :| Enabled(s, e) && s' == Apply(s, e);
    EffectKeeps(s, e);
  }

  lemma {:induction false} RunKeeps(run: seq<State>, i: nat, j: nat)
    requires IsRun(run) && i <= j < |run|
    ensures Keeps(run[i], run[j])
    ensures forall id :: Known(run[i], id) ==> Known(run[j], id)
    decreases j
  {
    hide Next, Initial;
    if i < j {
      RunKeeps(run, i, j - 1);
      assert Next(run[j - 1], run[j - 1 + 1]);
      StepKeeps(run[j - 1], run[j]);
    }
  }

  /** Over every run, with crashes and retries anywhere: an Upload-Id causes at most one rename, and from
      then on its pending record or its receipt is on disk, so no later attempt is admitted under it. */
  lemma {:induction false} UploadHappensOnce(run: seq<State>, i: nat, j: nat, id: string)
    requires IsRun(run) && i <= j < |run|
    ensures AtMostOneEffect(run[j].log)
    ensures HasEffect(run[i].log, id) ==> Known(run[j], id) && HasEffect(run[j].log, id)
    ensures Known(run[i], id) ==> forall r: Record, file: nat :: r.id == id ==> !Enabled(run[j], Admit(r, file))
  {
    RunKeepsInv(run, i);
    RunKeepsInv(run, j);
    RunKeeps(run, i, j);
    if HasEffect(run[i].log, id) {
      var k :| EffectAt(run[i].log, k, id);
      assert EffectAt(run[j].log, k, id);
    }
  }

  /** A terminal receipt says `committed` exactly when the rename happened, at every later point as well:
      a receipt that says anything else rules out that its upload is ever renamed. */
  lemma {:induction false} ReceiptsTellTheTruth(run: seq<State>, i: nat, j: nat, id: string)
    requires IsRun(run) && i <= j < |run| && id in run[i].receipts
    ensures Truthful(run[i], id)
    ensures id in run[j].receipts && run[j].receipts[id] == run[i].receipts[id]
    ensures run[i].receipts[id].state == Committed <==> HasEffect(run[j].log, id)
  {
    RunKeepsInv(run, i);
    RunKeepsInv(run, j);
    RunKeeps(run, i, j);
    assert Truthful(run[j], id);
  }

  /** Starting from an empty journal there are never more than 4096 receipts, recovered ones included. */
  lemma {:induction false} ReceiptsBounded(run: seq<State>, i: nat)
    requires IsRun(run) && i < |run|
    ensures |run[i].receipts| <= 4096
  {
    RunKeepsInv(run, i);
  }

  // ---------------------------------------------------------------- looking up a receipt beside a live writer

  /** A read of a journal file: its record, or that there is none, or a refusal. */
  datatype Read = Data(record: Record) | Missing | Denied

  datatype Answer = Found(record: Record) | NotFound | Refused

  /** readJournalFile of a receipt, which looks at the file at one time and opens it at another. Receipts are never
      replaced, so that it is still the same file. */
  function ReadReceipt(atStat: State, atOpen: State, id: string): (r: Read) {
    if id !in atStat.receipts then Missing
    else if !L.Readable(atStat.receipts[id]) then Denied
    else if id !in atOpen.receipts then Missing
    else Data(atOpen.receipts[id])
  }

  /** readJournalFile of the pending record, which a live writer replaces and removes meanwhile: a file other than the
      one looked at is refused. */
  function ReadPending(atStat: State, atOpen: State): (r: Read) {
    if atStat.pending.None? then Missing
    else if !L.Readable(atStat.pending.value) then Denied
    else if atOpen.pending.None? then Missing
    else if atOpen.slot != atStat.slot then Denied
    else Data(atOpen.pending.value)
  }

  /** The lookup of serveReceipt: terminal receipt, then pending record, then terminal receipt again. `at` are the six
      states that its three reads see, two each. */
  function LookupReceipt(at: seq<State>, id: string): (r: Answer)
    requires |at| == 6
  {
    match ReadReceipt(at[0], at[1], id)
    case Data(record) => Found(record)
    case Denied => Refused
    case Missing =>
      var pending := ReadPending(at[2], at[3]);
      if pending.Denied? then Refused
      else if pending.Data? && pending.record.id == id then Found(pending.record)
      else
        match ReadReceipt(at[4], at[5], id)
        case Data(record) => Found(record)
        case Denied => Refused
        case Missing => NotFound
  }

  /** Six states of a run in the order of time. */
  ghost predicate SeenInOrder(run: seq<State>, times: seq<nat>, at: seq<State>) {
    && |times| == |at| == 6
    && (forall k :: 0 <= k < 6 ==> times[k] < |run| && at[k] == run[times[k]])
    && (forall k :: 0 <= k < 5 ==> times[k] <= times[k + 1])
  }

  lemma {:induction false} SeenKeeps(run: seq<State>, times: seq<nat>, at: seq<State>, j: nat, k: nat)
    requires IsRun(run) && SeenInOrder(run, times, at) && j <= k < 6
    ensures Keeps(at[j], at[k])
    ensures forall id :: Known(at[j], id) ==> Known(at[k], id)
  {
    hide IsRun;
    if j < k {
      SeenKeeps(run, times, at, j, k - 1);
      RunKeeps(run, times[k - 1], times[k]);
      hide Known;
    } else {
      RunKeeps(run, times[k], times[k]);
    }
  }

  /** The pending file was replaced between the two halves of the read. */
  predicate ReplacedBetween(atStat: State, atOpen: State) {
    atStat.pending.Some? && atOpen.pending.Some? && atStat.slot != atOpen.slot
  }

  predicate AttemptPending(s: State, id: string) {
    s.pending.Some? && s.pending.value.id == id
  }

  predicate TooLong(s: State, id: string) {
    id in s.receipts && !L.Readable(s.receipts[id])
  }

  /** What a lookup finds is the record of the id, which tells the truth if it is terminal. */
  lemma {:induction false} LookupIsTrue(run: seq<State>, times: seq<nat>, at: seq<State>, id: string)
    requires IsRun(run) && SeenInOrder(run, times, at) && LookupReceipt(at, id).Found?
    ensures LookupReceipt(at, id).record.id == id
    ensures Terminal(LookupReceipt(at, id).record.state) ==>
              (LookupReceipt(at, id).record.state == Committed <==> HasEffect(at[5].log, id))
  {
    hide IsRun, HasEffect, L.Readable;
    assert times[1] <= times[2] <= times[3] <= times[4] <= times[5];
    if id in at[1].receipts {
      ReceiptsTellTheTruth(run, times[1], times[5], id);
    }
    if id in at[5].receipts {
      ReceiptsTellTheTruth(run, times[5], times[5], id);
    }
    PendingIsOpen(run, times[3]);
  }

  /** An upload that was admitted when the lookup began is never reported missing, whatever the writer does
      meanwhile; and what is found is its record, which tells the truth if it is terminal. */
  lemma {:induction false} LookupNeverMisses(run: seq<State>, times: seq<nat>, at: seq<State>, id: string)
    requires IsRun(run) && SeenInOrder(run, times, at)
    ensures Known(at[0], id) ==> LookupReceipt(at, id) != NotFound
    ensures LookupReceipt(at, id).Found? ==> LookupReceipt(at, id).record.id == id
    ensures LookupReceipt(at, id).Found? && Terminal(LookupReceipt(at, id).record.state) ==>
              (LookupReceipt(at, id).record.state == Committed <==> HasEffect(at[5].log, id))
  {
    hide IsRun, HasEffect, L.Readable;
    SeenKeeps(run, times, at, 0, 1);
    SeenKeeps(run, times, at, 0, 2);
    SeenKeeps(run, times, at, 0, 3);
    SeenKeeps(run, times, at, 2, 4);
    SeenKeeps(run, times, at, 3, 4);
    SeenKeeps(run, times, at, 4, 5);
    if LookupReceipt(at, id).Found? {
      LookupIsTrue(run, times, at, id);
    }
  }

  /** A lookup is refused if and only if a file it looks at is over the read limit, or the pending file was replaced
      between the two halves of its read. */
  lemma {:induction false} RefusedExactlyWhen(run: seq<State>, times: seq<nat>, at: seq<State>, id: string)
    requires IsRun(run) && SeenInOrder(run, times, at)
    ensures var beforehand := id !in at[0].receipts;
            LookupReceipt(at, id) == Refused <==>
              || TooLong(at[0], id)
              || (beforehand && at[2].pending.Some? && !L.Readable(at[2].pending.value))
              || (beforehand && ReplacedBetween(at[2], at[3]))
              || (beforehand && TooLong(at[4], id) && !(at[2].pending.Some? && AttemptPending(at[3], id)))
  {
    hide IsRun, L.Readable;
    SeenKeeps(run, times, at, 0, 1);
    SeenKeeps(run, times, at, 4, 5);
  }

  /** For requests that fit the limit, only a replacement of the pending file refuses a lookup. */
  lemma {:induction false} FittingLookup(run: seq<State>, times: seq<nat>, at: seq<State>, id: string)
    requires IsRun(run) && SeenInOrder(run, times, at)
    requires at[2].pending.Some? ==> L.Fits(at[2].pending.value.id, at[2].pending.value.fingerprint)
    requires id in at[4].receipts ==> L.Fits(id, at[4].receipts[id].fingerprint)
    ensures LookupReceipt(at, id) == Refused <==> id !in at[0].receipts && ReplacedBetween(at[2], at[3])
  {
    hide IsRun, L.Readable;
    RefusedExactlyWhen(run, times, at, id);
    SeenKeeps(run, times, at, 0, 4);
    L.FittingIsLegible(run, times[2]);
    if id in at[4].receipts {
      L.FittingReceiptIsReadable(run, times[4], id);
    }
  }

  /** Such a refusal happens: the lookup of an admitted upload looks at the pending file, the writer notes its staging
      name, and the file that the lookup opens is another one. */
  lemma {:induction false} AdmittedLookupRefused(id: string, f: Fingerprint)
    returns (run: seq<State>, times: seq<nat>, at: seq<State>)
    requires L.Fits(id, f)
    ensures IsRun(run) && SeenInOrder(run, times, at) && Known(at[0], id) && LookupReceipt(at, id) == Refused
  {
    hide ConditionsMet, Evidence, VisibleFiles, Dir, L.EncodedLength;
    run := L.CreatedRun(id, f, None);
    run := L.Extend(run, NoteStaging(Staging(Dir(f.path), 0), 2));
    times := [2, 2, 2, 3, 3, 3];
    at := [run[2], run[2], run[2], run[3], run[3], run[3]];
    L.LongestBounds(run[2].pending.value);
  }

  predicate PendingOpen(s: State) {
    s.pending.Some? ==> !Terminal(s.pending.value.state)
  }

  /** The pending slot never holds a terminal record. */
  lemma {:induction false} PendingIsOpen(run: seq<State>, i: nat)
    requires IsRun(run) && i < |run|
    ensures PendingOpen(run[i])
  {
    if i > 0 {
      hide Enabled, Apply;
      PendingIsOpen(run, i - 1);
      assert Next(run[i - 1], run[i - 1 + 1]);
      var e :| Enabled(run[i - 1], e) && run[i] == Apply(run[i - 1], e);
      EffectKeepsOpen(run[i - 1], e);
    }
  }

  lemma {:induction false} EffectKeepsOpen(s: State, e: Effect)
    requires PendingOpen(s) && Enabled(s, e)
    ensures PendingOpen(Apply(s, e))
  {
  }

  // ---------------------------------------------------------------- no lost update

  /** The visible files after the first changes of the log. */
  function Replay(base: Files, log: seq<Entry>): (files: Files) {
    if log == [] then base
    else
      var earlier := Replay(base, log[..|log| - 1]);
      match log[|log| - 1]
      case Commit(_, target, _, file, _, _) => earlier[target := file]
      case Foreign(visible) => visible
  }

  /** Entry `k` replaced what the entries before it had left at its destination, and its conditions held. */
  predicate Linked(s: State, k: int)
    requires 0 <= k < |s.log|
  {
    s.log[k].Commit? ==>
      && s.log[k].before == Lookup(Replay(s.base, s.log[..k]), s.log[k].target)
      && ConditionsMet(s.log[k].before, s.log[k].ifMatch, s.log[k].ifNoneMatch)
  }

  ghost predicate History(s: State) {
    && VisibleFiles(s.files) == Replay(s.base, s.log)
    && forall k :: 0 <= k < |s.log| ==> Linked(s, k)
  }

  lemma {:induction false} LookupVisible(files: Files, p: Path)
    requires p.Visible?
    ensures Lookup(VisibleFiles(files), p) == Lookup(files, p)
  {
  }

  lemma {:induction false} ReplayMore(base: Files, log: seq<Entry>, e: Entry)
    ensures Replay(base, log + [e]) ==
            match e case Commit(_, target, _, file, _, _) => Replay(base, log)[target := file] case Foreign(v) => v
  {
    assert (log + [e])[..|log|] == log;
  }

  /** One more entry extends the history when it records the visible change it made. */
  lemma {:induction false} HistoryGrows(s: State, s': State, e: Entry)
    requires History(s) && s'.base == s.base && s'.log == s.log + [e]
    requires VisibleFiles(s'.files) == Replay(s.base, s.log + [e])
    requires e.Commit? ==> e.target.Visible? && e.before == Lookup(s.files, e.target)
                           && ConditionsMet(e.before, e.ifMatch, e.ifNoneMatch)
    ensures History(s')
  {
    hide ConditionsMet, Replay, VisibleFiles, Lookup;
    forall k | 0 <= k < |s'.log|
      ensures Linked(s', k)
    {
      if k < |s.log| {
        assert Linked(s, k);
        assert s'.log[..k] == s.log[..k];
      } else {
        assert s'.log[..k] == s.log;
        if e.Commit? {
          LookupVisible(s.files, e.target);
        }
      }
    }
  }

  lemma {:induction false} RenameIsVisible(files: Files, temp: Path, target: Path)
    requires temp.Staging? && temp in files && target.Visible?
    ensures VisibleFiles(Renamed(files, temp, target)) == VisibleFiles(files)[target := files[temp]]
  {
  }

  /** Effects that leave the log alone leave the visible files alone. */
  lemma {:induction false} HiddenKeepsHistory(s: State, s': State)
    requires History(s) && s'.log == s.log && s'.base == s.base && VisibleFiles(s'.files) == VisibleFiles(s.files)
    ensures History(s')
  {
    hide ConditionsMet, Replay, VisibleFiles;
    forall k | 0 <= k < |s'.log|
      ensures Linked(s', k)
    {
      assert Linked(s, k);
    }
  }

  lemma {:induction false} PublishKeepsHistory(s: State, s': State, temp: Path, target: Path)
    requires History(s) && s'.base == s.base
    requires temp.Staging? && temp in s.files && target.Visible? && s'.files == Renamed(s.files, temp, target)
    requires |s'.log| == |s.log| + 1 && s'.log[..|s.log|] == s.log
    requires var e := s'.log[|s.log|];
             e.Commit? && e.target == target && e.before == Lookup(s.files, target) && e.file == s.files[temp]
             && ConditionsMet(e.before, e.ifMatch, e.ifNoneMatch)
    ensures History(s')
  {
    hide ConditionsMet, Linked;
    var e := s'.log[|s.log|];
    assert s'.log == s.log + [e];
    RenameIsVisible(s.files, temp, target);
    ReplayMore(s.base, s.log, e);
    HistoryGrows(s, s', e);
  }

  lemma {:induction false} HiddenEffect(s: State, e: Effect)
    requires Enabled(s, e) && !e.Publish? && !e.PlainPublish? && !e.Mutate?
    ensures Apply(s, e).log == s.log && Apply(s, e).base == s.base
    ensures VisibleFiles(Apply(s, e).files) == VisibleFiles(s.files)
  {
    hide ConditionsMet, Evidence;
  }

  lemma {:induction false} EffectKeepsHistory(s: State, e: Effect)
    requires Inv(s) && History(s) && Enabled(s, e)
    ensures History(Apply(s, e))
  {
    hide ConditionsMet, AtMostOneEffect, Truthful, Linked, Replay, Evidence, Unpublished, VisibleFiles, UniqueInodes;
    var s' := Apply(s, e);
    match e
    case Publish =>
      assert PendingSound(s, s.pending.value);
      PublishKeepsHistory(s, s', s.pending.value.temporary.value, s.pending.value.target);
    case PlainPublish(temp, target, _, _) =>
      PublishKeepsHistory(s, s', temp, target);
    case Mutate(files) =>
      ReplayMore(s.base, s.log, s'.log[|s.log|]);
      HistoryGrows(s, s', s'.log[|s.log|]);
    case _ =>
      HiddenEffect(s, e);
      HiddenKeepsHistory(s, s');
  }

  lemma {:induction false} RunKeepsHistory(run: seq<State>, i: nat)
    requires IsRun(run) && i < |run|
    ensures History(run[i])
  {
    if i > 0 {
      hide Enabled, Apply, Inv, History;
      RunKeepsHistory(run, i - 1);
      RunKeepsInv(run, i - 1);
      assert Next(run[i - 1], run[i - 1 + 1]);
      var e :| Enabled(run[i - 1], e) && run[i] == Apply(run[i - 1], e);
      EffectKeepsHistory(run[i - 1], e);
    }
  }

  /** No lost update. Whenever a write guarded by an If-Match list was published, the file it replaced is the
      one that all earlier changes had left at its destination, and the list names that file's revision. */
  lemma {:induction false} NoLostUpdate(run: seq<State>, i: nat, k: nat, tags: seq<P.Tag>)
    requires IsRun(run) && i < |run| && k < |run[i].log|
    requires run[i].log[k].Commit? && run[i].log[k].ifMatch != ""
    ensures var c := run[i].log[k];
            && c.before.Some?
            && c.before == Lookup(Replay(run[i].base, run[i].log[..k]), c.target)
            && (P.Denotes(c.ifMatch, tags) ==> P.Selects(tags, Revision(c.before.value.content), false))
  {
    RunKeepsHistory(run, i);
    var c := run[i].log[k];
    assert Linked(run[i], k);
    var revision := if c.before.Some? then Revision(c.before.value.content) else "";
    P.ConditionsMean(c.before.Some?, c.ifMatch, c.ifNoneMatch, revision, tags, []);
  }

  predicate Touches(e: Entry, p: Path) {
    e.Foreign? || e.target == p
  }

  lemma {:induction false} ReplayUntouched(base: Files, log: seq<Entry>, j: nat, p: Path)
    requires j < |log| && log[j].Commit? && log[j].target == p
    requires forall m :: j < m < |log| ==> !Touches(log[m], p)
    ensures Lookup(Replay(base, log), p) == Some(log[j].file)
    decreases |log|
  {
    var init := log[..|log| - 1];
    if j < |log| - 1 {
      assert !Touches(log[|log| - 1], p);
      assert forall m :: j < m < |init| ==> init[m] == log[m];
      ReplayUntouched(base, init, j, p);
    }
  }

  /** Guarded writes form a chain: between one published write and the next guarded write to the same
      path, with no other change of that path, the second one names the revision the first one produced. So of
      two writers that start from the same revision, only one is published. */
  lemma {:induction false} GuardedWritesChain(run: seq<State>, i: nat, j: nat, k: nat, tags: seq<P.Tag>)
    requires IsRun(run) && i < |run| && j < k < |run[i].log|
    requires run[i].log[j].Commit? && run[i].log[k].Commit? && run[i].log[j].target == run[i].log[k].target
    requires forall m :: j < m < k ==> !Touches(run[i].log[m], run[i].log[j].target)
    requires P.Denotes(run[i].log[k].ifMatch, tags) && run[i].log[k].ifMatch != ""
    ensures P.Selects(tags, Revision(run[i].log[j].file.content), false)
    ensures run[i].log[j].ifMatch == run[i].log[k].ifMatch && |tags| == 1 ==>
              run[i].log[j].before.Some? && run[i].log[j].before.value.content == run[i].log[j].file.content
  {
    var log := run[i].log;
    var upto := log[..k];
    assert forall m :: 0 <= m < k ==> upto[m] == log[m];
    ReplayUntouched(run[i].base, upto, j, log[j].target);
    NoLostUpdate(run, i, k, tags);
    if log[j].ifMatch == log[k].ifMatch && |tags| == 1 {
      NoLostUpdate(run, i, j, tags);
      RevisionIdentifiesContent(log[j].before.value.content, log[j].file.content);
    }
  }

  // ---------------------------------------------------------------- what recovery decides

  /** The receipt recovery writes for an unsettled attempt, from what it finds on disk. */
  function RecoveryVerdict(files: Files, r: Record): (v: (Phase, int)) {
    if r.state == Receiving then (Interrupted, 408)
    else if r.temporary.Some? && r.temporary.value in files then (Interrupted, 408)
    else if Evidence(files, r) then (Committed, 201)
    else (Uncertain, 503)
  }

  /** After any run, recovery says `committed` exactly when the rename happened. A recovery that is itself cut
      short after removing the staging file still gets that right, but says `uncertain` instead of
      `interrupted` the next time: its verdict is unchanged exactly when there was no prepared staging file. */
  lemma {:induction false} RecoveryIsExact(run: seq<State>, i: nat)
    requires IsRun(run) && i < |run| && run[i].pending.Some? && run[i].pending.value.id !in run[i].receipts
    ensures var s := run[i]; var r := s.pending.value;
            RecoveryVerdict(s.files, r).0 == Committed <==> HasEffect(s.log, r.id)
    ensures var s := run[i]; var r := s.pending.value;
            r.temporary.Some? ==>
              var again := RecoveryVerdict(s.files - {r.temporary.value}, r);
              && (again.0 == Committed <==> HasEffect(s.log, r.id))
              && (again == RecoveryVerdict(s.files, r) <==> !(r.state == Prepared && r.temporary.value in s.files))
  {
    RunKeepsInv(run, i);
    assert PendingSound(run[i], run[i].pending.value);
  }

  /** Such a recovery happens: from an empty disk, an upload that is cut short once it is prepared is `interrupted`;
      a recovery that is itself cut short after it removed the staging file makes it `uncertain`. */
  lemma {:induction false} InterruptedBecomesUncertain(id: string, f: Fingerprint, content: seq<byte>)
    returns (run: seq<State>)
    requires f.sha == Sha256(content) && f.size == |content|
    ensures IsRun(run) && |run| >= 2
    ensures var first, second := run[|run| - 2], run[|run| - 1];
            && first.pending.Some? && second.pending == first.pending && first.receipts == map[]
            && first.pending.value.id == id && first.pending.value.temporary.Some?
            && Enabled(first, Discard(first.pending.value.temporary.value))
            && second == Apply(first, Discard(first.pending.value.temporary.value))
            && RecoveryVerdict(first.files, first.pending.value) == (Interrupted, 408)
            && RecoveryVerdict(second.files, second.pending.value) == (Uncertain, 503)
  {
    hide ConditionsMet, VisibleFiles, Dir;
    run := L.PreparedRun(id, f, content, None);
    run := L.Extend(run, Discard(Staging(Dir(f.path), 0)));
  }
}
