/**
 The durable upload protocol at the level of single durable effects: which journal write, staging write,
 rename or removal may follow which, judged only by what is on disk. A run is any sequence of such effects,
 so a crash between two effects is simply a run that goes on with the effects of the next lock holder.

 Assumptions made here: a journal write replaces its file atomically; inode numbers of files that exist at
 the same time are distinct, but numbers are reused; staging names are outside the visible namespace; every
 writer holds the namespace lock, so effects do not overlap.
 */
module UploadProtocol {
  import opened Content
  import P = Preconditions

  /** Staging files live beside their destination, under a reserved prefix that requests cannot name and a random
      text of fixed length; `serial` stands for that text. */
  datatype Path = Visible(name: string) | Staging(dir: string, serial: nat)

  /** The length of the text of a device number and an inode number of 64 bits each, with a colon between them. */
  type IdentityWidth = n: nat | 3 <= n <= 41 witness 3

  /** A file's identity: only its equality with another, and how long its text is, matter. */
  datatype Inode = Inode(serial: nat, width: IdentityWidth)

  datatype File = File(inode: Inode, content: seq<byte>)

  type Files = map<Path, File>

  datatype Phase = Receiving | Prepared | Committed | Rejected | Interrupted | Uncertain

  predicate Terminal(phase: Phase) {
    phase != Receiving && phase != Prepared
  }

  /** The request parameters an Upload-Id is bound to; the digest of their encoding identifies them. */
  datatype Fingerprint = Fingerprint(path: string, size: nat, sha: Digest, ifMatch: string, ifNoneMatch: string)

  /** The length of a time in UTC written as RFC 3339 with up to nine fractional digits. */
  type StampLength = n: nat | 20 <= n <= 30 witness 20

  /** A record of the journal. Of its two times only the length of their text matters. */
  datatype Record = Record(
    id: string,
    fingerprint: Fingerprint,
    state: Phase,
    status: int,
    size: nat,
    sha: Digest,
    target: Path,
    temporary: Option<Path>,
    identity: Option<Inode>,
    revision: Option<string>,
    startedAt: StampLength,
    completedAt: Option<StampLength>)

  const RECEIPT_LIMIT := 4096

  /** One entry per change of the visible namespace: a published upload, or any other locked mutation. */
  datatype Entry =
    | Commit(id: Option<string>, target: Path, before: Option<File>, file: File, ifMatch: string, ifNoneMatch: string)
    | Foreign(visible: Files)

  /** The disk (`files`, `pending`, `receipts`) and the history of what became visible since `base`. `slot` is the
      identity of the journal file that holds the pending record: every write of the record makes a new file. */
  datatype State = State(
    files: Files,
    pending: Option<Record>,
    slot: nat,
    receipts: map<string, Record>,
    log: seq<Entry>,
    base: Files)

  function VisibleFiles(files: Files): (v: Files) {
    map p | p in files && p.Visible? :: files[p]
  }

  function Lookup(files: Files, p: Path): (f: Option<File>) {
    if p in files then Some(files[p]) else None
  }

  predicate UniqueInodes(files: Files) {
    forall p, q :: p in files && q in files && files[p].inode == files[q].inode ==> p == q
  }

  predicate FreshInode(files: Files, inode: Inode) {
    forall p :: p in files ==> files[p].inode != inode
  }

  /** The conditions of a request hold of the file it is about to replace. */
  predicate ConditionsMet(before: Option<File>, ifMatch: string, ifNoneMatch: string) {
    P.ConditionStatus(before.Some?, ifMatch, ifNoneMatch,
      Some(if before.Some? then Revision(before.value.content) else "")) == 0
  }

  /** What recovery accepts as proof that the prepared rename happened. */
  predicate Evidence(files: Files, r: Record) {
    && r.temporary.Some? && r.temporary.value !in files
    && r.target in files
    && r.identity == Some(files[r.target].inode)
    && Sha256(files[r.target].content) == r.sha
    && |files[r.target].content| == r.size
  }

  /** The directory part of a path, empty if it has none. */
  function Dir(name: string): (dir: string) {
    if name == "" then "" else if name[|name| - 1] == '/' then name[..|name| - 1] else Dir(name[..|name| - 1])
  }

  /** A staging name beside the destination of the record. */
  predicate Beside(temp: Path, r: Record) {
    temp.Staging? && temp.dir == Dir(r.fingerprint.path)
  }

  /** What the code ever puts into a record: the request's own parameters, a staging name beside its destination, a
      status of at most three digits, and a revision only of a committed upload. */
  predicate Shaped(r: Record) {
    && r.target == Visible(r.fingerprint.path) && r.size == r.fingerprint.size && r.sha == r.fingerprint.sha
    && 0 <= r.status < 1000
    && (r.temporary.Some? ==> Beside(r.temporary.value, r))
    && (r.revision.Some? ==> r.state == Committed)
  }

  datatype Effect =
    | Admit(record: Record, file: nat)
    | Stage(temp: Path, inode: Inode)
    | NoteStaging(temp: Path, file: nat)
    | Fill(temp: Path, content: seq<byte>)
    | Prepare(temp: Path, file: nat)
    | Publish
    | Discard(temp: Path)
    | Settle(record: Record)
    | Clear
    | PlainPublish(temp: Path, target: Path, ifMatch: string, ifNoneMatch: string)
    | Mutate(files: Files)

  /** The attempt on disk may still change its staging file. */
  predicate Open(s: State) {
    s.pending.Some? ==> s.pending.value.state == Receiving
  }

  predicate Enabled(s: State, e: Effect) {
    match e
    case Admit(r, _) =>
      s.pending.None? && Shaped(r) && r.state == Receiving && r.temporary.None? &&
      r.id !in s.receipts && |s.receipts| < RECEIPT_LIMIT
    case Stage(temp, inode) => Open(s) && temp.Staging? && temp !in s.files && FreshInode(s.files, inode)
    case NoteStaging(temp, file) =>
      s.pending.Some? && s.pending.value.state == Receiving && Beside(temp, s.pending.value) && file != s.slot
    case Fill(temp, _) => Open(s) && temp.Staging? && temp in s.files
    case Prepare(temp, file) =>
      s.pending.Some? && s.pending.value.state == Receiving &&
      Beside(temp, s.pending.value) && temp in s.files && file != s.slot &&
      Sha256(s.files[temp].content) == s.pending.value.sha && |s.files[temp].content| == s.pending.value.size
    case Publish =>
      s.pending.Some? && var r := s.pending.value;
      r.state == Prepared && r.id !in s.receipts && r.temporary.Some? && r.temporary.value in s.files &&
      ConditionsMet(Lookup(s.files, r.target), r.fingerprint.ifMatch, r.fingerprint.ifNoneMatch)
    case Discard(temp) => temp.Staging?
    case Settle(t) =>
      s.pending.Some? && var r := s.pending.value;
      t.id == r.id && t.fingerprint == r.fingerprint && t.sha == r.sha && t.size == r.size &&
      r.id !in s.receipts && Terminal(t.state) && Shaped(t) &&
      (t.state == Committed <==> r.state == Prepared && Evidence(s.files, r)) &&
      (t.state == Committed ==> t.target == r.target && t.revision == Some(DigestRevision(t.sha)))
    case Clear => s.pending.Some? && s.pending.value.id in s.receipts
    case PlainPublish(temp, target, ifMatch, ifNoneMatch) =>
      s.pending.None? && temp.Staging? && temp in s.files && target.Visible? &&
      ConditionsMet(Lookup(s.files, target), ifMatch, ifNoneMatch)
    case Mutate(files) => s.pending.None? && UniqueInodes(files)
  }

  /** Moves the file at `temp` onto `target`. */
  function Renamed(files: Files, temp: Path, target: Path): (r: Files)
    requires temp in files
  {
    (files - {temp})[target := files[temp]]
  }

  function Apply(s: State, e: Effect): (s': State)
    requires Enabled(s, e)
  {
    match e
    case Admit(r, file) => s.(pending := Some(r), slot := file)
    case Stage(temp, inode) => s.(files := s.files[temp := File(inode, [])])
    case NoteStaging(temp, file) => s.(pending := Some(s.pending.value.(temporary := Some(temp))), slot := file)
    case Fill(temp, content) => s.(files := s.files[temp := File(s.files[temp].inode, content)])
    case Prepare(temp, file) =>
      s.(pending := Some(s.pending.value.(
           state := Prepared, temporary := Some(temp), identity := Some(s.files[temp].inode))),
         slot := file)
    case Publish =>
      var r := s.pending.value;
      var temp := r.temporary.value;
      s.(files := Renamed(s.files, temp, r.target),
         log := s.log + [Commit(Some(r.id), r.target, Lookup(s.files, r.target), s.files[temp],
                                r.fingerprint.ifMatch, r.fingerprint.ifNoneMatch)])
    case Discard(temp) => s.(files := s.files - {temp})
    case Settle(t) => s.(receipts := s.receipts[t.id := t])
    case Clear => s.(pending := None)
    case PlainPublish(temp, target, ifMatch, ifNoneMatch) =>
      s.(files := Renamed(s.files, temp, target),
         log := s.log + [Commit(None, target, Lookup(s.files, target), s.files[temp], ifMatch, ifNoneMatch)])
    case Mutate(files) => s.(files := files, log := s.log + [Foreign(VisibleFiles(files))])
  }

  /** An empty journal over any file tree. */
  predicate Initial(s: State) {
    s.pending.None? && s.receipts == map[] && s.log == [] && UniqueInodes(s.files) && s.base == VisibleFiles(s.files)
  }

  ghost predicate Next(s: State, s': State) {
    exists e :: Enabled(s, e) && s' == Apply(s, e)
  }

  ghost predicate IsRun(run: seq<State>) {
    run != [] && Initial(run[0]) && forall i :: 0 <= i < |run| - 1 ==> Next(run[i], run[i + 1])
  }

  // ---------------------------------------------------------------- invariant

  /** Entry `i` of the log is the rename of upload `id`. */
  predicate EffectAt(log: seq<Entry>, i: int, id: string) {
    0 <= i < |log| && log[i].Commit? && log[i].id == Some(id)
  }

  ghost predicate HasEffect(log: seq<Entry>, id: string) {
    exists i :: EffectAt(log, i, id)
  }

  ghost predicate AtMostOneEffect(log: seq<Entry>) {
    forall i, j, id :: EffectAt(log, i, id) && EffectAt(log, j, id) ==> i == j
  }

  /** The rename a committed receipt speaks of: same destination, digest and length. */
  predicate Published(e: Entry, t: Record) {
    e.Commit? && e.id == Some(t.id) && e.target == t.target && Sha256(e.file.content) == t.sha
      && |e.file.content| == t.size
  }

  /** A terminal receipt says `committed` exactly when its upload was renamed, and then names what was. */
  ghost predicate Truthful(s: State, id: string)
    requires id in s.receipts
  {
    var t := s.receipts[id];
    && t.id == id && Terminal(t.state)
    && (t.state == Committed <==> HasEffect(s.log, id))
    && (t.state == Committed ==>
          t.revision == Some(DigestRevision(t.sha)) && exists i :: 0 <= i < |s.log| && Published(s.log[i], t))
  }

  /** The id was admitted: its record is in the pending slot or among the terminal receipts. */
  predicate Known(s: State, id: string) {
    (s.pending.Some? && s.pending.value.id == id) || id in s.receipts
  }

  /** A prepared attempt that has not been renamed: its staging file is intact, or it is gone and the
      destination is some other file. */
  predicate Unpublished(files: Files, r: Record) {
    && r.temporary.Some? && r.identity.Some?
    && if r.temporary.value in files then
         var f := files[r.temporary.value];
         f.inode == r.identity.value && Sha256(f.content) == r.sha && |f.content| == r.size
       else
         r.target in files ==> files[r.target].inode != r.identity.value
  }

  /** The unsettled attempt in the pending slot. */
  ghost predicate PendingSound(s: State, r: Record) {
    && r.target.Visible?
    && (r.temporary.Some? ==> r.temporary.value.Staging?)
    && (r.state == Receiving || r.state == Prepared)
    && (r.state == Receiving ==> !HasEffect(s.log, r.id))
    && (r.state == Prepared && !HasEffect(s.log, r.id) ==> Unpublished(s.files, r))
    && (r.state == Prepared && HasEffect(s.log, r.id) ==>
          Evidence(s.files, r) && s.log != [] && Published(s.log[|s.log| - 1], r))
  }

  /** Receipts there are, plus the one the pending attempt is entitled to. */
  function Committable(s: State): nat {
    |s.receipts| + if s.pending.Some? && s.pending.value.id !in s.receipts then 1 else 0
  }

  ghost predicate Inv(s: State) {
    && UniqueInodes(s.files)
    && AtMostOneEffect(s.log)
    && (forall id :: HasEffect(s.log, id) ==> Known(s, id))
    && (forall id :: id in s.receipts ==> Truthful(s, id))
    && (s.pending.Some? && s.pending.value.id !in s.receipts ==> PendingSound(s, s.pending.value))
    && (s.pending.Some? && s.pending.value.id in s.receipts ==>
          s.receipts[s.pending.value.id].fingerprint == s.pending.value.fingerprint)
    && Committable(s) <= RECEIPT_LIMIT
  }

  // ---------------------------------------------------------------- every effect keeps the invariant

  lemma {:induction false} AppendedEffects(log: seq<Entry>, e: Entry, id: string)
    ensures HasEffect(log + [e], id) <==> HasEffect(log, id) || (e.Commit? && e.id == Some(id))
    ensures forall i :: EffectAt(log + [e], i, id) <==>
              EffectAt(log, i, id) || (i == |log| && e.Commit? && e.id == Some(id))
  {
    var more := log + [e];
    assert forall i :: 0 <= i < |log| ==> more[i] == log[i];
    assert forall i :: EffectAt(log, i, id) ==> EffectAt(more, i, id);
    if HasEffect(more, id) {
      var i :| EffectAt(more, i, id);
      assert i < |log| ==> EffectAt(log, i, id);
    }
    if e.Commit? && e.id == Some(id) {
      assert EffectAt(more, |log|, id);
    }
  }

  /** Receipts stay truthful when the log grows by an entry that is not the rename of their upload. */
  lemma {:induction false} StillTruthful(s: State, s': State, e: Entry)
    requires s'.receipts == s.receipts && s'.log == s.log + [e]
    requires forall id :: id in s.receipts ==> Truthful(s, id)
    requires e.Commit? && e.id.Some? ==> e.id.value !in s.receipts
    ensures forall id :: id in s'.receipts ==> Truthful(s', id)
  {
    forall id | id in s'.receipts
      ensures Truthful(s', id)
    {
      assert Truthful(s, id);
      AppendedEffects(s.log, e, id);
      var t := s.receipts[id];
      if t.state == Committed {
        var i :| 0 <= i < |s.log| && Published(s.log[i], t);
        assert s'.log[i] == s.log[i];
      }
    }
  }

  lemma {:induction false} SameHistory(s: State, s': State)
    requires s'.receipts == s.receipts && s'.log == s.log
    requires forall id :: id in s.receipts ==> Truthful(s, id)
    ensures forall id :: id in s'.receipts ==> Truthful(s', id)
  {
    forall id | id in s'.receipts
      ensures Truthful(s', id)
    {
      assert Truthful(s, id);
    }
  }

  lemma {:induction false} AdmitKeepsInv(s: State, r: Record, file: nat)
    requires Inv(s) && Enabled(s, Admit(r, file))
    ensures Inv(Apply(s, Admit(r, file)))
  {
    hide ConditionsMet, DigestRevision;
    assert !HasEffect(s.log, r.id);
    SameHistory(s, Apply(s, Admit(r, file)));
  }

  /** Writing a staging file, which only an attempt that is not yet prepared does. */
  lemma {:induction false} StagingKeepsInv(s: State, e: Effect)
    requires Inv(s) && Enabled(s, e) && (e.Stage? || e.Fill?)
    ensures Inv(Apply(s, e))
  {
    hide ConditionsMet, DigestRevision, Evidence, Unpublished, AtMostOneEffect;
    var s' := Apply(s, e);
    assert UniqueInodes(s'.files);
    SameHistory(s, s');
  }

  /** Removing a staging file, prepared or not. */
  lemma {:induction false} DiscardKeepsInv(s: State, temp: Path)
    requires Inv(s) && Enabled(s, Discard(temp))
    ensures Inv(Apply(s, Discard(temp)))
  {
    hide ConditionsMet, DigestRevision, AtMostOneEffect;
    var s' := Apply(s, Discard(temp));
    SameHistory(s, s');
    if s.pending.Some? && s.pending.value.id !in s.receipts {
      DiscardKeepsPending(s, temp, s.pending.value);
    }
  }

  lemma {:induction false} DiscardKeepsPending(s: State, temp: Path, r: Record)
    requires UniqueInodes(s.files) && temp.Staging? && PendingSound(s, r)
    ensures PendingSound(s.(files := s.files - {temp}), r)
  {
  }

  lemma {:induction false} JournalKeepsInv(s: State, e: Effect)
    requires Inv(s) && Enabled(s, e) && (e.NoteStaging? || e.Prepare? || e.Clear?)
    ensures Inv(Apply(s, e))
  {
    hide ConditionsMet, DigestRevision, AtMostOneEffect;
    SameHistory(s, Apply(s, e));
  }

  lemma {:induction false} SettleKeepsInv(s: State, t: Record)
    requires Inv(s) && Enabled(s, Settle(t))
    ensures Inv(Apply(s, Settle(t)))
  {
    hide ConditionsMet, DigestRevision;
    var s' := Apply(s, Settle(t));
    var r := s.pending.value;
    assert PendingSound(s, r);
    assert HasEffect(s.log, r.id) <==> t.state == Committed;
    forall id | id in s'.receipts
      ensures Truthful(s', id)
    {
      if id == t.id {
        if t.state == Committed {
          assert Published(s'.log[|s.log| - 1], t);
        }
      } else {
        assert Truthful(s, id);
      }
    }
    assert |s'.receipts| == |s.receipts| + 1;
  }

  lemma {:induction false} PublishKeepsInv(s: State)
    requires Inv(s) && Enabled(s, Publish)
    ensures Inv(Apply(s, Publish))
  {
    hide ConditionsMet, DigestRevision;
    var s' := Apply(s, Publish);
    var r := s.pending.value;
    var e := s'.log[|s.log|];
    assert PendingSound(s, r);
    assert r.temporary.value in s.files;
    assert !HasEffect(s.log, r.id) && Unpublished(s.files, r);
    forall id
      ensures HasEffect(s'.log, id) ==> Known(s', id)
    {
      AppendedEffects(s.log, e, id);
    }
    OneMoreEffect(s.log, e);
    StillTruthful(s, s', e);
    AppendedEffects(s.log, e, r.id);
    assert PendingSound(s', r);
  }

  lemma {:induction false} OneMoreEffect(log: seq<Entry>, e: Entry)
    requires AtMostOneEffect(log)
    requires e.Commit? && e.id.Some? ==> !HasEffect(log, e.id.value)
    ensures AtMostOneEffect(log + [e])
  {
    forall i, j, id | EffectAt(log + [e], i, id) && EffectAt(log + [e], j, id)
      ensures i == j
    {
      AppendedEffects(log, e, id);
    }
  }

  /** Changes made while no upload is pending: the rename of an upload without an id, or any other mutation. */
  lemma {:induction false} QuietKeepsInv(s: State, e: Effect)
    requires Inv(s) && Enabled(s, e) && (e.PlainPublish? || e.Mutate?)
    ensures Inv(Apply(s, e))
  {
    hide ConditionsMet, DigestRevision;
    var s' := Apply(s, e);
    var entry := s'.log[|s.log|];
    forall id
      ensures HasEffect(s'.log, id) ==> Known(s', id)
    {
      AppendedEffects(s.log, entry, id);
    }
    OneMoreEffect(s.log, entry);
    StillTruthful(s, s', entry);
  }

  lemma {:induction false} EffectKeepsInv(s: State, e: Effect)
    requires Inv(s) && Enabled(s, e)
    ensures Inv(Apply(s, e))
  {
    match e
    case Admit(r, file) => AdmitKeepsInv(s, r, file);
    case Stage(_, _) => StagingKeepsInv(s, e);
    case Fill(_, _) => StagingKeepsInv(s, e);
    case Discard(temp) => DiscardKeepsInv(s, temp);
    case NoteStaging(_, _) => JournalKeepsInv(s, e);
    case Prepare(_, _) => JournalKeepsInv(s, e);
    case Clear => JournalKeepsInv(s, e);
    case Settle(t) => SettleKeepsInv(s, t);
    case Publish => PublishKeepsInv(s);
    case PlainPublish(_, _, _, _) => QuietKeepsInv(s, e);
    case Mutate(_) => QuietKeepsInv(s, e);
  }

  lemma {:induction false} RunKeepsInv(run: seq<State>, i: nat)
    requires IsRun(run) && i < |run|
    ensures Inv(run[i])
  {
    if i == 0 {
      assert forall id :: !HasEffect(run[0].log, id);
    } else {
      hide Enabled, Apply, Inv;
      RunKeepsInv(run, i - 1);
      assert Next(run[i - 1], run[i - 1 + 1]);
      var e :| Enabled(run[i - 1], e) && run[i] == Apply(run[i - 1], e);
      EffectKeepsInv(run[i - 1], e);
    }
  }
}
