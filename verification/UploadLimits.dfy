/**
 What the journal can read back. A record is written whatever its size, and refused by every later read if it is
 longer than the read limit; a pending record that is refused blocks recovery, and with it every later mutation. The
 length of a record is that of its JSON text (filesystem/receipts.go:33-51), so a caller can compute from the request
 how long its records can get.
 */
module UploadLimits {
  import opened Content
  import opened JsonText
  import opened UploadProtocol
  import J = JournalFile

  // ---------------------------------------------------------------- the length of a record

  function PhaseText(state: Phase): (text: string) {
    match state
    case Receiving => "receiving"
    case Prepared => "prepared"
    case Committed => "committed"
    case Rejected => "rejected"
    case Interrupted => "interrupted"
    case Uncertain => "uncertain"
  }

  /** A member of the JSON object, with its quotes and colon and the brace or comma before it. */
  function Member(key: string, value: nat): (n: nat) {
    |key| + 4 + value
  }

  /** A quoted text whose length is known, which a record leaves out if it has none. */
  function Optional(key: string, length: Option<nat>): (n: nat) {
    if length.Some? then Member(key, length.value + 2) else 0
  }

  /** A digest is written as 64 characters, a revision as that with seven more between escaped quotes. */
  const DIGEST_LENGTH: nat := 64
  const REVISION_LENGTH: nat := 75

  /** The reserved prefix and the random text of a staging name. */
  const STAGING_NAME_LENGTH: nat := 42

  function PathLength(p: Path): (n: nat) {
    match p
    case Visible(name) => TextLength(name)
    case Staging(dir, _) => if dir == "" then STAGING_NAME_LENGTH else TextLength(dir) + 1 + STAGING_NAME_LENGTH
  }

  /** The members that the request fixes. */
  function RequestLength(r: Record): (n: nat) {
    Member("id", Quoted(r.id)) + Member("path", Quoted(r.fingerprint.path))
    + Member("size_bytes", Digits(r.size) + 2) + Member("sha256", DIGEST_LENGTH + 2)
    + Member("fingerprint", DIGEST_LENGTH + 2)
    + Optional("target", if PathLength(r.target) > 0 then Some(PathLength(r.target)) else None)
  }

  /** The members that change as the upload goes on. */
  function ProgressLength(r: Record): (n: nat)
    requires r.status >= 0
  {
    Member("state", |PhaseText(r.state)| + 2) + Member("status", Digits(r.status))
    + Optional("revision", if r.revision.Some? then Some(REVISION_LENGTH) else None)
    + Member("started_at", r.startedAt + 2)
    + Optional("completed_at", if r.completedAt.Some? then Some(r.completedAt.value) else None)
    + Optional("temporary", if r.temporary.Some? then Some(PathLength(r.temporary.value)) else None)
    + Optional("file_identity", if r.identity.Some? then Some(r.identity.value.width) else None)
  }

  /** The length of the JSON text of a record, closing brace included. */
  function EncodedLength(r: Record): (n: nat)
    requires r.status >= 0
  {
    RequestLength(r) + ProgressLength(r) + 1
  }

  predicate Readable(r: Record) {
    r.status >= 0 && EncodedLength(r) <= J.READ_LIMIT
  }

  /** The longest record an upload can leave behind: its committed receipt. */
  function Longest(id: string, f: Fingerprint): (r: Record) {
    Record(id, f, Committed, 201, f.size, f.sha, Visible(f.path), Some(Staging(Dir(f.path), 0)),
           Some(Inode(0, 41)), Some(DigestRevision(f.sha)), 30, Some(30))
  }

  /** What a caller can check before the PUT. */
  predicate Fits(id: string, f: Fingerprint) {
    Readable(Longest(id, f))
  }

  /** No record of an upload is longer than its committed receipt with the longest times and file identity. */
  lemma {:induction false} LongestBounds(r: Record)
    requires Shaped(r)
    ensures EncodedLength(r) <= EncodedLength(Longest(r.id, r.fingerprint))
  {
    ThreeDigits(r.status);
    ThreeDigits(201);
    hide TextLength, Digits, Dir, RequestLength, DigestRevision, PathLength;
    assert |PhaseText(r.state)| <= 11 && |PhaseText(Committed)| == 9;
    hide PhaseText;
    var t := Longest(r.id, r.fingerprint);
    if r.temporary.Some? {
      SamePlace(r);
    }
    assert RequestLength(r) == RequestLength(Longest(r.id, r.fingerprint)) by {
      SameRequest(r, Longest(r.id, r.fingerprint));
    }
  }

  /** All staging names beside a destination are equally long. */
  lemma {:induction false} SamePlace(r: Record)
    requires Shaped(r) && r.temporary.Some?
    ensures PathLength(r.temporary.value) == PathLength(Staging(Dir(r.fingerprint.path), 0))
  {
  }

  lemma {:induction false} SameRequest(r: Record, t: Record)
    requires r.id == t.id && r.fingerprint == t.fingerprint && r.size == t.size && r.target == t.target
    ensures RequestLength(r) == RequestLength(t)
  {
  }

  // ---------------------------------------------------------------- what recovery can read

  /** Recovery can read what it needs: the pending record, and the receipt of the same upload if there is one. */
  predicate Legible(s: State) {
    s.pending.Some? ==>
      && Readable(s.pending.value)
      && (s.pending.value.id in s.receipts ==> Readable(s.receipts[s.pending.value.id]))
  }

  ghost predicate WellShaped(s: State) {
    && (s.pending.Some? ==> Shaped(s.pending.value))
    && forall id :: id in s.receipts ==> Shaped(s.receipts[id])
  }

  lemma {:induction false} EffectKeepsShape(s: State, e: Effect)
    requires WellShaped(s) && Enabled(s, e)
    ensures WellShaped(Apply(s, e))
  {
    hide ConditionsMet, Evidence, Dir;
  }

  /** Every record on disk, in every state of every run, is one whose length is bounded. */
  lemma {:induction false} RunKeepsShape(run: seq<State>, i: nat)
    requires IsRun(run) && i < |run|
    ensures WellShaped(run[i])
  {
    if i > 0 {
      hide Enabled, Apply, WellShaped;
      RunKeepsShape(run, i - 1);
      assert Next(run[i - 1], run[i - 1 + 1]);
      var e :| Enabled(run[i - 1], e) && run[i] == Apply(run[i - 1], e);
      EffectKeepsShape(run[i - 1], e);
    }
  }

  /** A request whose longest record fits leaves nothing behind that cannot be read, at any point of any run. */
  lemma {:induction false} FittingIsLegible(run: seq<State>, i: nat)
    requires IsRun(run) && i < |run|
    requires run[i].pending.Some? ==> Fits(run[i].pending.value.id, run[i].pending.value.fingerprint)
    ensures Legible(run[i])
  {
    RunKeepsShape(run, i);
    RunKeepsInv(run, i);
    var s := run[i];
    if s.pending.Some? {
      var r := s.pending.value;
      LongestBounds(r);
      if r.id in s.receipts {
        assert Truthful(s, r.id);
        LongestBounds(s.receipts[r.id]);
      }
    }
    hide EncodedLength;
  }

  /** A receipt on disk can be read if its request fits. */
  lemma {:induction false} FittingReceiptIsReadable(run: seq<State>, i: nat, id: string)
    requires IsRun(run) && i < |run| && id in run[i].receipts && Fits(id, run[i].receipts[id].fingerprint)
    ensures Readable(run[i].receipts[id])
  {
    RunKeepsShape(run, i);
    RunKeepsInv(run, i);
    assert Truthful(run[i], id);
    LongestBounds(run[i].receipts[id]);
    hide EncodedLength;
  }

  // ---------------------------------------------------------------- what it takes to get stuck

  /** The record that an upload is admitted with. */
  function AfterAdmit(id: string, f: Fingerprint): (r: Record) {
    Record(id, f, Receiving, 0, f.size, f.sha, Visible(f.path), None, None, None, 30, None)
  }

  function Disk(f: Fingerprint, before: Option<File>): (files: Files) {
    if before.Some? then map[Visible(f.path) := before.value] else map[]
  }

  lemma {:induction false} Extend(run: seq<State>, e: Effect) returns (more: seq<State>)
    requires IsRun(run) && Enabled(run[|run| - 1], e)
    ensures IsRun(more) && more == run + [Apply(run[|run| - 1], e)]
  {
    hide Enabled, Apply, Initial;
    more := run + [Apply(run[|run| - 1], e)];
    forall i | 0 <= i < |more| - 1
      ensures Next(more[i], more[i + 1])
    {
      if i < |run| - 1 {
        assert Next(run[i], run[i + 1]);
      }
    }
  }

  /** An identity that no file of that disk has. */
  function Unused(before: Option<File>): (inode: Inode) {
    Inode(if before.Some? then before.value.inode.serial + 1 else 0, 41)
  }

  /** A run that admits the upload and creates its staging file beside the destination. */
  lemma {:induction false} CreatedRun(id: string, f: Fingerprint, before: Option<File>) returns (run: seq<State>)
    ensures IsRun(run) && |run| == 3 && run[0].files == Disk(f, before)
    ensures var files := Disk(f, before);
            && run[1] == State(files, Some(AfterAdmit(id, f)), 1, map[], [], VisibleFiles(files))
            && run[2] == run[1].(files := files[Staging(Dir(f.path), 0) := File(Unused(before), [])])
  {
    hide ConditionsMet, Evidence, VisibleFiles, Dir;
    var files := Disk(f, before);
    run := [State(files, None, 0, map[], [], VisibleFiles(files))];
    run := Extend(run, Admit(AfterAdmit(id, f), 1));
    run := Extend(run, Stage(Staging(Dir(f.path), 0), Unused(before)));
  }

  /** The same run with the staging name noted in the pending record and the content written. */
  lemma {:induction false} StagedRun(id: string, f: Fingerprint, content: seq<byte>, before: Option<File>)
    returns (run: seq<State>)
    ensures IsRun(run) && run[0].files == Disk(f, before)
    ensures var temp := Staging(Dir(f.path), 0);
            var files := Disk(f, before);
            run[|run| - 1] == State(files[temp := File(Unused(before), content)],
                                    Some(AfterAdmit(id, f).(temporary := Some(temp))), 2, map[], [],
                                    VisibleFiles(files))
  {
    hide ConditionsMet, Evidence, VisibleFiles, Dir;
    var temp := Staging(Dir(f.path), 0);
    run := CreatedRun(id, f, before);
    run := Extend(run, NoteStaging(temp, 2));
    run := Extend(run, Fill(temp, content));
  }

  /** The same upload prepared: only the rename is missing. */
  lemma {:induction false} PreparedRun(id: string, f: Fingerprint, content: seq<byte>, before: Option<File>)
    returns (run: seq<State>)
    requires f.sha == Sha256(content) && f.size == |content|
    ensures IsRun(run)
    ensures var temp := Staging(Dir(f.path), 0);
            var files := Disk(f, before);
            var r := AfterAdmit(id, f).(state := Prepared, temporary := Some(temp), identity := Some(Unused(before)));
            run[|run| - 1] == State(files[temp := File(Unused(before), content)], Some(r), 3, map[], [],
                                    VisibleFiles(files))
  {
    hide ConditionsMet, VisibleFiles, Dir;
    run := StagedRun(id, f, content, before);
    run := Extend(run, Prepare(Staging(Dir(f.path), 0), 3));
  }

  /** The same upload renamed: only its receipt is missing. */
  lemma {:induction false} PublishedRun(id: string, f: Fingerprint, content: seq<byte>, before: Option<File>)
    returns (run: seq<State>)
    requires f.sha == Sha256(content) && f.size == |content| && ConditionsMet(before, f.ifMatch, f.ifNoneMatch)
    ensures IsRun(run) && run != []
    ensures var s := run[|run| - 1];
            && s.pending == Some(AfterAdmit(id, f).(state := Prepared, temporary := Some(Staging(Dir(f.path), 0)),
                                                    identity := Some(Unused(before))))
            && s.receipts == map[] && Evidence(s.files, s.pending.value)
  {
    hide ConditionsMet, VisibleFiles, Dir;
    run := PreparedRun(id, f, content, before);
    run := Extend(run, Publish);
  }

  /** What completeReceipt makes of a prepared record, at a time that is written in full. */
  function CommittedReceipt(r: Record): (receipt: Record) {
    r.(state := Committed, status := 201, revision := Some(DigestRevision(r.sha)), completedAt := Some(30))
  }

  /** Records that differ in the number of the file alone are equally long. */
  lemma {:induction false} SameLength(r: Record, t: Record)
    requires r.status >= 0 && r.identity.Some? && t.identity.Some? && r.identity.value.width == t.identity.value.width
    requires r == t.(identity := r.identity)
    ensures EncodedLength(r) == EncodedLength(t)
  {
    SameRequest(r, t);
    hide RequestLength, PathLength, Digits;
  }

  /** A request whose longest record does not fit can block all recovery: published and settled, and cut short
      before its slot is freed, it leaves a receipt that the next recovery cannot read. */
  lemma {:induction false} TooLongGetsStuck(id: string, f: Fingerprint, content: seq<byte>, before: Option<File>)
    returns (run: seq<State>)
    requires f.sha == Sha256(content) && f.size == |content| && ConditionsMet(before, f.ifMatch, f.ifNoneMatch)
    requires !Fits(id, f)
    ensures IsRun(run) && run != []
    ensures AttemptAt(run[|run| - 1], id, f) && !Legible(run[|run| - 1])
  {
    hide ConditionsMet, VisibleFiles, Dir, EncodedLength, Evidence, DigestRevision;
    run := PublishedRun(id, f, content, before);
    var receipt := CommittedReceipt(run[|run| - 1].pending.value);
    SameLength(receipt, Longest(id, f));
    run := Extend(run, Settle(receipt));
  }

  /** Whatever happens to an upload, recovery can always read what it left behind, if and only if its longest record
      fits the read limit. */
  lemma {:induction false} LegibleIffFits(id: string, f: Fingerprint, content: seq<byte>, before: Option<File>)
    requires f.sha == Sha256(content) && f.size == |content| && ConditionsMet(before, f.ifMatch, f.ifNoneMatch)
    ensures Fits(id, f) <==>
            forall run: seq<State>, i: nat :: IsRun(run) && i < |run| && AttemptAt(run[i], id, f) ==> Legible(run[i])
  {
    hide ConditionsMet, Readable, IsRun, Legible;
    if Fits(id, f) {
      forall run: seq<State>, i: nat | IsRun(run) && i < |run| && AttemptAt(run[i], id, f)
        ensures Legible(run[i])
      {
        FittingIsLegible(run, i);
      }
    } else {
      var run := TooLongGetsStuck(id, f, content, before);
      assert AttemptAt(run[|run| - 1], id, f) && !Legible(run[|run| - 1]);
    }
  }

  /** The pending record is that of this request. */
  predicate AttemptAt(s: State, id: string, f: Fingerprint) {
    s.pending.Some? && s.pending.value.id == id && s.pending.value.fingerprint == f
  }

  // ---------------------------------------------------------------- an ordinary path that is too long

  /** Four components of 250 ampersands, each of which takes six bytes in a record. */
  function LongPath(): (path: string) {
    var component := Repeat('&', 250);
    component + "/" + (component + "/" + (component + "/" + component))
  }

  lemma {:induction false} DirOf(dir: string, name: string)
    requires forall i :: 0 <= i < |name| ==> name[i] != '/'
    ensures Dir(dir + "/" + name) == dir
  {
    var path := dir + "/" + name;
    if name == "" {
      assert path[..|path| - 1] == dir;
    } else {
      var shorter := name[..|name| - 1];
      assert path[..|path| - 1] == dir + "/" + shorter;
      DirOf(dir, shorter);
    }
  }

  lemma {:induction false} OnlyAmpersands(n: nat)
    ensures forall i :: 0 <= i < n ==> Repeat('&', n)[i] == '&'
  {
    if n > 0 {
      OnlyAmpersands(n - 1);
    }
  }

  lemma {:induction false} JoinedLength(a: string, b: string)
    ensures TextLength(a + "/" + b) == TextLength(a) + 1 + TextLength(b)
  {
    var slash := "/";
    assert TextLength(slash) == 1;
    TextLengthAdds(a, slash);
    TextLengthAdds(a + slash, b);
  }

  /** 1003 characters that take 6003 bytes. */
  lemma {:induction false} LongPathLength()
    ensures |LongPath()| == 1003 && TextLength(LongPath()) == 6003 && TextLength(Dir(LongPath())) == 4502
  {
    hide TextLength, Repeat, Dir;
    var component := Repeat('&', 250);
    RepeatLength('&', 250);
    var two := component + "/" + component;
    var three := component + "/" + two;
    JoinedLength(component, component);
    JoinedLength(component, two);
    JoinedLength(component, three);
    OnlyAmpersands(250);
    assert LongPath() == three + "/" + component;
    DirOf(three, component);
  }

  lemma {:induction false} LongPathDoesNotFit(id: string, f: Fingerprint)
    requires f.path == LongPath()
    ensures !Fits(id, f) && !Readable(AfterAdmit(id, f).(temporary := Some(Staging(Dir(f.path), 0))))
  {
    hide ConditionsMet, Dir, TextLength, Digits, LongPath;
    LongPathLength();
    LongestBounds(AfterAdmit(id, f).(temporary := Some(Staging(Dir(f.path), 0))));
  }

  /** A PUT to that path whose conditions hold, cut short once its staging name is noted, leaves a pending record that
      recovery refuses: whatever its id and its content, and whatever was there before. */
  lemma {:induction false} LongPathGetsStuck(id: string, f: Fingerprint, content: seq<byte>, before: Option<File>)
    returns (run: seq<State>)
    requires f.path == LongPath() && ConditionsMet(before, f.ifMatch, f.ifNoneMatch)
    ensures IsRun(run) && run != [] && AttemptAt(run[|run| - 1], id, f) && !Legible(run[|run| - 1])
    ensures Lookup(run[0].files, Visible(f.path)) == before
  {
    hide ConditionsMet, VisibleFiles, Dir, TextLength, Digits, LongPath, Readable;
    LongPathDoesNotFit(id, f);
    run := StagedRun(id, f, content, before);
  }
}
