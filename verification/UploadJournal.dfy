/**
 The code that writes the upload journal (filesystem/receipts.go, preconditions.go, atomic_upload.go), as
 methods over the disk it changes. Every durable effect goes through one of the primitives of `Local`, each of
 which may succeed, fail or be cut short by a crash of the process. The ghost field `run` records every state
 of the disk there ever was; `Valid` says that it is a run of the upload protocol, so that every
 guarantee proved of those runs holds at every point of every execution of this code. A `healthy` disk has no
 faults; on one, a good upload is not just safe but happens.
 */
module UploadJournal {
  import opened Content
  import opened UploadProtocol
  import G = UploadGuarantees
  import P = Preconditions
  import S = UploadStream
  import L = UploadLimits

  /** How an operation on the disk ends. After a crash nothing more of the request happens. */
  datatype Outcome = Done | Failed | Crashed

  datatype Response = Answered(record: Record) | Status(status: int) | NoResponse

  lemma {:induction false} RunGrows(run: seq<State>, e: Effect)
    requires IsRun(run) && Enabled(run[|run| - 1], e)
    ensures IsRun(run + [Apply(run[|run| - 1], e)])
  {
    hide Enabled, Apply, Initial;
    var more := L.Extend(run, e);
  }

  /** A prepared staging file that exists was not renamed, and removing it leaves no evidence that it was. */
  lemma {:induction false} PreparedStaging(run: seq<State>, r: Record)
    requires IsRun(run) && run[|run| - 1].pending == Some(r) && r.id !in run[|run| - 1].receipts
    requires r.state == Prepared && r.temporary.Some? && r.temporary.value.Staging?
    ensures var files := run[|run| - 1].files;
            r.temporary.value in files ==> !Evidence(files - {r.temporary.value}, r)
  {
    RunKeepsInv(run, |run| - 1);
    assert PendingSound(run[|run| - 1], r);
  }

  /** What recovery demands of the record of an earlier attempt: that it and its receipt can be read, and that they
      make sense. */
  predicate Recoverable(receipts: map<string, Record>, r: Record) {
    && L.Readable(r)
    && if r.id in receipts then L.Readable(receipts[r.id]) && receipts[r.id].fingerprint == r.fingerprint
       else
         && (r.temporary.Some? ==> r.temporary.value.Staging?)
         && (r.state == Receiving || (r.state == Prepared && r.temporary.Some?))
  }

  /** Recovery deals with whatever the code left behind exactly if it can read it. `L.LegibleIffFits` says for which
      requests that is always so, and `L.LongPathGetsStuck` shows one for which it is not. */
  lemma {:induction false} RecoverableIffLegible(run: seq<State>)
    requires IsRun(run)
    ensures var s := run[|run| - 1]; s.pending.Some? ==> (Recoverable(s.receipts, s.pending.value) <==> L.Legible(s))
    ensures L.WellShaped(run[|run| - 1])
    ensures G.PendingOpen(run[|run| - 1])
  {
    hide L.Readable;
    RunKeepsInv(run, |run| - 1);
    L.RunKeepsShape(run, |run| - 1);
    G.PendingIsOpen(run, |run| - 1);
    var s := run[|run| - 1];
    if s.pending.Some? && s.pending.value.id !in s.receipts {
      assert PendingSound(s, s.pending.value);
    }
  }

  /** What the end of a run knows about one upload. */
  lemma {:induction false} LastTruth(run: seq<State>, id: string)
    requires IsRun(run)
    ensures var s := run[|run| - 1];
            && (id in s.receipts ==>
                  s.receipts[id].id == id && (s.receipts[id].state == Committed <==> HasEffect(s.log, id)))
            && (!Known(s, id) ==> !HasEffect(s.log, id))
  {
    RunKeepsInv(run, |run| - 1);
    var s := run[|run| - 1];
    assert id in s.receipts ==> Truthful(s, id);
  }

  lemma {:induction false} SomeInodeIsFree(files: Files) returns (serial: nat)
    ensures forall p :: p in files ==> files[p].inode.serial < serial
    decreases |files|
  {
    serial := 0;
    if files != map[] {
      var p :| p in files;
      var rest := SomeInodeIsFree(files - {p});
      serial := if rest > files[p].inode.serial then rest else files[p].inode.serial + 1;
      assert forall q :: q in files && q != p ==> q in (files - {p});
    }
  }

  lemma {:induction false} SomeNameIsFree(files: Files) returns (serial: nat)
    ensures forall p :: p in files && p.Staging? ==> p.serial < serial
    decreases |files|
  {
    serial := 0;
    if files != map[] {
      var p :| p in files;
      var rest := SomeNameIsFree(files - {p});
      serial := if p.Staging? && p.serial >= rest then p.serial + 1 else rest;
      assert forall q :: q in files && q != p ==> q in (files - {p});
    }
  }

  class Local {
    const healthy: bool
    var files: Files
    var pending: Option<Record>
    var slot: nat
    var receipts: map<string, Record>
    ghost var log: seq<Entry>
    ghost var base: Files
    ghost var run: seq<State>

    ghost function Now(): State
      reads this
    {
      State(files, pending, slot, receipts, log, base)
    }

    ghost predicate Valid()
      reads this
    {
      run != [] && IsRun(run) && run[|run| - 1] == Now()
    }

    constructor (files: Files, healthy: bool)
      requires UniqueInodes(files)
      ensures Valid() && this.healthy == healthy && this.files == files && pending.None? && receipts == map[]
                && log == []
    {
      this.healthy := healthy;
      this.files, pending, slot, receipts := files, None, 0, map[];
      log, base := [], VisibleFiles(files);
      run := [State(files, None, 0, map[], [], VisibleFiles(files))];
    }

    /** An operation of the file system with no durable effect of its own. */
    method Io() returns (o: Outcome)
      ensures healthy ==> o == Done
    {
      if healthy {
        o := Done;
      } else if * {
        o := Done;
      } else if * {
        o := Failed;
      } else {
        o := Crashed;
      }
    }

    /** The time, of whose text only the length matters. */
    method Clock() returns (now: StampLength) {
      var n: nat := *;
      now := if 20 <= n <= 30 then n else 20;
    }

    /** The identity of a new journal file, which is not that of the pending one. */
    method NewFile() returns (file: nat)
      ensures file != slot
    {
      var n: nat := *;
      file := if n >= 0 && n != slot then n else slot + 1;
    }

    /** writeJournalFile of the pending slot: when it does not succeed, it may or may not have taken effect. */
    method WritePending(record: Record, file: nat, ghost e: Effect) returns (o: Outcome)
      requires Valid() && Enabled(Now(), e) && Apply(Now(), e) == Now().(pending := Some(record), slot := file)
      modifies this
      ensures Valid() && old(run) <= run
      ensures pending == Some(record) || (o != Done && pending == old(pending))
      ensures healthy ==> o == Done
      ensures files == old(files) && receipts == old(receipts) && log == old(log)
    {
      o := Io();
      var applied := *;
      if o == Done || applied {
        RunGrows(run, e);
        pending, slot := Some(record), file;
        run := run + [Now()];
      }
    }

    /** writeJournalFile of a terminal receipt. */
    method WriteReceipt(record: Record) returns (o: Outcome)
      requires Valid() && Enabled(Now(), Settle(record))
      modifies this
      ensures Valid() && old(run) <= run
      ensures receipts == old(receipts)[record.id := record] || (o != Done && receipts == old(receipts))
      ensures healthy ==> o == Done
      ensures files == old(files) && pending == old(pending) && slot == old(slot) && log == old(log)
    {
      o := Io();
      var applied := *;
      if o == Done || applied {
        RunGrows(run, Settle(record));
        receipts := receipts[record.id := record];
        run := run + [Now()];
      }
    }

    method RemovePending() returns (o: Outcome)
      requires Valid() && Enabled(Now(), Clear)
      modifies this
      ensures Valid() && old(run) <= run
      ensures pending == None || (o != Done && pending == old(pending))
      ensures healthy ==> o == Done
      ensures files == old(files) && receipts == old(receipts) && log == old(log)
    {
      o := Io();
      var applied := *;
      if o == Done || applied {
        RunGrows(run, Clear);
        pending := None;
        run := run + [Now()];
      }
    }

    /** Removing a staging file; one that is already gone is fine. */
    method RemoveStaging(temp: Path) returns (o: Outcome)
      requires Valid() && temp.Staging?
      modifies this
      ensures Valid() && old(run) <= run
      ensures files == old(files) - {temp} || (o != Done && files == old(files))
      ensures healthy ==> o == Done
      ensures pending == old(pending) && receipts == old(receipts) && log == old(log)
    {
      o := Io();
      var applied := *;
      if o == Done || applied {
        RunGrows(run, Discard(temp));
        files := files - {temp};
        run := run + [Now()];
      }
    }

    /** Exclusive creation of an empty staging file under a random name, with whatever free inode the file
        system hands out, possibly one that an earlier file had. */
    method CreateStaging(dir: string) returns (o: Outcome, temp: Path)
      requires Valid() && Open(Now())
      modifies this
      ensures Valid() && old(run) <= run
      ensures temp.Staging? && temp.dir == dir && (o == Done ==> temp in files && files[temp].content == [])
      ensures healthy ==> o == Done
      ensures forall p :: p != temp ==> Lookup(files, p) == old(Lookup(files, p))
      ensures pending == old(pending) && receipts == old(receipts) && log == old(log)
    {
      var serial: nat, inode: Inode := *, *;
      if healthy {
        ghost var free := SomeInodeIsFree(files);
        ghost var unused := SomeNameIsFree(files);
        assert Staging(dir, unused) !in files && FreshInode(files, Inode(free, 3));
        serial, inode :| Staging(dir, serial) !in files && FreshInode(files, inode);
      }
      temp := Staging(dir, serial);
      o := Io();
      if temp in files || !FreshInode(files, inode) {
        return if o == Crashed then Crashed else Failed, temp;
      }
      var applied := *;
      if o == Done || applied {
        RunGrows(run, Stage(temp, inode));
        files := files[temp := File(inode, [])];
        run := run + [Now()];
      }
    }

    method WriteStaging(temp: Path, content: seq<byte>) returns (o: Outcome)
      requires Valid() && Open(Now()) && temp.Staging? && temp in files
      modifies this
      ensures Valid() && old(run) <= run
      ensures temp in files && files[temp].inode == old(files[temp].inode)
      ensures o == Done ==> files[temp].content == content
      ensures healthy ==> o == Done
      ensures forall p :: p != temp ==> Lookup(files, p) == old(Lookup(files, p))
      ensures pending == old(pending) && receipts == old(receipts) && log == old(log)
    {
      o := Io();
      var stored: seq<byte> := *;
      if o == Done {
        stored := content;
      }
      RunGrows(run, Fill(temp, stored));
      files := files[temp := File(files[temp].inode, stored)];
      run := run + [Now()];
    }

    /** The rename that publishes the prepared upload. One that reports an error was not applied. */
    method PublishPrepared() returns (o: Outcome)
      requires Valid() && Enabled(Now(), Publish)
      modifies this
      ensures Valid() && old(run) <= run
      ensures Now() == Apply(old(Now()), Publish) || (o != Done && Now() == old(Now()))
      ensures healthy ==> o == Done
      ensures o == Failed ==> Now() == old(Now())
    {
      hide ConditionsMet, Evidence, VisibleFiles, UniqueInodes, FreshInode, Initial;
      o := Io();
      var applied := *;
      if o == Done || (o == Crashed && applied) {
        RunGrows(run, Publish);
        var record := pending.value;
        var temp := record.temporary.value;
        log := log + [Commit(Some(record.id), record.target, Lookup(files, record.target), files[temp],
                             record.fingerprint.ifMatch, record.fingerprint.ifNoneMatch)];
        files := (files - {temp})[record.target := files[temp]];
        run := run + [Now()];
      }
    }

    // -------------------------------------------------------------- receipts.go

    /** completeReceipt: publish the terminal receipt, then free the pending slot. */
    method CompleteReceipt(record: Record, state: Phase, status: int) returns (o: Outcome, terminal: Record)
      requires Valid() && pending.Some? && Terminal(state)
      requires Draft(record) && 0 <= status < 1000
      requires var r := pending.value;
               record.id == r.id && record.fingerprint == r.fingerprint && record.sha == r.sha && record.size == r.size
               && r.id !in receipts
               && (state == Committed <==> r.state == Prepared && Evidence(files, r))
               && (state == Committed ==> record.target == r.target)
      modifies this
      ensures Valid() && old(run) <= run
      ensures files == old(files) && log == old(log)
      ensures terminal.id == record.id && terminal.fingerprint == record.fingerprint
      ensures terminal.state == state && terminal.status == status
      ensures o == Done ==> pending.None? && receipts == old(receipts)[record.id := terminal]
      ensures healthy ==> o == Done
      ensures receipts == old(receipts) || receipts == old(receipts)[record.id := terminal]
    {
      var now := Clock();
      terminal := record.(state := state, status := status, completedAt := Some(now));
      if state == Committed {
        terminal := terminal.(revision := Some(DigestRevision(record.sha)));
      }
      o := WriteReceipt(terminal);
      if o != Done {
        return;
      }
      o := RemovePending();
    }

    /** recoverReceipt: settle what an earlier lock holder left behind. It never publishes anything; when it
        succeeds the pending slot is free and the earlier attempt has a truthful receipt; and without faults it
        succeeds exactly if it can read what was left, and changes nothing at all otherwise. */
    method RecoverReceipt() returns (o: Outcome)
      requires Valid()
      modifies this
      ensures Valid() && old(run) <= run
      ensures log == old(log) && VisibleFiles(files) == old(VisibleFiles(files))
      ensures o == Done ==> pending.None?
      ensures healthy ==> (o == Done <==> old(L.Legible(Now())))
      ensures !old(L.Legible(Now())) ==> o != Done && Now() == old(Now())
      ensures o == Done ==>
                receipts.Keys == old(receipts).Keys + if old(pending).Some? then {old(pending).value.id} else {}
      ensures o == Done && old(pending).Some? ==> old(pending).value.id in receipts
      ensures o == Done && old(pending).Some? && old(pending).value.id !in old(receipts) ==>
                var t := receipts[old(pending).value.id];
                (t.state, t.status) == G.RecoveryVerdict(old(files), old(pending).value)
      ensures o == Done && old(pending).None? ==> receipts == old(receipts)
    {
      hide IsRun, ConditionsMet, AtMostOneEffect, PendingSound, Initial, UniqueInodes, L.Readable;
      RecoverableIffLegible(run);
      o := Io();
      if o != Done || pending.None? {
        return;
      }
      var record := pending.value;
      if !L.Readable(record) {
        return Failed;
      }
      if record.id in receipts {
        if !L.Readable(receipts[record.id]) {
          return Failed;
        }
        if receipts[record.id].fingerprint != record.fingerprint {
          return Failed;
        }
        o := RemovePending();
        return;
      }
      o := SettleEarlier(record);
    }

    /** The rest of recoverReceipt, for an attempt that has no receipt yet. */
    method SettleEarlier(record: Record) returns (o: Outcome)
      requires Valid() && pending == Some(record) && record.id !in receipts && Draft(record)
      modifies this
      ensures Valid() && old(run) <= run
      ensures log == old(log) && VisibleFiles(files) == old(VisibleFiles(files))
      ensures o == Done ==> pending.None?
      ensures healthy && (record.state == Receiving || (record.state == Prepared && record.temporary.Some?)) ==>
                o == Done
      ensures o == Done ==> receipts.Keys == old(receipts).Keys + {record.id}
      ensures o == Done ==> var t := receipts[record.id]; (t.state, t.status) == G.RecoveryVerdict(old(files), record)
    {
      hide IsRun, ConditionsMet, AtMostOneEffect, PendingSound, Initial, UniqueInodes;
      if record.temporary.Some? && !record.temporary.value.Staging? {
        return Failed;
      }
      var state, status := Interrupted, 408;
      if record.state == Receiving {
        if record.temporary.Some? {
          o := RemoveStaging(record.temporary.value);
          if o != Done {
            return;
          }
        }
      } else if record.state == Prepared {
        if record.temporary.None? {
          return Failed;
        }
        o, state, status := InspectPrepared(record);
        if o != Done {
          return;
        }
      } else {
        return Failed;
      }
      var terminal;
      o, terminal := CompleteReceipt(record, state, status);
    }

    /** The verdict on a prepared attempt: a staging file that is still there was never renamed; one that is
        gone was renamed exactly when the destination is that very file. */
    method InspectPrepared(record: Record) returns (o: Outcome, state: Phase, status: int)
      requires Valid() && pending == Some(record) && record.id !in receipts
      requires record.state == Prepared && record.temporary.Some? && record.temporary.value.Staging?
      modifies this
      ensures Valid() && old(run) <= run
      ensures log == old(log) && VisibleFiles(files) == old(VisibleFiles(files))
      ensures pending == old(pending) && receipts == old(receipts)
      ensures o == Done ==> Terminal(state) && (state == Committed <==> Evidence(files, record))
      ensures o == Done ==> (state, status) == G.RecoveryVerdict(old(files), record)
      ensures 0 <= status < 1000
      ensures healthy ==> o == Done
    {
      PreparedStaging(run, record);
      o := Io();
      if o != Done {
        return o, Uncertain, 503;
      }
      var temp := record.temporary.value;
      if temp in files {
        o := RemoveStaging(temp);
        return o, Interrupted, 408;
      }
      state, status := Uncertain, 503;
      if record.target in files {
        var file := files[record.target];
        o := Io();
        if o != Done {
          return;
        }
        if record.identity == Some(file.inode) && Sha256(file.content) == record.sha && |file.content| == record.size {
          o := Io();
          state, status := Committed, 201;
        }
      }
    }

    /** beginReceipt: admit the upload unless the receipt directory, with whatever stray entries it holds, is
        full. The pending record is durable before any content is touched. */
    method BeginReceipt(record: Record) returns (o: Outcome, full: bool)
      requires Valid() && pending.None? && record.id !in receipts
      requires record.state == Receiving && record.temporary.None? && Draft(record)
      modifies this
      ensures Valid() && old(run) <= run
      ensures files == old(files) && receipts == old(receipts) && log == old(log)
      ensures o == Done ==> pending == Some(record)
      ensures full ==> o == Failed && pending.None?
      ensures |receipts| >= RECEIPT_LIMIT ==> o != Done
      ensures healthy && |receipts| < RECEIPT_LIMIT ==> o == Done
    {
      full := false;
      o := Io();
      if o != Done {
        return;
      }
      var stray: nat :| healthy ==> stray == 0;
      if |receipts| + stray >= RECEIPT_LIMIT {
        return Failed, true;
      }
      o := Io();
      if o != Done {
        return;
      }
      var file := NewFile();
      o := WritePending(record, file, Admit(record, file));
    }

    // -------------------------------------------------------------- preconditions.go

    /** checkConditions under the lock: status 0 means that the conditions hold of the current file. */
    method CheckConditions(target: Path, ifMatch: string, ifNoneMatch: string) returns (status: int)
      ensures status == 0 ==> ConditionsMet(Lookup(files, target), ifMatch, ifNoneMatch)
      ensures status in {0, 400, 403, 412, 503}
      ensures status == 412 ==> !ConditionsMet(Lookup(files, target), ifMatch, ifNoneMatch)
      ensures ifMatch == "" && ifNoneMatch == "" ==> status == 0
      ensures healthy ==> status !in {403, 503}
      ensures healthy && ConditionsMet(Lookup(files, target), ifMatch, ifNoneMatch) ==> status == 0
    {
      if ifMatch == "" && ifNoneMatch == "" {
        return 0;
      }
      var examined := *;
      if !healthy && !examined {
        return 403;
      }
      var revision := None;
      var hashed := *;
      if target in files && (hashed || healthy) {
        revision := Some(Revision(files[target].content));
      } else if target !in files {
        revision := Some("");
      }
      ghost var known := if target in files then Revision(files[target].content) else "";
      StatusWithRevision(target in files, ifMatch, ifNoneMatch, revision, known);
      var loads;
      status, loads := P.CheckRevisionConditions(target in files, ifMatch, ifNoneMatch, revision);
    }

    // -------------------------------------------------------------- atomic_upload.go

    /** The attempt of `record` is pending, unsettled and unpublished, in whatever phase. */
    ghost predicate Attempting(record: Record)
      reads this
    {
      && pending.Some? && pending.value.id == record.id && pending.value.fingerprint == record.fingerprint
      && pending.value.sha == record.sha && pending.value.size == record.size
      && record.id !in receipts && !HasEffect(log, record.id)
    }

    /** A record in memory that was not completed. */
    predicate Draft(record: Record) {
      Shaped(record) && record.revision.None?
    }

    /** The record in memory of the same attempt, as far as it got. */
    predicate SameAttempt(later: Record, record: Record) {
      && later.id == record.id && later.fingerprint == record.fingerprint && later.sha == record.sha
      && later.size == record.size && Draft(later)
    }

    /** Gives up on a staging file. */
    method Abandon(temp: Path) returns (o: Outcome)
      requires Valid() && temp.Staging?
      modifies this
      ensures Valid() && old(run) <= run && o != Done && (healthy ==> o == Failed)
      ensures pending == old(pending) && receipts == old(receipts) && log == old(log)
    {
      o := RemoveStaging(temp);
      if o == Done {
        o := Failed;
      }
    }

    /** OpenFile: create the staging file and note it in the pending record. `noted` is the record in memory, which
        names the staging file even if that could not be written. */
    method OpenUpload(record: Record) returns (o: Outcome, temp: Path, noted: Record, status: int)
      requires Valid() && pending == Some(record) && record.state == Receiving && Attempting(record) && Draft(record)
      modifies this
      ensures Valid() && old(run) <= run && Attempting(record)
      ensures receipts == old(receipts) && log == old(log)
      ensures o == Done ==>
                Beside(temp, record) && temp in files && noted == record.(temporary := Some(temp))
                && pending == Some(noted)
      ensures healthy ==> o == Done
      ensures o == Done ==> forall p :: p != temp ==> Lookup(files, p) == old(Lookup(files, p))
      ensures o == Failed ==> 400 <= status < 1000
      ensures SameAttempt(noted, record)
    {
      status := 404;
      noted := record;
      o, temp := CreateStaging(Dir(record.fingerprint.path));
      if o != Done {
        return;
      }
      noted := record.(temporary := Some(temp));
      var file := NewFile();
      o := WritePending(noted, file, NoteStaging(temp, file));
      if o == Failed {
        status := 503;
        o := Abandon(temp);
      }
    }

    /** The part of Close that notes in the pending record what is about to be renamed. */
    method PrepareUpload(noted: Record, temp: Path) returns (o: Outcome, status: int, prepared: Record)
      requires Valid() && pending == Some(noted) && noted.state == Receiving && Attempting(noted) && Draft(noted)
      requires Beside(temp, noted) && temp in files
      requires Sha256(files[temp].content) == noted.sha && |files[temp].content| == noted.size
      modifies this
      ensures Valid() && old(run) <= run
      ensures receipts == old(receipts) && log == old(log)
      ensures o == Done ==> pending == Some(prepared) && files == old(files)
      ensures o == Done ==>
                prepared == noted.(state := Prepared, temporary := Some(temp), identity := Some(files[temp].inode))
      ensures o == Failed ==> Attempting(noted) && 400 <= status < 1000
      ensures SameAttempt(prepared, noted)
      ensures healthy ==> o == Done
    {
      hide IsRun, VisibleFiles, UniqueInodes, FreshInode, Initial, AtMostOneEffect;
      prepared, status := noted, 500;
      o := Io();
      if o == Done {
        prepared := noted.(state := Prepared, temporary := Some(temp), identity := Some(files[temp].inode));
        status := 503;
        var file := NewFile();
        o := WritePending(prepared, file, Prepare(temp, file));
      }
      if o == Failed {
        o := Abandon(temp);
      }
    }

    /** The part of Close that makes a received upload permanent: prepare, rename, settle. */
    method CommitUpload(noted: Record, temp: Path) returns (o: Outcome, committed: bool, status: int, terminal: Record)
      requires Valid() && pending == Some(noted) && noted.state == Receiving && Attempting(noted) && Draft(noted)
      requires Beside(temp, noted) && temp in files
      requires Sha256(files[temp].content) == noted.sha && |files[temp].content| == noted.size
      requires ConditionsMet(Lookup(files, noted.target), noted.fingerprint.ifMatch, noted.fingerprint.ifNoneMatch)
      modifies this
      ensures Valid() && old(run) <= run
      ensures o == Failed ==> 400 <= status < 1000
      ensures o == Failed && !committed ==> SameAttempt(terminal, noted)
      ensures !committed && o != Crashed ==> o == Failed && Attempting(noted) && receipts == old(receipts)
      ensures log == old(log) ||
              log == old(log) + [Commit(Some(noted.id), noted.target, old(Lookup(files, noted.target)),
                                        old(files[temp]), noted.fingerprint.ifMatch, noted.fingerprint.ifNoneMatch)]
      ensures committed ==> log != old(log)
      ensures healthy ==> o == Done
      ensures !committed && o != Crashed ==> log == old(log)
      ensures o == Done ==> committed && pending.None? && noted.id in receipts && receipts[noted.id] == terminal
      ensures o == Done ==>
                terminal.id == noted.id && terminal.fingerprint == noted.fingerprint && terminal.state == Committed
                && terminal.status == 201
    {
      hide IsRun, ConditionsMet, VisibleFiles, UniqueInodes, FreshInode, Initial, AtMostOneEffect;
      committed := false;
      o, status, terminal := PrepareUpload(noted, temp);
      if o != Done {
        return;
      }
      o := PublishPrepared();
      if o != Done {
        status := 500;
        if o == Failed {
          o := Abandon(temp);
        }
        return;
      }
      committed, status := true, 503;
      assert Evidence(files, terminal);
      o := Io();
      if o != Done {
        return;
      }
      o, terminal := CompleteReceipt(terminal, Committed, 201);
    }

    /** OpenFile, the copy of the body and Close for an admitted upload whose conditions hold. */
    method PutUpload(record: Record, source: seq<S.ReadResult>, writes: seq<S.WriteResult>, cancelledAt: Option<nat>)
      returns (o: Outcome, committed: bool, status: int, terminal: Record)
      requires Valid() && pending == Some(record) && record.state == Receiving && Attempting(record) && Draft(record)
      requires ConditionsMet(Lookup(files, record.target), record.fingerprint.ifMatch, record.fingerprint.ifNoneMatch)
      modifies this
      ensures Valid() && old(run) <= run
      ensures o == Failed ==> 400 <= status < 1000
      ensures o == Failed && !committed ==> SameAttempt(terminal, record)
      ensures !committed && o != Crashed ==> o == Failed && Attempting(record) && receipts == old(receipts)
      ensures log == old(log) || IsCommitOf(old(Now()), log, record, source)
      ensures !committed && o != Crashed ==> log == old(log)
      ensures healthy && GoodBody(record.sha, record.size, source, writes, cancelledAt) ==> o == Done
      ensures healthy ==> o != Crashed && (o == Done || !committed)
      ensures o == Done ==> committed && pending.None? && record.id in receipts && receipts[record.id] == terminal
      ensures o == Done ==>
                terminal.id == record.id && terminal.fingerprint == record.fingerprint && terminal.state == Committed
                && terminal.status == 201
    {
      hide IsRun, VisibleFiles, UniqueInodes, FreshInode, Initial, AtMostOneEffect, Evidence;
      var temp, noted;
      committed, terminal := false, record;
      o, temp, noted, status := OpenUpload(record);
      terminal := noted;
      if o != Done {
        return;
      }
      var staged, ok, verdict := S.Receive(Some(record.sha), record.size, source, writes, cancelledAt);
      o := WriteStaging(temp, staged);
      if o == Crashed {
        return;
      }
      if o == Failed || !ok {
        status := if ok then 500 else verdict;
        o := Abandon(temp);
        return;
      }
      o, committed, status, terminal := CommitUpload(noted, temp);
    }

    /** The first half of serveMutation for a PUT with an Upload-Id: recover, answer a known id from its
        receipt, or admit the upload. */
    method AdmitPut(id: string, request: Fingerprint) returns (admitted: bool, response: Response, record: Record)
      requires Valid()
      modifies this
      ensures Valid() && old(run) <= run
      ensures log == old(log) && VisibleFiles(files) == old(VisibleFiles(files))
      ensures admitted ==> pending == Some(record) && record.state == Receiving && Attempting(record) && record.id == id
      ensures admitted ==> record.fingerprint == request && Draft(record)
      ensures admitted ==> !old(Known(Now(), id))
      ensures !admitted && response.Answered? ==>
                id in receipts && receipts[id] == response.record && response.record.fingerprint == request
      ensures !admitted && response.Answered? ==> (response.record.state == Committed <==> HasEffect(log, id))
      ensures !admitted && response == Status(409) ==> id in receipts && receipts[id].fingerprint != request
      ensures !old(L.Legible(Now())) ==> !admitted && response in {Status(503), NoResponse} && Now() == old(Now())
      ensures healthy && old(L.Legible(Now())) && !old(Known(Now(), id)) && old(Committable(Now())) < RECEIPT_LIMIT ==>
                admitted
      ensures healthy && old(L.Legible(Now())) && old(Known(Now(), id)) ==>
                && !admitted && id in receipts
                && response == if !L.Readable(receipts[id]) then Status(503)
                               else if receipts[id].fingerprint != request then Status(409) else Answered(receipts[id])
    {
      hide IsRun, Evidence, ConditionsMet, VisibleFiles, UniqueInodes, AtMostOneEffect, PendingSound,
           G.RecoveryVerdict, Published, L.Readable, L.Legible;
      admitted := false;
      var now := Clock();
      record := Record(id, request, Receiving, 0, request.size, request.sha, Visible(request.path), None, None, None,
                       now, None);
      var o := RecoverReceipt();
      if o != Done {
        return admitted, if o == Crashed then NoResponse else Status(503), record;
      }
      LastTruth(run, id);
      G.RunKeeps(run, |old(run)| - 1, |run| - 1);
      if id in receipts {
        if !L.Readable(receipts[id]) {
          return admitted, Status(503), record;
        }
        return admitted, if receipts[id].fingerprint != request then Status(409) else Answered(receipts[id]), record;
      }
      var full;
      o, full := BeginReceipt(record);
      admitted := o == Done;
      response := if o == Crashed then NoResponse else Status(if full then 507 else 503);
    }

    /** serveMutation for a PUT with an Upload-Id. A known id never starts another write; an answer is always
        the receipt on disk, bound to the same request; whatever became visible is the whole request body, put
        in place of a file that met the request's conditions. */
    method ServeDurablePut(id: string, request: Fingerprint, source: seq<S.ReadResult>, writes: seq<S.WriteResult>,
                           cancelledAt: Option<nat>)
      returns (response: Response)
      requires Valid()
      modifies this
      ensures Valid() && old(run) <= run
      ensures log == old(log) ||
              (exists record: Record :: IsCommitOf(old(Now()), log, record, source) && record.id == id
                 && record.target == Visible(request.path) && record.fingerprint == request)
      ensures old(Known(Now(), id)) ==> log == old(log)
      ensures response.Answered? ==>
                id in receipts && receipts[id] == response.record && response.record.fingerprint == request
      ensures response.Answered? ==> (response.record.state == Committed <==> HasEffect(log, id))
      ensures !old(L.Legible(Now())) ==> response in {Status(503), NoResponse} && Now() == old(Now())
      ensures healthy && old(L.Legible(Now())) && !old(Known(Now(), id)) && old(Committable(Now())) < RECEIPT_LIMIT
              && GoodBody(request.sha, request.size, source, writes, cancelledAt)
              && ConditionsMet(old(Lookup(files, Visible(request.path))), request.ifMatch, request.ifNoneMatch) ==>
                response.Answered? && response.record.state == Committed
      ensures response == Status(409) ==> id in receipts && receipts[id].fingerprint != request
    {
      hide IsRun, Evidence, ConditionsMet, VisibleFiles, UniqueInodes, AtMostOneEffect, PendingSound, GoodBody,
           Truthful, L.Legible, L.Readable;
      G.LookupVisible(files, Visible(request.path));
      var admitted, record;
      admitted, response, record := AdmitPut(id, request);
      if !admitted {
        return;
      }
      G.LookupVisible(files, Visible(request.path));
      ghost var before := Now();
      response := FinishPut(record, source, writes, cancelledAt);
      if log != before.log {
        SameCommit(old(Now()), before, log, record, source);
      }
    }

    /** What serveMutation does with an upload it has admitted. */
    method FinishPut(record: Record, source: seq<S.ReadResult>, writes: seq<S.WriteResult>, cancelledAt: Option<nat>)
      returns (response: Response)
      requires Valid() && pending == Some(record) && record.state == Receiving && Attempting(record) && Draft(record)
      modifies this
      ensures Valid() && old(run) <= run
      ensures log == old(log) || IsCommitOf(old(Now()), log, record, source)
      ensures response.Answered? ==>
                record.id in receipts && receipts[record.id] == response.record
                && response.record.fingerprint == record.fingerprint
      ensures response.Answered? ==> (response.record.state == Committed <==> HasEffect(log, record.id))
      ensures response.Status? ==> response.status == 503
      ensures healthy ==> response.Answered?
      ensures healthy && GoodBody(record.sha, record.size, source, writes, cancelledAt)
              && ConditionsMet(old(Lookup(files, record.target)), record.fingerprint.ifMatch,
                               record.fingerprint.ifNoneMatch) ==>
                response.record.state == Committed
    {
      hide IsRun, Evidence, ConditionsMet, VisibleFiles, UniqueInodes, AtMostOneEffect, PendingSound, GoodBody,
           Published, Initial;
      var status := CheckConditions(record.target, record.fingerprint.ifMatch, record.fingerprint.ifNoneMatch);
      var o, committed, terminal := Failed, false, record;
      if status == 0 {
        o, committed, status, terminal := PutUpload(record, source, writes, cancelledAt);
        if o == Crashed {
          return NoResponse;
        }
      }
      if o == Failed && committed {
        return Status(503);
      }
      if !committed {
        NothingPublished(run, record.id);
        o, terminal := CompleteReceipt(terminal, Rejected, status);
        if o != Done {
          return if o == Crashed then NoResponse else Status(503);
        }
      }
      LastTruth(run, record.id);
      response := Answered(terminal);
    }

    /** serveMutation for a PUT without an Upload-Id: the same staging and rename, and no receipt. */
    method ServePlainPut(path: string, size: int, sha: Option<Digest>, ifMatch: string, ifNoneMatch: string,
                         source: seq<S.ReadResult>, writes: seq<S.WriteResult>, cancelledAt: Option<nat>)
      returns (response: Response)
      requires Valid()
      modifies this
      ensures Valid() && old(run) <= run
      ensures log == old(log) || exists file: File ::
                && log == old(log) + [Commit(None, Visible(path), old(Lookup(files, Visible(path))), file,
                                             ifMatch, ifNoneMatch)]
                && Announced(size, sha, source, file.content)
      ensures response == Status(201) ==> log != old(log)
      ensures !old(L.Legible(Now())) ==> response in {Status(503), NoResponse} && Now() == old(Now())
      ensures healthy && old(L.Legible(Now())) && GoodPlainBody(size, sha, source, writes, cancelledAt) ==>
                ConditionsMet(old(Lookup(files, Visible(path))), ifMatch, ifNoneMatch) ==> response == Status(201)
    {
      hide IsRun, Evidence, ConditionsMet, VisibleFiles, UniqueInodes, AtMostOneEffect, PendingSound,
           G.RecoveryVerdict, Initial, Announced, GoodPlainBody, L.Legible;
      var target := Visible(path);
      G.LookupVisible(files, target);
      var o := RecoverReceipt();
      if o != Done {
        return if o == Crashed then NoResponse else Status(503);
      }
      G.LookupVisible(files, target);
      var status := CheckConditions(target, ifMatch, ifNoneMatch);
      if status != 0 {
        return Status(status);
      }
      response := PutPlain(target, size, sha, ifMatch, ifNoneMatch, source, writes, cancelledAt);
    }

    /** OpenFile, the copy of the body and Close without a receipt. */
    method PutPlain(target: Path, size: int, sha: Option<Digest>, ifMatch: string, ifNoneMatch: string,
                    source: seq<S.ReadResult>, writes: seq<S.WriteResult>, cancelledAt: Option<nat>)
      returns (response: Response)
      requires Valid() && pending.None? && target.Visible? && ConditionsMet(Lookup(files, target), ifMatch, ifNoneMatch)
      modifies this
      ensures Valid() && old(run) <= run
      ensures log == old(log) || exists file: File ::
                && log == old(log) + [Commit(None, target, old(Lookup(files, target)), file, ifMatch, ifNoneMatch)]
                && Announced(size, sha, source, file.content)
      ensures response == Status(201) ==> log != old(log)
      ensures healthy && GoodPlainBody(size, sha, source, writes, cancelledAt) ==> response == Status(201)
    {
      hide IsRun, ConditionsMet, VisibleFiles, UniqueInodes, FreshInode, Initial, S.WholeBody;
      var o, temp := CreateStaging(Dir(target.name));
      if o != Done {
        return if o == Crashed then NoResponse else Status(404);
      }
      var staged, ok, verdict := S.Receive(sha, size, source, writes, cancelledAt);
      o := WriteStaging(temp, staged);
      if o == Crashed {
        return NoResponse;
      }
      if o == Failed || !ok {
        o := Abandon(temp);
        return if o == Crashed then NoResponse else Status(if ok then 500 else verdict);
      }
      o := PublishPlain(temp, target, ifMatch, ifNoneMatch);
      if o == Failed {
        o := Abandon(temp);
        return if o == Crashed then NoResponse else Status(500);
      }
      response := if o == Crashed then NoResponse else Status(201);
    }

    /** The rename of an upload without an id. */
    method PublishPlain(temp: Path, target: Path, ifMatch: string, ifNoneMatch: string) returns (o: Outcome)
      requires Valid() && Enabled(Now(), PlainPublish(temp, target, ifMatch, ifNoneMatch))
      modifies this
      ensures Valid() && old(run) <= run
      ensures Now() == Apply(old(Now()), PlainPublish(temp, target, ifMatch, ifNoneMatch))
                || (o != Done && Now() == old(Now()))
      ensures o == Failed ==> Now() == old(Now())
      ensures healthy ==> o == Done
    {
      hide ConditionsMet, Initial;
      o := Io();
      var applied := *;
      if o == Done || (o == Crashed && applied) {
        RunGrows(run, PlainPublish(temp, target, ifMatch, ifNoneMatch));
        log := log + [Commit(None, target, Lookup(files, target), files[temp], ifMatch, ifNoneMatch)];
        files := (files - {temp})[target := files[temp]];
        run := run + [Now()];
      }
    }

    /** serveMutation for any other method: it may leave any file tree behind, also when it fails half-way, but only
        once recovery is done and its conditions hold. */
    method ServeOther(path: string, ifMatch: string, ifNoneMatch: string, changed: Files) returns (response: Response)
      requires Valid() && UniqueInodes(changed)
      modifies this
      ensures Valid() && old(run) <= run
      ensures log == old(log)
                || (log == old(log) + [Foreign(VisibleFiles(changed))] && files == changed && pending.None?)
      ensures response == Status(204) ==> log != old(log)
      ensures log != old(log) ==> ConditionsMet(old(Lookup(files, Visible(path))), ifMatch, ifNoneMatch)
      ensures !old(L.Legible(Now())) ==> response in {Status(503), NoResponse} && Now() == old(Now())
      ensures healthy && old(L.Legible(Now()))
                && ConditionsMet(old(Lookup(files, Visible(path))), ifMatch, ifNoneMatch) ==>
                response == Status(204)
    {
      hide IsRun, Evidence, ConditionsMet, VisibleFiles, AtMostOneEffect, PendingSound, G.RecoveryVerdict, Initial,
           L.Legible;
      G.LookupVisible(files, Visible(path));
      var o := RecoverReceipt();
      if o != Done {
        return if o == Crashed then NoResponse else Status(503);
      }
      G.LookupVisible(files, Visible(path));
      var status := CheckConditions(Visible(path), ifMatch, ifNoneMatch);
      if status != 0 {
        return Status(status);
      }
      o := Io();
      var applied := *;
      if o == Done || applied {
        RunGrows(run, Mutate(changed));
        log := log + [Foreign(VisibleFiles(changed))];
        files := changed;
        run := run + [Now()];
      }
      response := if o == Crashed then NoResponse else Status(if o == Done then 204 else 500);
    }

    /** serveReceipt when the lock was free: recover, then read. A record is only shown under its own path. */
    method ServeReceipt(id: string, path: string) returns (response: Response)
      requires Valid()
      modifies this
      ensures Valid() && old(run) <= run && log == old(log)
      ensures response.Answered? ==> response.record.id == id && id in receipts && receipts[id] == response.record
      ensures response.Answered? ==>
                (response.record.state == Committed <==> HasEffect(log, id)) && response.record.fingerprint.path == path
      ensures response == Status(404) ==>
                !old(Known(Now(), id)) || (id in receipts && receipts[id].fingerprint.path != path)
      ensures !old(L.Legible(Now())) ==> response in {Status(503), NoResponse} && Now() == old(Now())
      ensures healthy && old(L.Legible(Now())) && old(Known(Now(), id)) ==>
                && id in receipts
                && response == if !L.Readable(receipts[id]) then Status(503)
                               else if receipts[id].fingerprint.path != path then Status(404)
                               else Answered(receipts[id])
    {
      hide IsRun, Evidence, ConditionsMet, VisibleFiles, UniqueInodes, AtMostOneEffect, PendingSound,
           G.RecoveryVerdict, L.Legible, L.Readable;
      var o := RecoverReceipt();
      if o != Done {
        return if o == Crashed then NoResponse else Status(503);
      }
      LastTruth(run, id);
      G.RunKeeps(run, |old(run)| - 1, |run| - 1);
      if id !in receipts {
        return Status(404);
      }
      if !L.Readable(receipts[id]) {
        return Status(503);
      }
      if receipts[id].fingerprint.path != path {
        return Status(404);
      }
      response := Answered(receipts[id]);
    }

    /** Any number of requests of any kind, each ending well, failing or crashing anywhere: all the states the
        disk goes through form one run of the protocol. Once recovery cannot read what was left, nothing ever
        changes again. */
    method Serve(calls: seq<Call>)
      requires Valid()
      requires forall c :: c in calls && c.OtherCall? ==> UniqueInodes(c.changed)
      modifies this
      ensures Valid() && old(run) <= run
      ensures !old(L.Legible(Now())) ==> Now() == old(Now())
    {
      hide L.Legible;
      for i := 0 to |calls|
        invariant Valid() && old(run) <= run
        invariant !old(L.Legible(Now())) ==> Now() == old(Now())
      {
        assert calls[i] in calls;
        var response;
        match calls[i] {
          case DurablePut(id, request, source, writes, cancelledAt) =>
            response := ServeDurablePut(id, request, source, writes, cancelledAt);
          case PlainPut(path, size, sha, ifMatch, ifNoneMatch, source, writes, cancelledAt) =>
            response := ServePlainPut(path, size, sha, ifMatch, ifNoneMatch, source, writes, cancelledAt);
          case OtherCall(path, ifMatch, ifNoneMatch, changed) =>
            response := ServeOther(path, ifMatch, ifNoneMatch, changed);
          case ReceiptCall(id, path) =>
            response := ServeReceipt(id, path);
        }
      }
    }
  }

  datatype Call =
    | DurablePut(id: string, request: Fingerprint, source: seq<S.ReadResult>, writes: seq<S.WriteResult>,
                 cancelledAt: Option<nat>)
    | PlainPut(path: string, size: int, sha: Option<Digest>, ifMatch: string, ifNoneMatch: string,
               source: seq<S.ReadResult>, writes: seq<S.WriteResult>, cancelledAt: Option<nat>)
    | OtherCall(path: string, ifMatch: string, ifNoneMatch: string, changed: Files)
    | ReceiptCall(id: string, path: string)

  /** The request delivers the announced body without a cancellation or a failing write. */
  predicate GoodBody(sha: Digest, size: nat, source: seq<S.ReadResult>, writes: seq<S.WriteResult>,
                     cancelledAt: Option<nat>) {
    && cancelledAt.None? && (forall w :: w in writes ==> !w.failed && w.taken >= S.MaxPiece(source))
    && S.WholeBody(source).Some? && |S.WholeBody(source).value| == size && Sha256(S.WholeBody(source).value) == sha
  }

  /** The content is the whole body, of the announced length and digest as far as they were announced. */
  predicate Announced(size: int, sha: Option<Digest>, source: seq<S.ReadResult>, content: seq<byte>) {
    && S.WholeBody(source) == Some(content)
    && (size >= 0 ==> |content| == size) && (sha.Some? ==> Sha256(content) == sha.value)
  }

  predicate GoodPlainBody(size: int, sha: Option<Digest>, source: seq<S.ReadResult>, writes: seq<S.WriteResult>,
                          cancelledAt: Option<nat>) {
    && cancelledAt.None? && (forall w :: w in writes ==> !w.failed && w.taken >= S.MaxPiece(source))
    && S.WholeBody(source).Some? && Announced(size, sha, source, S.WholeBody(source).value)
  }

  /** The log grew by the rename of `record`: the whole body of the request, over the file that was there. */
  predicate IsCommitOf(before: State, log: seq<Entry>, record: Record, source: seq<S.ReadResult>) {
    && |log| == |before.log| + 1 && log[..|before.log|] == before.log
    && var e := log[|before.log|];
       e.Commit? && e.id == Some(record.id) && e.target == record.target
       && e.before == Lookup(before.files, record.target)
       && e.ifMatch == record.fingerprint.ifMatch && e.ifNoneMatch == record.fingerprint.ifNoneMatch
       && ConditionsMet(e.before, e.ifMatch, e.ifNoneMatch)
       && S.WholeBody(source) == Some(e.file.content) && |e.file.content| == record.size
       && Sha256(e.file.content) == record.sha
  }

  lemma {:induction false} SameCommit(s: State, admitted: State, log: seq<Entry>, record: Record,
                                      source: seq<S.ReadResult>)
    requires IsCommitOf(admitted, log, record, source) && record.target.Visible?
    requires admitted.log == s.log && VisibleFiles(admitted.files) == VisibleFiles(s.files)
    ensures IsCommitOf(s, log, record, source)
  {
    G.LookupVisible(s.files, record.target);
    G.LookupVisible(admitted.files, record.target);
  }

  /** Without the rename there is no evidence of it. */
  lemma {:induction false} NothingPublished(run: seq<State>, id: string)
    requires IsRun(run)
    requires var s := run[|run| - 1];
             s.pending.Some? && s.pending.value.id == id && id !in s.receipts && !HasEffect(s.log, id)
    ensures var s := run[|run| - 1]; !(s.pending.value.state == Prepared && Evidence(s.files, s.pending.value))
  {
    RunKeepsInv(run, |run| - 1);
    assert PendingSound(run[|run| - 1], run[|run| - 1].pending.value);
  }

  /** A status of 0 or 412 does not depend on whether an unneeded hash was available. */
  lemma {:induction false} StatusWithRevision(present: bool, ifMatch: string, ifNoneMatch: string,
                                              loaded: Option<string>, known: string)
    requires loaded.None? || loaded == Some(known)
    ensures var status := P.ConditionStatus(present, ifMatch, ifNoneMatch, loaded);
            status == 0 || status == 412 ==> status == P.ConditionStatus(present, ifMatch, ifNoneMatch, Some(known))
  {
    if loaded.None? && (!present || (!P.ComparesTags(ifMatch) && !P.ComparesTags(ifNoneMatch))) {
      P.UnusedInBoth(present, ifMatch, ifNoneMatch, "", known);
    }
  }
}
