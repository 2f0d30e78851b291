/**
 The crash-atomic replacement that the upload journal rests on (filesystem/journal.go): write a temporary file
 beside the journal file, then rename it. Every operation on the directory may fail or be cut short by a crash of the
 process; `seen` records every state of the directory that another process, or the next lock holder, could read.
 */
module JournalFile {
  import opened Content

  /** A journal file, or a temporary file under the reserved prefix. */
  datatype Name = Journal(name: string) | Temporary(token: string)

  /** A file: which one it is, and its content, which never changes once it is a journal file. */
  datatype File = File(identity: nat, data: seq<byte>)

  type Directory = map<Name, File>

  datatype Outcome = Done | Failed | Crashed

  datatype ReadResult = Data(data: seq<byte>) | Missing | Denied

  const READ_LIMIT := 16 * 1024

  function Journals(d: Directory): (j: Directory) {
    map n | n in d && n.Journal? :: d[n]
  }

  /** The journal files as they were, or with `name` replaced by `file`. */
  predicate OldOrNew(j: Directory, before: Directory, name: string, file: File) {
    j == before || j == before[Journal(name) := file]
  }

  /** From `from` on, the journal files are at first as before and from some point on replaced; no state shows
      anything else. */
  ghost predicate ReplacedAtomically(seen: seq<Directory>, from: nat, before: Directory, name: string, file: File) {
    && from <= |seen|
    && (forall i :: from <= i < |seen| ==> OldOrNew(Journals(seen[i]), before, name, file))
    && (forall i, j :: from <= i <= j < |seen| && Journals(seen[i]) == before[Journal(name) := file] ==>
          Journals(seen[j]) == before[Journal(name) := file])
  }

  /** readJournalFile, which looks at the file in one state of the directory and opens it in another: a file that is
      too long, or is not the one looked at, is refused. */
  function ReadJournalFile(atStat: Directory, atOpen: Directory, name: string): (r: ReadResult) {
    if Journal(name) !in atStat then Missing
    else if |atStat[Journal(name)].data| > READ_LIMIT then Denied
    else if Journal(name) !in atOpen then Missing
    else if atOpen[Journal(name)].identity != atStat[Journal(name)].identity then Denied
    else Data(atOpen[Journal(name)].data)
  }

  /** What a reader gets while, or after, a journal file is being replaced: the whole old file or the whole new one,
      or nothing if there was none; and it is refused exactly if the file it looked at is too long or was replaced
      before it was opened. */
  lemma {:induction false} ReadBesideWriter(seen: seq<Directory>, from: nat, before: Directory, name: string,
                                            file: File, i: nat, j: nat)
    requires ReplacedAtomically(seen, from, before, name, file) && from <= i <= j < |seen|
    requires before == Journals(before)
    requires Journal(name) in before ==> before[Journal(name)].identity != file.identity
    ensures var r := ReadJournalFile(seen[i], seen[j], name);
            var replacedBetween := Journals(seen[i]) == before && Journals(seen[j]) == before[Journal(name) := file];
            && (r == Missing <==> Journals(seen[i]) == before && Journal(name) !in before)
            && (r == Denied <==>
                  || (Journal(name) in seen[i] && |seen[i][Journal(name)].data| > READ_LIMIT)
                  || (Journal(name) in before && replacedBetween))
            && (r.Data? ==> r.data == file.data || (Journal(name) in before && r.data == before[Journal(name)].data))
  {
    JournalsHave(seen[i], name);
    JournalsHave(seen[j], name);
    assert OldOrNew(Journals(seen[i]), before, name, file) && OldOrNew(Journals(seen[j]), before, name, file);
    hide Journals;
  }

  lemma {:induction false} JournalsHave(d: Directory, name: string)
    ensures Journal(name) in d <==> Journal(name) in Journals(d)
    ensures Journal(name) in d ==> d[Journal(name)] == Journals(d)[Journal(name)]
  {
  }

  lemma {:induction false} TemporariesAreHidden(d: Directory, token: string, file: File)
    ensures Journals(d[Temporary(token) := file]) == Journals(d)
    ensures Journals(d - {Temporary(token)}) == Journals(d)
  {
  }

  lemma {:induction false} RenameReplaces(d: Directory, token: string, name: string)
    requires Temporary(token) in d
    ensures Journals((d - {Temporary(token)})[Journal(name) := d[Temporary(token)]]) ==
              Journals(d)[Journal(name) := d[Temporary(token)]]
  {
  }

  lemma {:induction false} OneMoreState(seen: seq<Directory>, from: nat, before: Directory, name: string, file: File,
                                        d: Directory)
    requires ReplacedAtomically(seen, from, before, name, file) && from < |seen|
    requires Journals(d) == Journals(seen[|seen| - 1]) || Journals(d) == before[Journal(name) := file]
    ensures ReplacedAtomically(seen + [d], from, before, name, file)
  {
    hide Journals;
  }

  /** Some identity is free in every directory. */
  lemma {:induction false} SomeIdentityIsFree(d: Directory) returns (identity: nat)
    ensures forall n :: n in d ==> d[n].identity < identity
    decreases |d|
  {
    identity := 0;
    if d != map[] {
      var n :| n in d;
      var rest := SomeIdentityIsFree(d - {n});
      identity := if rest > d[n].identity then rest else d[n].identity + 1;
      assert forall m :: m in d && m != n ==> m in (d - {n});
    }
  }

  predicate FreeIdentity(d: Directory, identity: nat) {
    forall n :: n in d ==> d[n].identity != identity
  }

  class Root {
    const healthy: bool
    var entries: Directory
    ghost var seen: seq<Directory>

    constructor (entries: Directory, healthy: bool)
      ensures Valid() && this.entries == entries && this.healthy == healthy
    {
      this.entries, this.healthy := entries, healthy;
      seen := [entries];
    }

    ghost predicate Valid()
      reads this
    {
      seen != [] && seen[|seen| - 1] == entries
    }

    method Io() returns (o: Outcome)
      ensures healthy ==> o == Done
    {
      var choice: nat := *;
      o := if healthy || choice == 0 then Done else if choice == 1 then Failed else Crashed;
    }

    /** Creating, filling or removing a temporary file. What it holds after a failure is anybody's guess. */
    method WriteTemporary(token: string, data: seq<byte>) returns (o: Outcome, file: File)
      requires Valid()
      modifies this
      ensures Valid() && seen == old(seen) + [entries] && Journals(entries) == old(Journals(entries))
      ensures o == Done ==> Temporary(token) in entries && entries[Temporary(token)] == file
      ensures file.data == data && FreeIdentity(old(entries), file.identity)
      ensures healthy ==> o == Done
    {
      o := Io();
      ghost var free := SomeIdentityIsFree(entries);
      assert FreeIdentity(entries, free);
      var identity: nat :| FreeIdentity(entries, identity);
      file := File(identity, data);
      var stored: seq<byte> := *;
      if o == Done {
        stored := data;
      }
      TemporariesAreHidden(entries, token, File(identity, stored));
      entries := entries[Temporary(token) := File(identity, stored)];
      seen := seen + [entries];
    }

    method RemoveTemporary(token: string) returns (o: Outcome)
      requires Valid()
      modifies this
      ensures Valid() && seen == old(seen) + [entries] && Journals(entries) == old(Journals(entries))
      ensures o == Done ==> entries == old(entries) - {Temporary(token)}
      ensures healthy ==> o == Done
    {
      o := Io();
      TemporariesAreHidden(entries, token, File(0, []));
      if o == Done {
        entries := entries - {Temporary(token)};
      }
      seen := seen + [entries];
    }

    /** The rename. One that reports an error was not applied; one that a crash cut short may have been. */
    method RenameTemporary(token: string, name: string) returns (o: Outcome)
      requires Valid() && Temporary(token) in entries
      modifies this
      ensures Valid() && seen == old(seen) + [entries]
      ensures var done := old(Journals(entries))[Journal(name) := old(entries[Temporary(token)])];
              && (o == Done ==> Journals(entries) == done && Temporary(token) !in entries)
              && (o == Failed ==> entries == old(entries))
              && (Journals(entries) == done || Journals(entries) == old(Journals(entries)))
      ensures healthy ==> o == Done
    {
      o := Io();
      var applied: bool := *;
      if o == Done || (o == Crashed && applied) {
        RenameReplaces(entries, token, name);
        entries := (entries - {Temporary(token)})[Journal(name) := entries[Temporary(token)]];
      }
      seen := seen + [entries];
    }

    /** writeJournalFile: whoever reads the directory, at whatever point of the call and after a crash anywhere in
        it, finds the old file or the new one, and never the old one again after the new one. */
    method WriteJournalFile(name: string, data: seq<byte>, token: string) returns (o: Outcome, file: File)
      requires Valid() && Temporary(token) !in entries
      modifies this
      ensures Valid() && old(seen) <= seen
      ensures file.data == data && FreeIdentity(old(entries), file.identity)
      ensures ReplacedAtomically(seen, |old(seen)| - 1, old(Journals(entries)), name, file)
      ensures o == Done ==> Journals(entries) == old(Journals(entries))[Journal(name) := file]
      ensures healthy ==> o == Done && Temporary(token) !in entries
    {
      ghost var before, from := Journals(entries), |seen| - 1;
      o, file := WriteTemporary(token, data);
      assert ReplacedAtomically(old(seen), from, before, name, file);
      hide ReplacedAtomically, Journals;
      OneMoreState(old(seen), from, before, name, file, entries);
      if o == Done {
        label written:
        o := RenameTemporary(token, name);
        OneMoreState(old@written(seen), from, before, name, file, entries);
        if o == Done {
          o := Io();
        }
      }
      if o != Crashed {
        label renamed:
        var removed := RemoveTemporary(token);
        OneMoreState(old@renamed(seen), from, before, name, file, entries);
      }
    }
  }

  /** What is written can be read back exactly when it fits the read limit, which writing does not check. */
  method WriteThenRead(entries: Directory, name: string, data: seq<byte>, token: string) returns (r: ReadResult)
    requires Temporary(token) !in entries
    ensures r == Data(data) <==> |data| <= READ_LIMIT
    ensures |data| > READ_LIMIT ==> r == Denied
  {
    var root := new Root(entries, true);
    var o, file := root.WriteJournalFile(name, data, token);
    JournalsHave(root.entries, name);
    r := ReadJournalFile(root.entries, root.entries, name);
  }

  /** A reader that looks before the rename and opens after it is refused, however short the file is: it has to read
      again. */
  method ReadAcrossWrite(entries: Directory, name: string, data: seq<byte>, token: string) returns (r: ReadResult)
    requires Temporary(token) !in entries && Journal(name) in entries
    ensures r == Denied
  {
    var root := new Root(entries, true);
    var o, file := root.WriteJournalFile(name, data, token);
    JournalsHave(root.entries, name);
    r := ReadJournalFile(entries, root.entries, name);
  }
}
