/** The save of a journal and a config as writes of three files, and what those files hold after each of them. */
module StateFiles {
  import opened Common
  import W = FileWrite
  import J = Journal

  /** Where the files are, and how a journal is written and read. */
  datatype Layout<!T> = Layout(primary: W.Path, recovery: W.Path, config: W.Path,
                               serialize: T -> W.Data, parse: W.Data -> Option<T>)

  ghost predicate Sane<T(!new)>(l: Layout<T>) {
    && l.primary != l.recovery && l.primary != l.config && l.recovery != l.config
    && forall j :: l.parse(l.serialize(j)) == Some(j)
  }

  function CopyAt<T>(files: W.Files, path: W.Path, l: Layout<T>): J.Copy<T> {
    if path !in files then J.Missing
    else
      match l.parse(files[path])
      case Some(j) => J.Holds(j)
      case None => J.Corrupt
  }

  function DiskOf<T>(files: W.Files, l: Layout<T>): J.Disk<T, Option<W.Data>> {
    J.Disk(CopyAt(files, l.primary, l), CopyAt(files, l.recovery, l), W.Contents(files, l.config))
  }

  /** The recovery copy records the intent, the primary copy the commit. */
  function SaveWrites<T>(l: Layout<T>, j: T, config: W.Data): seq<W.Write> {
    [W.Write(l.recovery, l.serialize(j)), W.Write(l.config, config), W.Write(l.primary, l.serialize(j))]
  }

  function Written(files: W.Files, writes: seq<W.Write>): W.Files {
    if writes == [] then files
    else
      var last := writes[|writes| - 1];
      Written(files, writes[..|writes| - 1])[last.path := last.data]
  }

  /** Snapshots put back for the last `n` of these paths, last one first. */
  function PutBack(files: W.Files, before: W.Files, paths: seq<W.Path>, n: nat): W.Files
    requires n <= |paths|
    decreases n
  {
    if n == 0 then files
    else
      var earlier, path := PutBack(files, before, paths, n - 1), paths[|paths| - n];
      if path in before then earlier[path := before[path]] else earlier - {path}
  }

  lemma {:induction false} WrittenPrefix<T>(files: W.Files, l: Layout<T>, j: T, config: W.Data)
    ensures var ws, text := SaveWrites(l, j, config), l.serialize(j);
      && Written(files, ws[..0]) == files
      && Written(files, ws[..1]) == files[l.recovery := text]
      && Written(files, ws[..2]) == files[l.recovery := text][l.config := config]
      && Written(files, ws[..3]) == files[l.recovery := text][l.config := config][l.primary := text]
  {
    var ws := SaveWrites(l, j, config);
    assert ws[..1][..0] == ws[..0] && ws[..2][..1] == ws[..1] && ws[..3][..2] == ws[..2];
  }

  /** A save stopped after any of its writes leaves the files of the save stopped at that point. */
  lemma {:induction false} SaveIsItsWrites<T(!new)>(files: W.Files, l: Layout<T>, j: T, config: W.Data, stop: nat)
    requires Sane(l) && stop <= 3
    ensures DiskOf(Written(files, SaveWrites(l, j, config)[..stop]), l)
      == J.Save(DiskOf(files, l), j, Some(config), stop)
  {
    WrittenPrefix(files, l, j, config);
  }

  /** A rollback stopped anywhere leaves the files of the undo stopped there, whatever was written before it. */
  lemma {:induction false} UndoIsItsWrites<T(
          !new)>(files: W.Files, l: Layout<T>, j: T, config: W.Data, written: nat, undone: nat)
    requires Sane(l) && written <= 3 && undone <= 3
    ensures var paths := [l.recovery, l.config, l.primary];
      var d, put := DiskOf(files, l),
          PutBack(Written(files, SaveWrites(l, j, config)[..written]), files, paths, undone);
      DiskOf(put, l) == J.Undo(d, j, Some(config), written, undone)
  {
    hide J.Save;
    SaveIsItsWrites(files, l, j, config, written);
    WrittenPrefix(files, l, j, config);
    var paths := [l.recovery, l.config, l.primary];
    var w := Written(files, SaveWrites(l, j, config)[..written]);
    assert PutBack(w, files, paths, 0) == w;
    PutBackOne(w, files, paths, 1, l);
    PutBackOne(w, files, paths, 2, l);
    PutBackOne(w, files, paths, 3, l);
  }

  lemma {:induction false} PutBackOne<T(!new)>(w: W.Files, files: W.Files, paths: seq<W.Path>, n: nat, l: Layout<T>)
    requires Sane(l) && paths == [l.recovery, l.config, l.primary] && 1 <= n <= 3
    ensures var d := DiskOf(PutBack(w, files, paths, n - 1), l);
      DiskOf(PutBack(w, files, paths, n), l) ==
        if n == 1 then d.(primary := CopyAt(files, l.primary, l))
        else if n == 2 then d.(config := W.Contents(files, l.config))
        else d.(recovery := CopyAt(files, l.recovery, l))
  {
  }

  /** Saving: the three writes in order, and the removal of the models cache, as one. */
  method WriteIntegrationState<T>(disk: W.Disk, l: Layout<T>, j: T, config: W.Data, modelsCache: W.Path)
    returns (outcome: W.Outcome)
    modifies disk
    ensures outcome.Done? ==> W.AllNew(old(disk.files), disk.files, SaveWrites(l, j, config), [modelsCache])
    ensures outcome.RolledBack? ==> W.AllOldBut(old(disk.files), disk.files, outcome.failures)
    ensures outcome == W.RolledBack([]) ==> disk.files == old(disk.files)
    ensures outcome.Done? <==> W.Attempt(old(disk.faults), 4).0
  {
    outcome := disk.WriteFilesWithCompensation(SaveWrites(l, j, config), [modelsCache]);
  }
}
