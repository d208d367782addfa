/** Writing several files as one: each write is atomic, and a failure rolls every named path back. */
module FileWrite {
  import opened Common

  type Path = string
  type Data = string
  type Files = map<Path, Data>

  datatype Write = Write(path: Path, data: Data)

  /** All written and removed, or rolled back; then the paths whose own restore failed as well. */
  datatype Outcome = Done | RolledBack(failures: seq<Path>)

  function Contents(files: Files, path: Path): Option<Data> {
    if path in files then Some(files[path]) else None
  }

  // ---- What a completed write should give ----

  /** The last write of a path. */
  function LastWrite(writes: seq<Write>, path: Path): Option<Data> {
    if writes == [] then None
    else if writes[|writes| - 1].path == path then Some(writes[|writes| - 1].data)
    else LastWrite(writes[..|writes| - 1], path)
  }

  /** A removed path is gone, a written one has its last data, any other is as it was. */
  ghost predicate AllNew(before: Files, after: Files, writes: seq<Write>, removals: seq<Path>) {
    forall path :: Contents(after, path) ==
      if path in removals then None
      else if LastWrite(writes, path).Some? then LastWrite(writes, path)
      else Contents(before, path)
  }

  /** Every path but the ones listed is as it was. */
  ghost predicate AllOldBut(before: Files, after: Files, except: seq<Path>) {
    forall path :: path !in except ==> Contents(after, path) == Contents(before, path)
  }

  // ---- The paths named ----

  /** Without repetitions, in order of first mention. */
  function Distinct(paths: seq<Path>): seq<Path> {
    if paths == [] then []
    else
      var n := |paths| - 1;
      var d := Distinct(paths[..n]);
      if paths[n] in d then d else d + [paths[n]]
  }

  lemma {:induction false} DistinctHolds(paths: seq<Path>)
    ensures forall p :: p in Distinct(paths) <==> p in paths
    ensures forall i, j :: 0 <= i < j < |Distinct(paths)| ==> Distinct(paths)[i] != Distinct(paths)[j]
  {
    if paths != [] {
      var n := |paths| - 1;
      DistinctHolds(paths[..n]);
      assert paths == paths[..n] + [paths[n]];
    }
  }

  function PathsOf(writes: seq<Write>): seq<Path> {
    seq(|writes|, i requires 0 <= i < |writes| => writes[i].path)
  }

  function Named(writes: seq<Write>, removals: seq<Path>): seq<Path> {
    Distinct(PathsOf(writes) + removals)
  }

  lemma {:induction false} WritesAreNamed(writes: seq<Write>, removals: seq<Path>)
    ensures forall i :: 0 <= i < |writes| ==> writes[i].path in Named(writes, removals)
    ensures forall p :: p in removals ==> p in Named(writes, removals)
  {
    DistinctHolds(PathsOf(writes) + removals);
    forall i | 0 <= i < |writes|
      ensures writes[i].path in PathsOf(writes) + removals
    {
      assert (PathsOf(writes) + removals)[i] == writes[i].path;
    }
  }

  // ---- Which operations fail ----

  /** Whether the next operation fails; after the list none does. */
  predicate Fails(faults: seq<bool>) {
    faults != [] && faults[0]
  }

  function Rest(faults: seq<bool>): seq<bool> {
    if faults == [] then [] else faults[1..]
  }

  /** Whether `n` operations pass, and the faults that remain after the last one done. */
  function Attempt(faults: seq<bool>, n: nat): (bool, seq<bool>)
    decreases n
  {
    if n == 0 then (true, faults)
    else if Fails(faults) then (false, Rest(faults))
    else Attempt(Rest(faults), n - 1)
  }

  /** The paths whose own restore fails when they are restored last first. */
  function Unrestored(paths: seq<Path>, faults: seq<bool>): seq<Path> {
    if paths == [] then []
    else
      var n := |paths| - 1;
      (if Fails(faults) then [paths[n]] else []) + Unrestored(paths[..n], Rest(faults))
  }

  lemma {:induction false} NoneUnrestored(faults: seq<bool>)
    ensures Unrestored([], faults) == []
  {
  }

  lemma {:induction false} UnrestoredLast(paths: seq<Path>, path: Path, faults: seq<bool>, failures: seq<Path>)
    ensures failures + Unrestored(paths + [path], faults)
         == (if Fails(faults) then failures + [path] else failures) + Unrestored(paths, Rest(faults))
  {
    assert (paths + [path])[..|paths|] == paths;
  }

  // ---- The disk ----

  /** A file system whose operations fail as `faults` says, one entry an operation; after the list none fails. */
  class Disk {
    var files: Files
    var faults: seq<bool>

    constructor (files: Files, faults: seq<bool>)
      ensures this.files == files && this.faults == faults
    {
      this.files, this.faults := files, faults;
    }

    method NextFails() returns (fails: bool)
      modifies this`faults
      ensures fails == Fails(old(faults)) && faults == Rest(old(faults))
    {
      fails := faults != [] && faults[0];
      if faults != [] {
        faults := faults[1..];
      }
    }

    /** Rename a complete temporary file over the path: all or nothing. */
    method AtomicWrite(path: Path, data: Data) returns (ok: bool)
      modifies this
      ensures ok == !Fails(old(faults)) && faults == Rest(old(faults))
      ensures files == if ok then old(files)[path := data] else old(files)
    {
      var fails := NextFails();
      ok := !fails;
      if ok {
        files := files[path := data];
      }
    }

    method Remove(path: Path) returns (ok: bool)
      modifies this
      ensures ok == !Fails(old(faults)) && faults == Rest(old(faults))
      ensures files == if ok then old(files) - {path} else old(files)
    {
      var fails := NextFails();
      ok := !fails;
      if ok {
        files := files - {path};
      }
    }

    method RestoreSnapshot(path: Path, snapshot: Option<Data>) returns (ok: bool)
      modifies this
      ensures ok == !Fails(old(faults)) && faults == Rest(old(faults))
      ensures ok ==> Contents(files, path) == snapshot
      ensures !ok ==> files == old(files)
      ensures forall p :: p != path ==> Contents(files, p) == Contents(old(files), p)
    {
      match snapshot
      case Some(data) => ok := AtomicWrite(path, data);
      case None => ok := Remove(path);
    }

    /** Write and remove until something fails. */
    method Apply(writes: seq<Write>, removals: seq<Path>) returns (ok: bool)
      modifies this
      ensures (ok, faults) == Attempt(old(faults), |writes| + |removals|)
      ensures ok ==> AllNew(old(files), files, writes, removals)
      ensures AllOldBut(old(files), files, Named(writes, removals))
    {
      hide Attempt, AllNew, AllOldBut, Named, Fails, Rest, Contents, LastWrite;
      WritesAreNamed(writes, removals);
      NothingChanged(files, Named(writes, removals));
      for i := 0 to |writes|
        invariant Attempt(old(faults), |writes| + |removals|) == Attempt(faults, |writes| + |removals| - i)
        invariant AllNew(old(files), files, writes[..i], [])
        invariant AllOldBut(old(files), files, Named(writes, removals))
      {
        ghost var before := files;
        AttemptOne(faults, |writes| + |removals| - i);
        ok := AtomicWrite(writes[i].path, writes[i].data);
        assert writes[..i + 1] == writes[..i] + [writes[i]];
        if !ok {
          return;
        }
        WroteOneMore(old(files), before, writes[..i], writes[i], Named(writes, removals));
      }
      assert writes[..|writes|] == writes && removals[..0] == [];
      for i := 0 to |removals|
        invariant Attempt(old(faults), |writes| + |removals|) == Attempt(faults, |removals| - i)
        invariant AllNew(old(files), files, writes, removals[..i])
        invariant AllOldBut(old(files), files, Named(writes, removals))
      {
        ghost var before := files;
        AttemptOne(faults, |removals| - i);
        ok := Remove(removals[i]);
        if !ok {
          return;
        }
        assert removals[..i + 1] == removals[..i] + [removals[i]];
        RemovedOneMore(old(files), before, writes, removals[..i], removals[i], Named(writes, removals));
      }
      assert removals[..|removals|] == removals;
      AttemptNone(faults);
      ok := true;
    }

    /** Restore every path that can be, last first. */
    method RollBack(paths: seq<Path>, snapshots: seq<Option<Data>>, ghost original: Files) returns (failures: seq<Path>)
      requires |snapshots| == |paths| && AllOldBut(original, files, paths)
      requires forall i :: 0 <= i < |paths| ==> snapshots[i] == Contents(original, paths[i])
      modifies this
      ensures failures == Unrestored(paths, old(faults))
      ensures AllOldBut(original, files, failures) && forall p :: p in failures ==> p in paths
    {
      hide AllOldBut, Contents, Unrestored, Fails, Rest;
      failures := [];
      var k := |paths|;
      assert paths[..k] == paths && paths + [] == paths;
      while k > 0
        invariant 0 <= k <= |paths|
        invariant Unrestored(paths, old(faults)) == failures + Unrestored(paths[..k], faults)
        invariant AllOldBut(original, files, paths[..k] + failures)
        invariant forall p :: p in failures ==> p in paths
      {
        k := k - 1;
        ghost var before, failed, left := files, failures, faults;
        var restored := RestoreSnapshot(paths[k], snapshots[k]);
        assert paths[..k + 1] == paths[..k] + [paths[k]];
        UnrestoredLast(paths[..k], paths[k], left, failures);
        if !restored {
          failures := failures + [paths[k]];
        }
        StillOldBut(original, before, files, paths[..k], failed, failures, paths[k], restored);
      }
      assert paths[..0] + failures == failures;
      NoneUnrestored(faults);
      assert failures + [] == failures;
    }

    /**
     * All or nothing: all new exactly when no operation fails, and otherwise all old but for the paths whose
     * own restore fails, which are the ones reported.
     */
    method WriteFilesWithCompensation(writes: seq<Write>, removals: seq<Path>) returns (outcome: Outcome)
      modifies this
      ensures var (passed, left) := Attempt(old(faults), |writes| + |removals|);
        outcome == if passed then Done else RolledBack(Unrestored(Named(writes, removals), left))
      ensures outcome.Done? ==> AllNew(old(files), files, writes, removals)
      ensures outcome.RolledBack? ==> AllOldBut(old(files), files, outcome.failures)
      ensures outcome == RolledBack([]) ==> files == old(files)
      ensures outcome.RolledBack? ==> forall p :: p in outcome.failures ==> p in Named(writes, removals)
    {
      var paths := Named(writes, removals);
      DistinctHolds(PathsOf(writes) + removals);
      var snapshots := seq(|paths|, i requires 0 <= i < |paths| reads this => Contents(files, paths[i]));
      var ok := Apply(writes, removals);
      if ok {
        return Done;
      }
      var failures := RollBack(paths, snapshots, old(files));
      outcome := RolledBack(failures);
      if failures == [] {
        SameFiles(old(files), files);
      }
    }
  }

  lemma {:induction false} NothingChanged(files: Files, named: seq<Path>)
    ensures AllNew(files, files, [], []) && AllOldBut(files, files, named)
  {
  }

  lemma {:induction false} AttemptOne(faults: seq<bool>, n: nat)
    requires n > 0
    ensures Attempt(faults, n) == if Fails(faults) then (false, Rest(faults)) else Attempt(Rest(faults), n - 1)
  {
  }

  lemma {:induction false} AttemptNone(faults: seq<bool>)
    ensures Attempt(faults, 0) == (true, faults)
  {
  }

  lemma {:induction false} WroteOneMore(original: Files, before: Files, writes: seq<Write>, write: Write,
          named: seq<Path>)
    requires AllNew(original, before, writes, []) && AllOldBut(original, before, named) && write.path in named
    ensures AllNew(original, before[write.path := write.data], writes + [write], [])
    ensures AllOldBut(original, before[write.path := write.data], named)
  {
    assert (writes + [write])[..|writes|] == writes;
  }

  lemma {:induction false} RemovedOneMore(original: Files, before: Files, writes: seq<Write>, removals: seq<Path>,
          path: Path, named: seq<Path>)
    requires AllNew(original, before, writes, removals) && AllOldBut(original, before, named) && path in named
    ensures AllNew(original, before - {path}, writes, removals + [path])
    ensures AllOldBut(original, before - {path}, named)
  {
    forall p
      ensures Contents(before - {path}, p) == if p == path then None else Contents(before, p)
    {
    }
  }

  lemma {:induction false} StillOldBut(original: Files, before: Files, after: Files, rest: seq<Path>, failed: seq<Path>,
          failures: seq<Path>, path: Path, restored: bool)
    requires AllOldBut(original, before, (rest + [path]) + failed)
    requires forall p :: p != path ==> Contents(after, p) == Contents(before, p)
    requires if restored then Contents(after, path) == Contents(original, path) && failures == failed
             else failures == failed + [path]
    ensures AllOldBut(original, after, rest + failures)
  {
    forall p | p !in rest + failures
      ensures Contents(after, p) == Contents(original, p)
    {
      if p != path {
        assert p !in (rest + [path]) + failed;
      }
    }
  }

  lemma {:induction false} SameFiles(a: Files, b: Files)
    requires AllOldBut(a, b, [])
    ensures a == b
  {
    forall p
      ensures p in a <==> p in b
      ensures p in a ==> a[p] == b[p]
    {
      assert Contents(a, p) == Contents(b, p);
    }
  }
}
