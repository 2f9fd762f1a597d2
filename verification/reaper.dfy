/** Releasing working files (`moveFileToTemp`) and the age-based sweep of the
    temp directory (`cleanupTempFiles`). Neither reports a failure: every
    file-system error is logged and swallowed, so the model records what is
    attempted. */
module Reaper {
  import opened Outcomes
  import opened Text
  import opened NodePath

  /** The platform check `os.platform() === 'win32'`. */
  datatype Platform = Windows | Posix

  /** What `moveFileToTemp` attempts for one working file. */
  datatype ReleaseAction =
    | Unlink(path: string)
    | MoveTo(path: string, target: string)

  /** The name a file gets in the temp directory: the clock reading, a dash
      and the file's base name. */
  function TempName(stamp: nat, p: LocalPath): string {
    Decimal(stamp) + "-" + BaseName(PathString(p))
  }

  /** `moveFileToTemp`: unlink in place off Windows; on Windows rename into
      the temp directory under a time-stamped name. */
  function Release(platform: Platform, tempDir: string, stamp: nat, p: LocalPath): (a: ReleaseAction)
    ensures a.path == PathString(p)
    ensures a.Unlink? <==> platform == Posix
  {
    match platform
    case Posix => Unlink(PathString(p))
    case Windows => MoveTo(PathString(p), PathString(LocalPath(tempDir, TempName(stamp, p))))
  }

  /** What follows the last slash of `dir/name` is `name`. */
  lemma {:induction false} AfterLastSlashOfJoin(dir: string, name: string)
    requires '/' !in name
    ensures AfterLastSlash(dir + "/" + name) == name
    decreases |name|
  {
    var s := dir + "/" + name;
    if name == [] {
      assert s == dir + "/";
    } else {
      var init := name[..|name| - 1];
      assert s[|s| - 1] == name[|name| - 1];
      assert name[|name| - 1] in name;
      assert s[..|s| - 1] == dir + "/" + init;
      assert AfterLastSlash(s) == AfterLastSlash(dir + "/" + init) + [name[|name| - 1]];
      AfterLastSlashOfJoin(dir, init);
      assert name == init + [name[|name| - 1]];
    }
  }

  /** The base name of a joined path is the joined file name. */
  lemma BaseNameOfJoin(dir: string, name: string)
    requires name != "" && '/' !in name
    ensures BaseName(dir + "/" + name) == name
  {
    var s := dir + "/" + name;
    assert s[|s| - 1] == name[|name| - 1];
    assert TrimTrailingSlashes(s) == s;
    AfterLastSlashOfJoin(dir, name);
  }

  /** On Windows a released file lands in the temp directory, under a name
      that is the stamp, a dash and its own name. */
  lemma MovedIntoTempDir(tempDir: string, stamp: nat, p: LocalPath)
    requires p.name != "" && '/' !in p.name
    ensures Release(Windows, tempDir, stamp, p)
         == MoveTo(PathString(p), tempDir + "/" + Decimal(stamp) + "-" + p.name)
  {
    BaseNameOfJoin(p.dir, p.name);
  }

  /** One entry of the temp directory listing, with the modification time
      `fs.stat` reports (None when `stat` throws). */
  datatype TempEntry = TempEntry(name: string, mtime: Option<int>)

  predicate IsOld(e: TempEntry, now: int, maxAge: int) {
    e.mtime.Some? && now - e.mtime.value > maxAge
  }

  /** 24 hours in milliseconds, the default maximum age. */
  const DefaultMaxAge := 24 * 60 * 60 * 1000

  /** The entries the sweep unlinks, in listing order. A failing `stat`
      aborts the loop, so nothing after it is looked at. */
  function SweepFrom(entries: seq<TempEntry>, now: int, maxAge: int): seq<string> {
    if |entries| == 0 then []
    else
      match entries[0].mtime
      case None => []
      case Some(m) =>
        (if now - m > maxAge then [entries[0].name] else []) + SweepFrom(entries[1..], now, maxAge)
  }

  /** Only entries older than the maximum age are unlinked. */
  lemma {:induction false} SweepOnlyOld(entries: seq<TempEntry>, now: int, maxAge: int)
    ensures forall n :: n in SweepFrom(entries, now, maxAge) ==>
              exists i :: 0 <= i < |entries| && entries[i].name == n && IsOld(entries[i], now, maxAge)
  {
    if |entries| > 0 && entries[0].mtime.Some? {
      SweepOnlyOld(entries[1..], now, maxAge);
      forall n | n in SweepFrom(entries[1..], now, maxAge)
        ensures exists i :: 0 <= i < |entries| && entries[i].name == n && IsOld(entries[i], now, maxAge)
      {
        var j :| 0 <= j < |entries[1..]| && entries[1..][j].name == n && IsOld(entries[1..][j], now, maxAge);
        assert entries[j + 1] == entries[1..][j];
      }
    }
  }

  /** When every `stat` answers, every entry older than the maximum age is
      unlinked. */
  lemma {:induction false} SweepAllOld(entries: seq<TempEntry>, now: int, maxAge: int)
    requires forall i :: 0 <= i < |entries| ==> entries[i].mtime.Some?
    ensures forall i :: 0 <= i < |entries| && IsOld(entries[i], now, maxAge) ==>
              entries[i].name in SweepFrom(entries, now, maxAge)
  {
    if |entries| > 0 {
      var rest := entries[1..];
      assert forall i :: 0 <= i < |rest| ==> rest[i] == entries[i + 1];
      SweepAllOld(rest, now, maxAge);
      forall i | 1 <= i < |entries| && IsOld(entries[i], now, maxAge)
        ensures entries[i].name in SweepFrom(entries, now, maxAge)
      {
        assert rest[i - 1] == entries[i];
      }
    }
  }

  /** `cleanupTempFiles`: Windows only, and nothing when the directory cannot
      be listed. */
  function Sweep(platform: Platform, listing: Option<seq<TempEntry>>, now: int, maxAge: int): (r: seq<string>)
    ensures platform == Posix || listing.None? ==> r == []
    ensures forall n :: n in r ==>
              exists i :: 0 <= i < |listing.value| && listing.value[i].name == n && IsOld(listing.value[i], now, maxAge)
  {
    if platform == Posix || listing.None? then []
    else
      SweepOnlyOld(listing.value, now, maxAge);
      SweepFrom(listing.value, now, maxAge)
  }

  /** The sweep as the source's loop over the listing. */
  method CleanupTempFiles(platform: Platform, listing: Option<seq<TempEntry>>, now: int, maxAge: int)
    returns (deleted: seq<string>)
    ensures deleted == Sweep(platform, listing, now, maxAge)
  {
    deleted := [];
    if platform == Posix || listing.None? {
      return;
    }
    var entries := listing.value;
    var i := 0;
    while i < |entries|
      invariant 0 <= i <= |entries|
      invariant deleted + SweepFrom(entries[i..], now, maxAge) == SweepFrom(entries, now, maxAge)
    {
      var e := entries[i];
      assert entries[i..][0] == e && entries[i..][1..] == entries[i + 1..];
      if e.mtime.None? {
        return;
      }
      if now - e.mtime.value > maxAge {
        deleted := deleted + [e.name];
      }
      i := i + 1;
    }
  }

  /** With every `stat` answering and distinct entry names, the sweep
      deletes exactly the entries older than the maximum age. */
  lemma SweepDeletesExactlyOld(entries: seq<TempEntry>, now: int, maxAge: int)
    requires forall i :: 0 <= i < |entries| ==> entries[i].mtime.Some?
    requires forall i, j :: 0 <= i < j < |entries| ==> entries[i].name != entries[j].name
    ensures forall i :: 0 <= i < |entries| ==>
              (entries[i].name in Sweep(Windows, Some(entries), now, maxAge) <==> IsOld(entries[i], now, maxAge))
  {
    var r := SweepFrom(entries, now, maxAge);
    SweepOnlyOld(entries, now, maxAge);
    SweepAllOld(entries, now, maxAge);
    forall i | 0 <= i < |entries| && entries[i].name in r
      ensures IsOld(entries[i], now, maxAge)
    {
      var j :| 0 <= j < |entries| && entries[j].name == entries[i].name && IsOld(entries[j], now, maxAge);
      assert i == j;
    }
  }

  /** Off Windows the sweep deletes nothing. */
  lemma PosixNeverSweeps(listing: Option<seq<TempEntry>>, now: int, maxAge: int)
    ensures Sweep(Posix, listing, now, maxAge) == []
  {
  }
}
