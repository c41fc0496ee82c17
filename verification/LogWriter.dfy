/**
  The log writer itself, over a directory whose every operation may fail.

  A failing operation leaves the directory as it was, except an append, which may have persisted a
  prefix, and an open, which may have created the file before its size could be read.  Each failure
  is counted in Disk.faults, so that a contract can say what holds when there was none.
 */
module LogWriter {
  import opened Volumes
  import opened LogNames
  import opened Text
  import opened LogHistory

  type Files = map<string, Entry>

  function Look(files: Files, name: string): Entry {
    if name in files then files[name] else Absent
  }

  /** One date of the stream: the file and its volumes. */
  function View(files: Files, path: string, k: nat): (d: seq<Entry>)
    ensures |d| == k + 1
    ensures forall i :: 0 <= i <= k ==> d[i] == Look(files, Slot(path, i))
  {
    seq(k + 1, i requires 0 <= i => Look(files, Slot(path, i)))
  }

  ghost predicate IsSlot(path: string, k: nat, name: string) {
    exists i: nat :: i <= k && name == Slot(path, i)
  }

  ghost predicate SameOutside(f: Files, f': Files, path: string, k: nat) {
    forall name :: !IsSlot(path, k, name) ==> Look(f', name) == Look(f, name)
  }

  lemma ViewUpdate(files: Files, path: string, k: nat, i: nat, e: Entry)
    requires i <= k
    ensures View(files[Slot(path, i) := e], path, k) == View(files, path, k)[i := e]
    ensures SameOutside(files, files[Slot(path, i) := e], path, k)
  {
    var files' := files[Slot(path, i) := e];
    forall j | 0 <= j <= k ensures View(files', path, k)[j] == View(files, path, k)[i := e][j] {
      if j != i && Slot(path, j) == Slot(path, i) {
        SlotInjective(path, i, j);
      }
    }
  }

  lemma ActiveSlot(files: Files, path: string, k: nat)
    ensures View(files, path, k)[0] == Look(files, path)
  {
  }

  /** The names cleanup may remove: this stream's, more than four days old. */
  ghost predicate Expired(base: string, k: nat, today: Date, name: string) {
    exists d, i :: IsOwned(base, k, name, d, i) && DayNumber(d) + 4 < DayNumber(today)
  }

  /** What cleanup may do to one entry whatever fails, and what it does when nothing fails. */
  ghost predicate MaySweep(base: string, k: nat, today: Date, name: string, e: Entry, e': Entry) {
    e' == e || (e.Regular? && Expired(base, k, today, name) && e' == Absent)
  }

  ghost predicate Sweeps(base: string, k: nat, today: Date, name: string, e: Entry, e': Entry) {
    e' == if e.Regular? && Expired(base, k, today, name) then Absent else e
  }

  lemma TodayNotExpired(base: string, k: nat, today: Date, i: nat)
    requires IsDate(today) && today.year >= 1 && i <= k
    ensures !Expired(base, k, today, Slot(DatePath(base, today), i))
  {
    var name := Slot(DatePath(base, today), i);
    assert IsOwned(base, k, name, today, i);
    forall d, j | IsOwned(base, k, name, d, j) ensures d == today {
      OwnedUnique(base, k, name, today, i, d, j);
    }
  }

  lemma UnsweptNames(base: string, k: nat, today: Date, f: Files)
    ensures forall name :: MaySweep(base, k, today, name, Look(f, name), Look(f, name))
    ensures forall name :: Look(f, name).Absent? ==> Sweeps(base, k, today, name, Look(f, name), Look(f, name))
  {
    hide Expired;
  }

  /** Sweeping leaves the date being written alone. */
  lemma SweptKeepsToday(f: Files, f': Files, base: string, k: nat, today: Date)
    requires IsDate(today) && today.year >= 1
    requires forall name :: MaySweep(base, k, today, name, Look(f, name), Look(f', name))
    ensures View(f', DatePath(base, today), k) == View(f, DatePath(base, today), k)
  {
    hide Slot, Expired;
    var p := DatePath(base, today);
    forall i | 0 <= i <= k ensures View(f', p, k)[i] == View(f, p, k)[i] {
      TodayNotExpired(base, k, today, i);
      assert MaySweep(base, k, today, Slot(p, i), Look(f, Slot(p, i)), Look(f', Slot(p, i)));
    }
  }

  datatype Error = Fault | NotRegular | Oversized | BadVolume | ShortWrite | Closed

  /** The log directory. */
  class Disk {
    var files: Files
    ghost var faults: nat

    /** os.Lstat; a missing file is an answer, not a failure. */
    method Lstat(name: string) returns (ok: bool, e: Entry)
      modifies this`faults
      ensures faults == old(faults) + if ok then 0 else 1
      ensures ok ==> e == Look(files, name)
    {
      ok, e := *, Look(files, name);
      if !ok { faults := faults + 1; }
    }

    /** Any operation that only reports success: Stat, Chmod, Close. */
    method Attempt() returns (ok: bool)
      modifies this`faults
      ensures faults == old(faults) + if ok then 0 else 1
    {
      ok := *;
      if !ok { faults := faults + 1; }
    }

    /** os.OpenFile with O_CREATE and O_APPEND. */
    method OpenFile(name: string) returns (ok: bool)
      requires !Look(files, name).Irregular?
      modifies this
      ensures faults == old(faults) + if ok then 0 else 1
      ensures files == if ok && Look(old(files), name).Absent? then old(files)[name := Regular([])] else old(files)
    {
      ok := *;
      if !ok { faults := faults + 1; return; }
      if Look(files, name).Absent? { files := files[name := Regular([])]; }
    }

    /** (*os.File).Write: n bytes reach the file even when it fails. */
    method Append(name: string, chunk: Bytes) returns (n: nat, ok: bool)
      requires Look(files, name).Regular?
      modifies this
      ensures n <= |chunk|
      ensures faults == old(faults) + if ok && n == |chunk| then 0 else 1
      ensures files == old(files)[name := Regular(Look(old(files), name).data + chunk[..n])]
    {
      n, ok := *, *;
      if n > |chunk| { n := |chunk|; }
      files := files[name := Regular(Look(files, name).data + chunk[..n])];
      if !ok || n < |chunk| { faults := faults + 1; }
    }

    method Remove(name: string) returns (ok: bool)
      modifies this
      ensures faults == old(faults) + if ok then 0 else 1
      ensures files == if ok then old(files)[name := Absent] else old(files)
    {
      ok := *;
      if ok { files := files[name := Absent]; } else { faults := faults + 1; }
    }

    method Rename(from: string, to: string) returns (ok: bool)
      requires !Look(files, from).Absent? && from != to
      modifies this
      ensures faults == old(faults) + if ok then 0 else 1
      ensures files == if ok then old(files)[to := Look(old(files), from)][from := Absent] else old(files)
    {
      ok := *;
      if ok { files := files[to := Look(files, from)][from := Absent]; } else { faults := faults + 1; }
    }

    /** os.ReadDir. */
    method ReadDir() returns (ok: bool, names: set<string>)
      modifies this`faults
      ensures faults == old(faults) + if ok then 0 else 1
      ensures ok ==> forall name :: name in names <==> !Look(files, name).Absent?
    {
      ok, names := *, set name | name in files && !files[name].Absent?;
      if !ok { faults := faults + 1; }
    }
  }

  /** What the clock says at one call: an instant in nanoseconds, the local date, and the instant
      the next local day starts. */
  datatype Clock = Clock(now: int, today: Date, midnight: int)

  // times are in nanoseconds
  const SECOND: int := 1_000_000_000
  const HOUR: int := 3600 * SECOND
  const DEFAULT_MAX_SIZE: nat := 64 * 1024 * 1024
  const DEFAULT_BACKUPS: nat := 3

  class Writer {
    const disk: Disk
    const base: string
    const maxSize: nat
    const maxFiles: nat
    var path: string
    var isOpen: bool
    var size: nat
    var closed: bool
    var nextCleanup: int
    var retryAt: Option<int>
    var lastError: Option<Error>
    ghost var removed: nat   // volumes given up by rotations
    ghost var shifted: nat   // rotations completed

    /** The open handle knows its file's size; a pending retry remembers its error. */
    ghost predicate Valid()
      reads this, disk
    {
      && maxSize > 0 && maxFiles > 0
      && (isOpen ==> Dir()[0].Regular? && |Dir()[0].data| == size)
      && (retryAt.Some? ==> lastError.Some?)
    }

    ghost function Dir(): (d: seq<Entry>)
      reads this, disk
      ensures |d| == maxFiles + 1
    {
      View(disk.files, path, maxFiles)
    }

    constructor (disk: Disk, base: string, maxSize: int, maxFiles: int, today: Date)
      requires IsDate(today) && today.year >= 1
      ensures Valid() && !isOpen && !closed && retryAt.None? && lastError.None?
      ensures this.disk == disk && this.base == base && path == DatePath(base, today)
      ensures this.maxSize == (if maxSize <= 0 then DEFAULT_MAX_SIZE else maxSize)
      ensures this.maxFiles == (if maxFiles <= 0 then DEFAULT_BACKUPS else maxFiles)
    {
      this.disk, this.base, this.path := disk, base, DatePath(base, today);
      this.maxSize := if maxSize <= 0 then DEFAULT_MAX_SIZE else maxSize;
      this.maxFiles := if maxFiles <= 0 then DEFAULT_BACKUPS else maxFiles;
      isOpen, size, closed, nextCleanup, retryAt, lastError := false, 0, false, 0, None, None;
      removed, shifted := 0, 0;
    }

    method Open() returns (err: Option<Error>)
      requires Valid() && !isOpen
      modifies this`isOpen, this`size, disk
      ensures Valid() && isOpen == err.None?
      ensures Reopens(old(Dir()), Dir()) && SameOutside(old(disk.files), disk.files, path, maxFiles)
      ensures isOpen ==> Dir()[0].Regular? && |Dir()[0].data| == size
      ensures disk.faults >= old(disk.faults)
      ensures disk.faults == old(disk.faults) ==> (isOpen <==> !old(Dir())[0].Irregular?)
      ensures old(Dir())[0].Irregular? ==> err.Some? && Dir() == old(Dir())
    {
      var ok, info := disk.Lstat(path);
      if !ok { return Some(Fault); }
      if info.Irregular? { return Some(NotRegular); }
      ok := disk.OpenFile(path);
      if !ok { return Some(Fault); }
      if info.Absent? { ViewUpdate(old(disk.files), path, maxFiles, 0, Regular([])); }
      ok := disk.Attempt();  // Stat
      if !ok {
        ok := disk.Attempt();
        return Some(Fault);
      }
      assert Slot(path, 0) == path;
      var length := |disk.files[path].data|;
      if length <= maxSize {
        ok := disk.Attempt();  // Chmod
        if !ok {
          ok := disk.Attempt();
          return Some(Fault);
        }
      }
      isOpen, size := true, length;
      return None;
    }

    method CloseFile() returns (err: Option<Error>)
      requires Valid()
      modifies this`isOpen, disk`faults
      ensures Valid() && !isOpen
      ensures disk.faults == old(disk.faults) + if err.None? then 0 else 1
      ensures err.None? || err == Some(Fault)
    {
      if !isOpen { return None; }
      var ok := disk.Attempt();
      isOpen := false;
      return if ok then None else Some(Fault);
    }

    method Close() returns (err: Option<Error>)
      requires Valid()
      modifies this`isOpen, this`closed, disk`faults
      ensures Valid() && closed && !isOpen
    {
      closed := true;
      err := CloseFile();
    }

    /** The rotation of a full active file, seen by a write that still has data to persist. */
    method Rotate(ghost data: Bytes) returns (err: Option<Error>)
      requires Valid() && !isOpen && data != []
      requires Dir()[0].Regular? && |Dir()[0].data| == maxSize
      modifies this`removed, this`shifted, disk
      ensures Valid()
      ensures removed >= old(removed) && shifted >= old(shifted) && disk.faults >= old(disk.faults)
      ensures Progress(maxSize, old(Dir()), data, 0, removed - old(removed), shifted - old(shifted), Dir())
      ensures SameOutside(old(disk.files), disk.files, path, maxFiles)
      ensures err.None? ==> Dir()[0].Absent?
      ensures disk.faults == old(disk.faults) ==> (err.None? <==> VolumesOk(maxSize, old(Dir())))
      ensures !VolumesOk(maxSize, old(Dir())) ==> Dir() == old(Dir())
    {
      hide Progress, Slot, Ideal, IsSlot, Look;

      ghost var before := Dir();
      ProgressNothing(maxSize, before, data);
      var gap := 0;
      var i := 1;
      while i <= maxFiles
        invariant 1 <= i <= maxFiles + 1
        invariant disk.files == old(disk.files) && disk.faults == old(disk.faults)
        invariant removed == old(removed) && shifted == old(shifted)
        invariant forall j :: 1 <= j < i ==> BoundedVolume(maxSize, before[j])
        invariant gap == 0 ==> forall j :: 1 <= j < i ==> !before[j].Absent?
        invariant gap != 0 ==> 1 <= gap < i && before[gap].Absent? && forall j :: 1 <= j < gap ==> !before[j].Absent?
      {
        var ok, info := disk.Lstat(Slot(path, i));
        if !ok { return Some(Fault); }
        assert info == before[i];
        if info.Absent? {
          if gap == 0 { gap := i; }
        } else if info.Irregular? || |info.data| > maxSize {
          return Some(BadVolume);
        }
        i := i + 1;
      }
      assert VolumesOk(maxSize, before);
      if gap == 0 {
        FirstVacantIs(before, 1, maxFiles + 1);
        var ok := disk.Remove(Slot(path, maxFiles));
        if !ok { return Some(Fault); }
        removed := removed + 1;
        gap := maxFiles;
        ViewUpdate(old(disk.files), path, maxFiles, maxFiles, Absent);
        ProgressRemove(maxSize, before, data);
        RotatedAfterRemoval(before);
      } else {
        FirstVacantIs(before, 1, gap);
      }
      ghost var middle, given := Dir(), removed - old(removed);
      err := Shift(data, gap);
      assert data[0..] == data;
      ProgressCompose(maxSize, before, data, 0, given, 0, middle, 0, 0, shifted - old(shifted), Dir());
    }

    /** Moves every entry before the gap up one slot, oldest first. */
    method Shift(ghost data: Bytes, gap: nat) returns (err: Option<Error>)
      requires Valid() && !isOpen && data != []
      requires Dir()[0].Regular? && |Dir()[0].data| == maxSize && VolumesOk(maxSize, Dir())
      requires gap == Gap(Dir()) && Dir()[gap].Absent?
      modifies this`shifted, disk
      ensures Valid()
      ensures shifted >= old(shifted) && disk.faults >= old(disk.faults)
      ensures Progress(maxSize, old(Dir()), data, 0, 0, shifted - old(shifted), Dir())
      ensures SameOutside(old(disk.files), disk.files, path, maxFiles)
      ensures err.None? ==> Dir()[0].Absent?
      ensures disk.faults == old(disk.faults) ==> err.None?
    {
      hide Progress, Slot, Ideal, Rotated;

      ghost var start := Dir();
      HoleLast(start, gap);
      var i := gap;
      while i > 1
        invariant 1 <= i <= gap
        invariant Dir() == Hole(start, i, gap)
        invariant SameOutside(old(disk.files), disk.files, path, maxFiles)
        invariant shifted == old(shifted) && disk.faults == old(disk.faults)
      {
        var ok := MoveUp(i - 1);
        if !ok {
          ProgressHole(maxSize, start, data, i);
          return Some(Fault);
        }
        HoleStep(start, i, gap);
        i := i - 1;
      }
      var ok := MoveUp(0);
      if !ok {
        ProgressHole(maxSize, start, data, 1);
        return Some(Fault);
      }
      shifted := shifted + 1;
      ProgressShifted(maxSize, start, data);
      return None;
    }

    /** One rename, from slot i to the vacant slot above it. */
    method MoveUp(i: nat) returns (ok: bool)
      requires Valid() && !isOpen && i < maxFiles
      requires !Dir()[i].Absent?
      modifies disk
      ensures Valid()
      ensures Dir() == if ok then old(Dir())[i + 1 := old(Dir())[i]][i := Absent] else old(Dir())
      ensures SameOutside(old(disk.files), disk.files, path, maxFiles)
      ensures disk.faults == old(disk.faults) + if ok then 0 else 1
    {
      if Slot(path, i) == Slot(path, i + 1) { SlotInjective(path, i, i + 1); }
      ok := disk.Rename(Slot(path, i), Slot(path, i + 1));
      ghost var f := old(disk.files);
      ghost var e := Look(f, Slot(path, i));
      ViewUpdate(f, path, maxFiles, i + 1, e);
      ViewUpdate(f[Slot(path, i + 1) := e], path, maxFiles, i, Absent);
    }

    /** The write loop.  It returns the exact number of bytes that reached the disk. */
    method WriteLoop(data: Bytes) returns (total: nat, err: Option<Error>)
      requires Valid() && data != []
      modifies this`isOpen, this`size, this`removed, this`shifted, disk
      ensures Valid()
      ensures removed >= old(removed) && shifted >= old(shifted) && disk.faults >= old(disk.faults)
      ensures Progress(maxSize, old(Dir()), data, total, removed - old(removed), shifted - old(shifted), Dir())
      ensures SameOutside(old(disk.files), disk.files, path, maxFiles)
      ensures err.None? ==> total == |data|
      ensures disk.faults == old(disk.faults) ==>
        Ideal(maxSize, old(Dir()), data) == (Dir(), data[total..]) && (err.None? <==> total == |data|)
    {
      hide Progress, Slot, Ideal, IsSlot, Look;
      ghost var before := Dir();
      ProgressNothing(maxSize, before, data);
      total, err := 0, None;
      var rest := data;
      while rest != []
        invariant Valid() && total <= |data| && rest == data[total..] && err.None?
        invariant removed >= old(removed) && shifted >= old(shifted) && disk.faults >= old(disk.faults)
        invariant Progress(maxSize, before, data, total, removed - old(removed), shifted - old(shifted), Dir())
        invariant SameOutside(old(disk.files), disk.files, path, maxFiles)
        decreases |rest|, if Dir()[0].Absent? then 0 else 1
      {
        ghost var here, r, c := Dir(), removed, shifted;
        var n;
        n, err := Advance(rest);
        ProgressCompose(maxSize, before, data, total, r - old(removed), c - old(shifted), here, n, removed - r, shifted - c, Dir());
        total, rest := total + n, rest[n..];
        if err.Some? {
          ProgressIdeal(maxSize, before, data, total, removed - old(removed), shifted - old(shifted), Dir());
          return;
        }
      }
      ProgressIdeal(maxSize, before, data, total, removed - old(removed), shifted - old(shifted), Dir());
      IdealNothing(maxSize, Dir());
    }

    /** One iteration of the write loop. */
    method Advance(rest: Bytes) returns (n: nat, err: Option<Error>)
      requires Valid() && rest != []
      modifies this`isOpen, this`size, this`removed, this`shifted, disk
      ensures Valid() && n <= |rest|
      ensures removed >= old(removed) && shifted >= old(shifted) && disk.faults >= old(disk.faults)
      ensures Progress(maxSize, old(Dir()), rest, n, removed - old(removed), shifted - old(shifted), Dir())
      ensures SameOutside(old(disk.files), disk.files, path, maxFiles)
      ensures err.None? ==> n > 0 || (Dir()[0].Absent? && !old(Dir())[0].Absent?)
      ensures disk.faults == old(disk.faults) && err.Some? ==>
        rest[n..] != [] && Ideal(maxSize, Dir(), rest[n..]) == (Dir(), rest[n..])
    {
      hide Progress, Slot, Ideal, IsSlot, Look;
      ghost var before := Dir();
      ProgressNothing(maxSize, before, rest);
      assert rest[0..] == rest;
      n := 0;
      if !isOpen {
        err := Open();
        ProgressReopen(maxSize, before, rest, 0, 0, 0, before, Dir());
        if err.Some? {
          if before[0].Irregular? { IdealStuck(maxSize, before, rest); }
          return;
        }
      }
      ghost var here := Dir();
      if size > maxSize {
        IdealStuck(maxSize, here, rest);
        var _ := CloseFile();
        return 0, Some(Oversized);
      }
      if size == maxSize {
        err := CloseFile();
        if err.Some? { return; }
        err := Rotate(rest);
        if !VolumesOk(maxSize, here) { IdealStuck(maxSize, here, rest); }
        ProgressCompose(maxSize, before, rest, 0, 0, 0, here, 0, removed - old(removed), shifted - old(shifted), Dir());
        return;
      }
      var length := if |rest| > maxSize - size then maxSize - size else |rest|;
      var ok;
      n, ok := AppendActive(rest[..length]);
      assert rest[..length][..n] == rest[..n];
      ProgressAppend(maxSize, here, rest, n);
      ProgressCompose(maxSize, before, rest, 0, 0, 0, here, n, 0, 0, Dir());
      if !ok || n != length {
        var _ := CloseFile();
        return n, Some(if ok then ShortWrite else Fault);
      }
      return n, None;
    }

    method AppendActive(chunk: Bytes) returns (n: nat, ok: bool)
      requires Valid() && isOpen
      modifies this`size, disk
      ensures Valid() && n <= |chunk|
      ensures Dir() == old(Dir())[0 := Regular(old(Dir())[0].data + chunk[..n])]
      ensures SameOutside(old(disk.files), disk.files, path, maxFiles)
      ensures disk.faults == old(disk.faults) + if ok && n == |chunk| then 0 else 1
    {
      assert Slot(path, 0) == path;
      n, ok := disk.Append(path, chunk);
      size := size + n;
      ViewUpdate(old(disk.files), path, maxFiles, 0, Regular(Look(old(disk.files), path).data + chunk[..n]));
    }

    /** Write. */
    method Write(data: Bytes, at: Clock) returns (n: nat, err: Option<Error>)
      requires Valid() && IsDate(at.today) && at.today.year >= 1
      modifies this, disk
      ensures Valid() && closed == old(closed)
      ensures removed >= old(removed) && shifted >= old(shifted) && disk.faults >= old(disk.faults)
      // the date being written: what every attempt promises, and the ideal outcome without failures
      ensures Progress(maxSize, Today(old(disk.files), at), data, n,
                       removed - old(removed), shifted - old(shifted), Today(disk.files, at))
      ensures disk.faults == old(disk.faults) && !closed && !(path == old(path) && old(Waiting(at))) ==>
              && Ideal(maxSize, Today(old(disk.files), at), data) == (Today(disk.files, at), data[n..])
              && (err.None? <==> n == |data|)
      ensures err.None? ==> n == |data|
      // every other name: untouched, or removed because it is expired
      ensures forall name :: !IsSlot(DatePath(base, at.today), maxFiles, name) ==>
              MaySweep(base, maxFiles, at.today, name, Look(old(disk.files), name), Look(disk.files, name))
      // on a new date, or when a cleanup is due: without failures exactly the expired names are gone,
      // and so they are whenever no earlier retry is set
      ensures old(SweepDue(data, at)) && disk.faults == old(disk.faults) ==>
              nextCleanup == at.midnight && SweptOutside(old(disk.files), disk.files, at)
      ensures old(SweepDue(data, at)) && path == DatePath(base, at.today) && (path != old(path) || at.now >= old(nextCleanup)) ==>
              (nextCleanup == at.midnight || nextCleanup == at.now + 3_600_000_000_000 < at.midnight)
      ensures old(SweepDue(data, at)) && path == DatePath(base, at.today) && nextCleanup == at.midnight && at.now + HOUR < at.midnight ==>
              SweptOutside(old(disk.files), disk.files, at)
      // otherwise no other name changes
      ensures !old(SweepDue(data, at)) ==>
              nextCleanup == old(nextCleanup) && SameOutside(old(disk.files), disk.files, DatePath(base, at.today), maxFiles)
      // the date: taken over unless closing yesterday's file fails, and then nothing else happens
      ensures path == old(path) || path == DatePath(base, at.today)
      ensures !closed && data != [] && path != DatePath(base, at.today) ==>
              && n == 0 && err == Some(Fault) && disk.faults > old(disk.faults) && disk.files == old(disk.files)
              && retryAt == old(retryAt) && lastError == old(lastError) && nextCleanup == old(nextCleanup)
      // a failure is repeated for a second, on the same date, without touching the date's files
      ensures !closed && data != [] && path == DatePath(base, at.today) ==>
              if path == old(path) && old(Waiting(at)) then
                n == 0 && err == old(lastError) && retryAt == old(retryAt) && lastError == old(lastError)
                && Today(disk.files, at) == Today(old(disk.files), at)
              else (retryAt == if err.Some? then Some(at.now + 1_000_000_000) else None) && lastError == err
      ensures closed ==> err == Some(Closed) && n == 0 && disk.files == old(disk.files)
      ensures closed || data == [] ==>
              disk.files == old(disk.files) && n == 0 && (path, retryAt, lastError, nextCleanup) == old((path, retryAt, lastError, nextCleanup))
    {
      hide Progress, Slot, Format, Ideal, MaySweep, Sweeps, IsSlot, View, Look, DatePath;
      UnsweptNames(base, maxFiles, at.today, disk.files);
      ProgressNothing(maxSize, Today(disk.files, at), data);
      IdealNothing(maxSize, Today(disk.files, at));
      if closed { return 0, Some(Closed); }
      if data == [] { return 0, None; }
      var p := DatePath(base, at.today);
      if p != path {
        err := CloseFile();
        if err.Some? { return 0, err; }
        path, retryAt := p, None;
        Cleanup(at);
      } else if at.now >= nextCleanup {
        Cleanup(at);
      }
      n, err := WriteToday(data, at);
    }

    /** A write on a new date, or at or after the time set for the next cleanup. */
    predicate SweepDue(data: Bytes, at: Clock)
      requires IsDate(at.today)
      reads this
    {
      !closed && data != [] && (path != DatePath(base, at.today) || at.now >= nextCleanup)
    }

    ghost predicate SweptOutside(f: Files, f': Files, at: Clock)
      requires IsDate(at.today)
    {
      forall name :: !IsSlot(DatePath(base, at.today), maxFiles, name) ==>
        Sweeps(base, maxFiles, at.today, name, Look(f, name), Look(f', name))
    }

    ghost function Today(files: Files, at: Clock): (d: seq<Entry>)
      requires IsDate(at.today)
      ensures |d| == maxFiles + 1
    {
      View(files, DatePath(base, at.today), maxFiles)
    }

    /** The rest of Write, once path is the date's and cleanup has run. */
    method WriteToday(data: Bytes, at: Clock) returns (n: nat, err: Option<Error>)
      requires Valid() && data != []
      modifies this`isOpen, this`size, this`removed, this`shifted, this`retryAt, this`lastError, disk
      ensures Valid()
      ensures removed >= old(removed) && shifted >= old(shifted) && disk.faults >= old(disk.faults)
      ensures Progress(maxSize, old(Dir()), data, n, removed - old(removed), shifted - old(shifted), Dir())
      ensures SameOutside(old(disk.files), disk.files, path, maxFiles)
      ensures disk.faults == old(disk.faults) && !old(Waiting(at)) ==>
        Ideal(maxSize, old(Dir()), data) == (Dir(), data[n..]) && (err.None? <==> n == |data|)
      ensures err.None? ==> n == |data|
      ensures if old(Waiting(at)) then
                n == 0 && err == old(lastError) && retryAt == old(retryAt) && lastError == old(lastError) && disk.files == old(disk.files)
              else (retryAt == if err.Some? then Some(at.now + SECOND) else None) && lastError == err
    {
      hide Progress, Slot, Ideal, IsSlot, Look;
      if Waiting(at) {
        ProgressNothing(maxSize, Dir(), data);
        return 0, lastError;
      }
      n, err := WriteLoop(data);
      if err.Some? {
        retryAt, lastError := Some(at.now + SECOND), err;
      } else {
        retryAt, lastError := None, None;
      }
    }

    predicate Waiting(at: Clock)
      reads this
    {
      retryAt.Some? && at.now < retryAt.value
    }

    /** cleanup: once per local day, and hourly while something fails. */
    method Cleanup(at: Clock)
      requires Valid() && IsDate(at.today) && at.today.year >= 1
      requires path == DatePath(base, at.today)
      modifies this`nextCleanup, disk
      ensures Valid() && Dir() == old(Dir())
      ensures disk.faults >= old(disk.faults)
      ensures forall name :: MaySweep(base, maxFiles, at.today, name, Look(old(disk.files), name), Look(disk.files, name))
      ensures disk.faults == old(disk.faults) ==>
              forall name :: Sweeps(base, maxFiles, at.today, name, Look(old(disk.files), name), Look(disk.files, name))
      ensures nextCleanup == if disk.faults > old(disk.faults) && at.now + HOUR < at.midnight then at.now + HOUR else at.midnight
    {
      hide Slot, MaySweep, Sweeps, Format, Look, DatePath, View;
      SweepAll(at);
      SweptKeepsToday(old(disk.files), disk.files, base, maxFiles, at.today);
    }

    method SweepAll(at: Clock)
      requires IsDate(at.today) && at.today.year >= 1
      modifies this`nextCleanup, disk
      ensures disk.faults >= old(disk.faults)
      ensures forall name :: MaySweep(base, maxFiles, at.today, name, Look(old(disk.files), name), Look(disk.files, name))
      ensures disk.faults == old(disk.faults) ==>
              forall name :: Sweeps(base, maxFiles, at.today, name, Look(old(disk.files), name), Look(disk.files, name))
      ensures nextCleanup == if disk.faults > old(disk.faults) && at.now + HOUR < at.midnight then at.now + HOUR else at.midnight
    {
      hide Slot, MaySweep, Sweeps, Format;
      UnsweptNames(base, maxFiles, at.today, disk.files);
      nextCleanup := at.midnight;
      var cutoff := Format(FourDaysBefore(at.today));
      var ok, entries := disk.ReadDir();
      if !ok {
        Retry(at);
        return;
      }
      var left := entries;
      while left != {}
        invariant disk.faults >= old(disk.faults) && left <= entries
        invariant forall name :: name in left ==> Look(disk.files, name) == Look(old(disk.files), name)
        invariant forall name :: name !in left ==>
          MaySweep(base, maxFiles, at.today, name, Look(old(disk.files), name), Look(disk.files, name))
        invariant disk.faults == old(disk.faults) ==> forall name :: name !in left ==>
          Sweeps(base, maxFiles, at.today, name, Look(old(disk.files), name), Look(disk.files, name))
        invariant nextCleanup == if disk.faults > old(disk.faults) && at.now + HOUR < at.midnight then at.now + HOUR else at.midnight
        decreases left
      {
        var name :| name in left;
        left := left - {name};
        Sweep(name, cutoff, at);
      }
    }

    method Retry(at: Clock)
      modifies this`nextCleanup
      ensures nextCleanup == if at.now + HOUR < old(nextCleanup) then at.now + HOUR else old(nextCleanup)
    {
      if at.now + HOUR < nextCleanup { nextCleanup := at.now + HOUR; }
    }

    /** The loop body of cleanup. */
    method Sweep(name: string, cutoff: string, at: Clock)
      requires IsDate(at.today) && at.today.year >= 1 && cutoff == Format(FourDaysBefore(at.today))
      modifies this`nextCleanup, disk
      ensures disk.faults >= old(disk.faults)
      ensures forall other :: other != name ==> Look(disk.files, other) == Look(old(disk.files), other)
      ensures MaySweep(base, maxFiles, at.today, name, Look(old(disk.files), name), Look(disk.files, name))
      ensures disk.faults == old(disk.faults) ==>
              Sweeps(base, maxFiles, at.today, name, Look(old(disk.files), name), Look(disk.files, name))
      ensures nextCleanup == if disk.faults > old(disk.faults) && at.now + HOUR < old(nextCleanup) then at.now + HOUR else old(nextCleanup)
    {
      hide Slot, Expired, DayNumber, Format, StringLess;

      var date := OwnedDate(base, maxFiles, name);
      ExpiredIffBefore(base, maxFiles, at.today, name, date);
      if date.None? || !StringLess(Format(date.value), cutoff) || !Look(disk.files, name).Regular? { return; }
      var ok, info := disk.Lstat(name);
      if !ok {
        Retry(at);
        return;
      }
      if !info.Regular? { return; }
      ok := disk.Remove(name);
      if !ok { Retry(at); }
    }
  }

  /** newWriter: a process start or restart on a date. */
  method NewWriter(disk: Disk, base: string, maxSize: int, maxFiles: int, at: Clock)
    returns (w: Writer?, err: Option<Error>)
    requires IsDate(at.today) && at.today.year >= 1
    modifies disk
    ensures w == null <==> err.Some?
    ensures var k := if maxFiles <= 0 then DEFAULT_BACKUPS else maxFiles;
            var p := DatePath(base, at.today);
            && Reopens(View(old(disk.files), p, k), View(disk.files, p, k))
            && forall name :: !IsSlot(p, k, name) ==>
                 MaySweep(base, k, at.today, name, Look(old(disk.files), name), Look(disk.files, name))
    ensures disk.faults == old(disk.faults) ==>
            var k := if maxFiles <= 0 then DEFAULT_BACKUPS else maxFiles;
            var p := DatePath(base, at.today);
            && (w == null <==> Look(old(disk.files), p).Irregular?)
            && (w != null ==> w.nextCleanup == at.midnight)
            && forall name :: !IsSlot(p, k, name) ==>
                 Sweeps(base, k, at.today, name, Look(old(disk.files), name), Look(disk.files, name))
    ensures w != null ==> w.retryAt.None? && w.lastError.None?
    ensures w != null ==>
      && fresh(w) && w.Valid() && w.disk == disk && w.base == base && w.isOpen && !w.closed
      && w.maxSize == (if maxSize <= 0 then 67_108_864 else maxSize)
      && w.maxFiles == (if maxFiles <= 0 then 3 else maxFiles)
      && w.path == DatePath(base, at.today)
  {
    hide Slot, IsSlot, Look, MaySweep, Sweeps;
    var writer := new Writer(disk, base, maxSize, maxFiles, at.today);
    ActiveSlot(disk.files, writer.path, writer.maxFiles);
    writer.Cleanup(at);
    err := writer.Open();
    return if err.None? then writer else null, err;
  }

  /** The string comparison of cleanup decides exactly the expired names. */
  lemma ExpiredIffBefore(base: string, k: nat, today: Date, name: string, date: Option<Date>)
    requires IsDate(today) && today.year >= 1
    requires date.Some? ==> exists i :: IsOwned(base, k, name, date.value, i)
    requires date.None? ==> forall d, i :: !IsOwned(base, k, name, d, i)
    ensures Expired(base, k, today, name) <==> date.Some? && StringLess(Format(date.value), Format(FourDaysBefore(today)))
  {
    if date.Some? {
      var i :| IsOwned(base, k, name, date.value, i);
      forall d, j | IsOwned(base, k, name, d, j) ensures d == date.value {
        OwnedUnique(base, k, name, d, j, date.value, i);
      }
      FourDaysBeforeNumber(today);
      DateStringOrder(date.value, FourDaysBefore(today));
    }
  }
}
