/** The dummy Unix sandbox: a box is a numbered directory under the base
    path, claimed by creating a lock file in it. The sandbox keeps the limits
    and redirections the CLI sets, and reports problems through the error and
    warning handlers, whose calls are recorded here in order. */
module DummyUnix {
  import opened Json
  import opened Logger
  import opened Box

  /** The largest `int`: the id bound of `create_box()`. */
  const IntMax: nat := 2147483647

  const NoFreeIdMessage: string := "Could not find a free box id!"
  const PartialProcessLimitMessage: string := "This sandbox has partial support for process limits!"

  // ---------------------------------------------------------------------
  // Features
  // ---------------------------------------------------------------------

  /** The features the class declaration advertises (the identifier it uses
      for the CPU-time bit is read as `time_limit`). */
  function Features(): bv64 {
    FeatureBit(MemoryLimit) | FeatureBit(TimeLimit) | FeatureBit(WallTimeLimit)
    | FeatureBit(ProcessLimit) | FeatureBit(DiskLimit) | FeatureBit(MemoryUsage)
    | FeatureBit(RunningTime) | FeatureBit(WallTime) | FeatureBit(IoRedirection)
    | FeatureBit(ReturnCode) | FeatureBit(Signal)
  }

  /** The features the out-of-line definition advertises. */
  function FeaturesOutOfLine(): bv64 {
    FeatureBit(MemoryLimit) | FeatureBit(TimeLimit) | FeatureBit(WallTimeLimit)
    | FeatureBit(ProcessLimit) | FeatureBit(DiskLimit) | FeatureBit(MemoryUsage)
    | FeatureBit(RunningTime) | FeatureBit(WallTime) | FeatureBit(IoRedirection)
  }

  predicate Supported(f: Feature) {
    f in {MemoryLimit, TimeLimit, WallTimeLimit, ProcessLimit, DiskLimit, MemoryUsage,
          RunningTime, WallTime, IoRedirection, ReturnCode, Signal}
  }

  /** Testing the mask against a feature's bit answers whether the sandbox
      supports it. */
  lemma FeaturesMembership(f: Feature)
    ensures (Features() & FeatureBit(f) != 0) <==> Supported(f)
  {
  }

  /** The sandbox redirects I/O and reports return codes and signals, but
      mounts no folders, cannot be cleared and does not isolate processes. */
  lemma FeaturesOfNote()
    ensures Features() & FeatureBit(IoRedirection) != 0
    ensures Features() & FeatureBit(ReturnCode) != 0
    ensures Features() & FeatureBit(Signal) != 0
    ensures Features() & FeatureBit(FolderMount) == 0
    ensures Features() & FeatureBit(Clearable) == 0
    ensures Features() & FeatureBit(ProcessIsolation) == 0
  {
    FeaturesMembership(IoRedirection);
    FeaturesMembership(ReturnCode);
    FeaturesMembership(Signal);
    FeaturesMembership(FolderMount);
    FeaturesMembership(Clearable);
    FeaturesMembership(ProcessIsolation);
  }

  /** The two definitions differ by the return-code and signal bits only. */
  lemma FeatureDefinitionsDiffer()
    ensures Features() == FeaturesOutOfLine() | FeatureBit(ReturnCode) | FeatureBit(Signal)
    ensures FeaturesOutOfLine() & FeatureBit(ReturnCode) == 0
    ensures FeaturesOutOfLine() & FeatureBit(Signal) == 0
  {
  }

  // ---------------------------------------------------------------------
  // Directories
  // ---------------------------------------------------------------------

  /** The directory the boxed program sees as its root. */
  function Root(bp: string, id: nat): (r: string)
    ensures BoxBasePath(bp, id) <= r
  {
    BoxBasePath(bp, id) + "file_root/"
  }

  /** A box's root lies in its own directory and in no other box's. */
  lemma RootOutsideOtherBoxes(bp: string, a: nat, b: nat)
    requires a != b
    ensures !(BoxBasePath(bp, b) <= Root(bp, a))
  {
    var pa, pb, r := BoxBasePath(bp, a), BoxBasePath(bp, b), Root(bp, a);
    if pb <= r {
      BoxBasePathPrefixFree(bp, a, b);
      BoxBasePathPrefixFree(bp, b, a);
    }
  }

  /** What the file system holds at each box directory, by id. The name of
      box `id` is `BoxBasePath(bp, id)`, which is injective in `id`
      (Box.BoxBasePathInjective), so entries can be keyed by id. */
  datatype Entry = Missing | Directory(locked: bool) | NotDirectory

  /** The box directories together with the two ways creating them can fail:
      the errno a `mkdir` of a missing directory fails with, and the errno the
      exclusive creation of a lock file fails with (other than "exists"). */
  datatype BoxDirs = BoxDirs(entries: map<nat, Entry>, mkdirErrno: map<nat, int>, lockErrno: map<nat, int>)

  function EntryAt(dirs: BoxDirs, id: nat): Entry {
    if id in dirs.entries then dirs.entries[id] else Missing
  }

  /** An id the search passes over: not a directory, already locked, or its
      lock cannot be created. */
  predicate Skipped(dirs: BoxDirs, id: nat) {
    match EntryAt(dirs, id)
    case NotDirectory => true
    case Directory(locked) => locked || id in dirs.lockErrno
    case Missing => id !in dirs.mkdirErrno && id in dirs.lockErrno
  }

  /** An id whose directory cannot be made: the search stops there. */
  predicate Blocked(dirs: BoxDirs, id: nat) {
    EntryAt(dirs, id).Missing? && id in dirs.mkdirErrno
  }

  /** The first id in [from, limit) the search does not pass over, or
      `from` when that range is empty, or `limit` when every id in it is
      passed over. */
  function FirstUnskipped(dirs: BoxDirs, from: nat, limit: nat): (k: nat)
    ensures from <= k && (from <= limit ==> k <= limit)
    ensures forall j :: from <= j < k ==> Skipped(dirs, j)
    ensures k < limit ==> !Skipped(dirs, k)
    decreases limit - from
  {
    if from >= limit || !Skipped(dirs, from) then from else FirstUnskipped(dirs, from + 1, limit)
  }

  /** An id passed over with a warning: its directory exists or can be made,
      is not locked, and the lock file cannot be created for a reason other
      than that it exists. */
  predicate Warned(dirs: BoxDirs, id: nat) {
    match EntryAt(dirs, id)
    case NotDirectory => false
    case Directory(locked) => !locked && id in dirs.lockErrno
    case Missing => id !in dirs.mkdirErrno && id in dirs.lockErrno
  }

  /** The warning reported at `id`, if any. */
  function WarningAt(bp: string, dirs: BoxDirs, id: nat, strerror: int -> string): (w: seq<Diagnostic>)
    ensures |w| <= 1 && (|w| == 1 <==> Warned(dirs, id))
  {
    if Warned(dirs, id) then [LockWarning(bp, id, strerror(dirs.lockErrno[id]))] else []
  }

  /** The warnings for the ids in [from, k), in increasing order of id. */
  function LockWarnings(bp: string, dirs: BoxDirs, from: nat, k: nat, strerror: int -> string): seq<Diagnostic>
    decreases k - from
  {
    if from >= k then [] else WarningAt(bp, dirs, from, strerror) + LockWarnings(bp, dirs, from + 1, k, strerror)
  }

  /** The warnings depend only on the entries at the ids they cover. */
  lemma {:induction false} LockWarningsAgree(bp: string, dirs: BoxDirs, made: BoxDirs, from: nat, k: nat, strerror: int -> string)
    requires made.mkdirErrno == dirs.mkdirErrno && made.lockErrno == dirs.lockErrno
    requires forall j :: from <= j ==> EntryAt(made, j) == EntryAt(dirs, j)
    ensures LockWarnings(bp, made, from, k, strerror) == LockWarnings(bp, dirs, from, k, strerror)
    decreases k - from
  {
    if from < k {
      assert WarningAt(bp, made, from, strerror) == WarningAt(bp, dirs, from, strerror);
      LockWarningsAgree(bp, dirs, made, from + 1, k, strerror);
    }
  }

  /** What a search leaves behind: the id claimed (0 for none), the
      directories, and the error and warning reports, in order. */
  datatype Allocation = Allocation(id: nat, dirs: BoxDirs, errors: seq<Diagnostic>, warnings: seq<Diagnostic>)

  function MkdirError(bp: string, id: nat, reason: string): Diagnostic {
    Diagnostic(4, Serror("Error creating sandbox " + BoxBasePath(bp, id), reason))
  }

  function LockWarning(bp: string, id: nat, reason: string): Diagnostic {
    Diagnostic(4, Serror("Something weird happened creating sandbox " + BoxBasePath(bp, id) + "lock", reason))
  }

  /** The directories once a missing box directory has been made. */
  function Made(dirs: BoxDirs, id: nat): (m: BoxDirs)
    ensures m.mkdirErrno == dirs.mkdirErrno && m.lockErrno == dirs.lockErrno
    ensures forall j :: j != id ==> EntryAt(m, j) == EntryAt(dirs, j)
  {
    if EntryAt(dirs, id).Missing? then dirs.(entries := dirs.entries[id := Directory(false)]) else dirs
  }

  /** `create_box(limit)` from id `from` on: make the directory if it is
      missing, skip what is not a directory, try to create the lock file
      exclusively, and claim the first id whose lock it creates. */
  function Search(bp: string, dirs: BoxDirs, from: nat, limit: nat, strerror: int -> string): Allocation
    decreases limit - from
  {
    if from >= limit then Allocation(0, dirs, [Diagnostic(4, NoFreeIdMessage)], [])
    else
      var e := EntryAt(dirs, from);
      if e.Missing? && from in dirs.mkdirErrno then
        Allocation(0, dirs, [MkdirError(bp, from, strerror(dirs.mkdirErrno[from]))], [])
      else
        var made := Made(dirs, from);
        if e.NotDirectory? || (e.Directory? && e.locked) then Search(bp, made, from + 1, limit, strerror)
        else if from in dirs.lockErrno then
          var rest := Search(bp, made, from + 1, limit, strerror);
          rest.(warnings := [LockWarning(bp, from, strerror(dirs.lockErrno[from]))] + rest.warnings)
        else Allocation(from, made.(entries := made.entries[from := Directory(true)]), [], [])
  }

  /** At an id it passes over, the search goes on with the next id, after
      warning when the lock file could not be created. */
  lemma SearchSkips(bp: string, dirs: BoxDirs, from: nat, limit: nat, strerror: int -> string)
    requires from < limit && Skipped(dirs, from)
    ensures var a, b := Search(bp, dirs, from, limit, strerror), Search(bp, Made(dirs, from), from + 1, limit, strerror);
      && a.id == b.id && a.errors == b.errors && a.dirs == b.dirs
      && a.warnings == WarningAt(bp, dirs, from, strerror) + b.warnings
  {
  }

  /** At an id it does not pass over, the search stops. */
  lemma SearchStops(bp: string, dirs: BoxDirs, from: nat, limit: nat, strerror: int -> string)
    requires from < limit && !Skipped(dirs, from)
    ensures var a := Search(bp, dirs, from, limit, strerror);
      && a.warnings == []
      && (Blocked(dirs, from) ==> a.id == 0 && a.errors == [MkdirError(bp, from, strerror(dirs.mkdirErrno[from]))] && a.dirs == dirs)
      && (!Blocked(dirs, from) ==>
            && a.id == from && a.errors == [] && EntryAt(a.dirs, from) == Directory(true)
            && a.dirs.entries == dirs.entries[from := Directory(true)]
            && a.dirs.mkdirErrno == dirs.mkdirErrno && a.dirs.lockErrno == dirs.lockErrno)
  {
  }

  /** The search claims the first id it does not pass over when that id is
      free, stops with an error when that id's directory cannot be made, and
      reports that no id is free when it passes over all of them (or the
      range is empty); on the way it warns, in order, about each id whose
      lock file could not be created. */
  lemma {:induction false} SearchOutcome(bp: string, dirs: BoxDirs, from: nat, limit: nat, strerror: int -> string)
    ensures var a, k := Search(bp, dirs, from, limit, strerror), FirstUnskipped(dirs, from, limit);
      && a.warnings == LockWarnings(bp, dirs, from, k, strerror)
      && (k >= limit ==> a.id == 0 && a.errors == [Diagnostic(4, NoFreeIdMessage)])
      && (k < limit && Blocked(dirs, k) ==> a.id == 0 && a.errors == [MkdirError(bp, k, strerror(dirs.mkdirErrno[k]))])
      && (k < limit && !Blocked(dirs, k) ==> a.id == k && a.errors == [] && EntryAt(a.dirs, k) == Directory(true))
    decreases limit - from
  {
    if from < limit {
      if Skipped(dirs, from) {
        var made := Made(dirs, from);
        SearchSkips(bp, dirs, from, limit, strerror);
        SearchOutcome(bp, made, from + 1, limit, strerror);
        FirstUnskippedAfterUpdate(dirs, made, from, limit);
        LockWarningsAgree(bp, dirs, made, from + 1, FirstUnskipped(dirs, from, limit), strerror);
      } else {
        SearchStops(bp, dirs, from, limit, strerror);
      }
    }
  }

  /** Updating the entry at `from` does not move the first unskipped id
      beyond it. */
  lemma FirstUnskippedAfterUpdate(dirs: BoxDirs, made: BoxDirs, from: nat, limit: nat)
    requires from < limit && Skipped(dirs, from)
    requires made.mkdirErrno == dirs.mkdirErrno && made.lockErrno == dirs.lockErrno
    requires forall j :: j != from ==> EntryAt(made, j) == EntryAt(dirs, j)
    ensures FirstUnskipped(made, from + 1, limit) == FirstUnskipped(dirs, from, limit)
    ensures var k := FirstUnskipped(dirs, from, limit);
      k < limit ==> (Blocked(made, k) == Blocked(dirs, k) && (k in made.mkdirErrno ==> made.mkdirErrno[k] == dirs.mkdirErrno[k]))
  {
    FirstUnskippedAgree(dirs, made, from + 1, limit);
  }

  lemma {:induction false} FirstUnskippedAgree(dirs: BoxDirs, made: BoxDirs, from: nat, limit: nat)
    requires made.mkdirErrno == dirs.mkdirErrno && made.lockErrno == dirs.lockErrno
    requires forall j :: from <= j ==> EntryAt(made, j) == EntryAt(dirs, j)
    ensures FirstUnskipped(made, from, limit) == FirstUnskipped(dirs, from, limit)
    decreases limit - from
  {
    if from < limit {
      assert Skipped(made, from) == Skipped(dirs, from);
      FirstUnskippedAgree(dirs, made, from + 1, limit);
    }
  }

  /** The search never takes away a directory or a lock, and changes only
      the entries of the ids it visits: existing entries stay as they were
      except the claimed one, which becomes locked; every missing directory
      it passes over is made and stays unlocked; nothing after the id where
      it stops (or that it claims) is touched, nor the id whose directory
      cannot be made, nor the limit itself when no id is free. */
  lemma {:induction false} SearchKeepsEntries(bp: string, dirs: BoxDirs, from: nat, limit: nat, strerror: int -> string, j: nat)
    ensures var a, k := Search(bp, dirs, from, limit, strerror), FirstUnskipped(dirs, from, limit);
      && a.dirs.mkdirErrno == dirs.mkdirErrno && a.dirs.lockErrno == dirs.lockErrno
      && (EntryAt(dirs, j) != Missing && j != a.id ==> EntryAt(a.dirs, j) == EntryAt(dirs, j))
      && (j < from ==> EntryAt(a.dirs, j) == EntryAt(dirs, j))
      && (from <= j < k && EntryAt(dirs, j).Missing? ==> EntryAt(a.dirs, j) == Directory(false))
      && (j > k || (j == k && (k >= limit || Blocked(dirs, k))) ==> EntryAt(a.dirs, j) == EntryAt(dirs, j))
    decreases limit - from
  {
    if from < limit {
      if Skipped(dirs, from) {
        var made := Made(dirs, from);
        SearchSkips(bp, dirs, from, limit, strerror);
        FirstUnskippedAfterUpdate(dirs, made, from, limit);
        SearchKeepsEntries(bp, made, from + 1, limit, strerror, j);
      } else {
        SearchStops(bp, dirs, from, limit, strerror);
      }
    }
  }

  /** A claimed id lies in [from, limit) and was free before the search. */
  lemma SearchClaimsFreeId(bp: string, dirs: BoxDirs, from: nat, limit: nat, strerror: int -> string)
    ensures var a := Search(bp, dirs, from, limit, strerror);
      a.id != 0 ==> from <= a.id < limit && !Skipped(dirs, a.id) && !Blocked(dirs, a.id)
  {
    SearchOutcome(bp, dirs, from, limit, strerror);
  }

  /** Two searches with no deletion in between claim different ids: the
      first claim leaves its lock file behind. */
  lemma SecondClaimDiffers(bp: string, dirs: BoxDirs, limit1: nat, limit2: nat, strerror: int -> string)
    ensures var a1 := Search(bp, dirs, 1, limit1, strerror);
      var a2 := Search(bp, a1.dirs, 1, limit2, strerror);
      a1.id != 0 && a2.id != 0 ==> a1.id != a2.id
  {
    var a1 := Search(bp, dirs, 1, limit1, strerror);
    SearchOutcome(bp, dirs, 1, limit1, strerror);
    SearchClaimsFreeId(bp, a1.dirs, 1, limit2, strerror);
  }

  /** The search state after `warned` have been reported: the rest of the
      search, with those warnings in front. */
  function AfterWarnings(warned: seq<Diagnostic>, a: Allocation): Allocation {
    a.(warnings := warned + a.warnings)
  }

  /** Solver helper: one step of the search, case by case, as the loop
      takes it (the body of `Search` unfolded once). */
  lemma SearchStep(bp: string, dirs: BoxDirs, from: nat, limit: nat, strerror: int -> string)
    requires from < limit
    ensures var e, a, rest := EntryAt(dirs, from), Search(bp, dirs, from, limit, strerror), Search(bp, Made(dirs, from), from + 1, limit, strerror);
      && (e.Missing? && from in dirs.mkdirErrno ==>
            a == Allocation(0, dirs, [MkdirError(bp, from, strerror(dirs.mkdirErrno[from]))], []))
      && (!(e.Missing? && from in dirs.mkdirErrno) && (e.NotDirectory? || (e.Directory? && e.locked)) ==>
            a == rest)
      && (!(e.Missing? && from in dirs.mkdirErrno) && !(e.NotDirectory? || (e.Directory? && e.locked)) && from in dirs.lockErrno ==>
            a == AfterWarnings([LockWarning(bp, from, strerror(dirs.lockErrno[from]))], rest))
      && (!(e.Missing? && from in dirs.mkdirErrno) && !(e.NotDirectory? || (e.Directory? && e.locked)) && from !in dirs.lockErrno ==>
            a == Allocation(from, Made(dirs, from).(entries := Made(dirs, from).entries[from := Directory(true)]), [], []))
  {
  }

  lemma AfterMoreWarnings(warned: seq<Diagnostic>, w: Diagnostic, a: Allocation)
    ensures AfterWarnings(warned, AfterWarnings([w], a)) == AfterWarnings(warned + [w], a)
  {
    assert warned + ([w] + a.warnings) == (warned + [w]) + a.warnings;
  }

  /** The loop of `create_box(limit)`: tries ids 1, 2, ..., limit - 1 in
      order and returns the id it claimed (0 for none), the directories it
      leaves, and what it reported to the error and warning handlers. */
  method ClaimBox(bp: string, limit: nat, dirs: BoxDirs, strerror: int -> string)
    returns (r: nat, after: BoxDirs, errors: seq<Diagnostic>, warnings: seq<Diagnostic>)
    ensures Allocation(r, after, errors, warnings) == Search(bp, dirs, 1, limit, strerror)
  {
    var boxId: nat := 1;
    var cur := dirs;
    warnings := [];
    while boxId < limit
      invariant AfterWarnings(warnings, Search(bp, cur, boxId, limit, strerror)) == Search(bp, dirs, 1, limit, strerror)
      decreases limit - boxId
    {
      var e := EntryAt(cur, boxId);
      SearchStep(bp, cur, boxId, limit, strerror);
      if e.Missing? && boxId in cur.mkdirErrno {
        return 0, cur, [MkdirError(bp, boxId, strerror(cur.mkdirErrno[boxId]))], warnings;
      }
      var made := Made(cur, boxId);
      if e.NotDirectory? || (e.Directory? && e.locked) {
      } else if boxId in cur.lockErrno {
        var w := LockWarning(bp, boxId, strerror(cur.lockErrno[boxId]));
        AfterMoreWarnings(warnings, w, Search(bp, made, boxId + 1, limit, strerror));
        warnings := warnings + [w];
      } else {
        return boxId, made.(entries := made.entries[boxId := Directory(true)]), [], warnings;
      }
      cur, boxId := made, boxId + 1;
    }
    return 0, cur, [Diagnostic(4, NoFreeIdMessage)], warnings;
  }

  // ---------------------------------------------------------------------
  // The sandbox record
  // ---------------------------------------------------------------------

  /** Everything the sandbox keeps between CLI invocations. */
  datatype BoxRecord = BoxRecord(
    basePath: string, id: nat,
    memLimit: nat, timeLimit: nat, wallTimeLimit: nat, processLimit: nat, diskLimit: nat,
    stdin: string, stdout: string, stderr: string,
    memoryUsage: nat, runningTime: nat, wallTime: nat, exitStatus: string,
    returnCode: nat, signal: nat)

  /** The archive: the base record (id, base path), then the fields in
      declaration order. */
  function Archive(r: BoxRecord): (items: seq<ArchiveItem>)
    ensures |items| == 16
  {
    SerializeBase(r.id, r.basePath)
    + [Number(r.memLimit), Number(r.timeLimit), Number(r.wallTimeLimit), Number(r.processLimit),
       Number(r.diskLimit), Text(r.stdin), Text(r.stdout), Text(r.stderr),
       Number(r.memoryUsage), Number(r.runningTime), Number(r.wallTime), Text(r.exitStatus),
       Number(r.returnCode), Number(r.signal)]
  }

  /** Reading the fields back in the same order. */
  function Unarchive(items: seq<ArchiveItem>): Option<BoxRecord> {
    match DeserializeBase(items)
    case None => None
    case Some((id, bp, f)) =>
      if |f| == 14 && f[0].Number? && f[1].Number? && f[2].Number? && f[3].Number? && f[4].Number?
         && f[5].Text? && f[6].Text? && f[7].Text? && f[8].Number? && f[9].Number? && f[10].Number?
         && f[11].Text? && f[12].Number? && f[13].Number?
      then Some(BoxRecord(bp, id, f[0].n, f[1].n, f[2].n, f[3].n, f[4].n, f[5].s, f[6].s, f[7].s,
                          f[8].n, f[9].n, f[10].n, f[11].s, f[12].n, f[13].n))
      else None
  }

  lemma ArchiveRoundTrip(r: BoxRecord)
    ensures Unarchive(Archive(r)) == Some(r)
  {
    var rest := Archive(r)[2..];
    assert Archive(r) == SerializeBase(r.id, r.basePath) + rest;
    BaseRoundTrip(r.id, r.basePath, rest);
  }

  /** A dummy Unix sandbox object. Its fields are kept together as one
      `BoxRecord` value, which is also what it archives; the two logs record
      the calls made to the error and warning handlers, in order. */
  class DummyUnixSandbox {
    var state: BoxRecord
    var errorLog: seq<Diagnostic>
    var warningLog: seq<Diagnostic>

    /** A new sandbox over a base path: every limit and measurement is 0 and
        no redirection is set. */
    constructor(bp: string)
      ensures state == BoxRecord(bp, 0, 0, 0, 0, 0, 0, "", "", "", 0, 0, 0, "", 0, 0)
      ensures errorLog == [] && warningLog == []
    {
      state := BoxRecord(bp, 0, 0, 0, 0, 0, 0, "", "", "", 0, 0, 0, "", 0, 0);
      errorLog, warningLog := [], [];
    }

    function GetId(): nat
      reads this
    {
      state.id
    }

    function IsAvailable(): bool {
      true
    }

    function GetPenality(): int {
      0
    }

    function GetFeatures(): bv64 {
      Features()
    }

    function GetRoot(): (r: string)
      reads this
      ensures r == Root(state.basePath, state.id)
    {
      BoxBasePath(state.basePath, state.id) + "file_root/"
    }

    // -- box creation -----------------------------------------------------

    /** `create_box(limit)`: claims a box and takes its id. */
    method CreateBoxWithin(limit: nat, dirs: BoxDirs, strerror: int -> string) returns (r: nat, after: BoxDirs)
      modifies this
      ensures var a := Search(old(state).basePath, dirs, 1, limit, strerror);
        && r == a.id && after == a.dirs
        && errorLog == old(errorLog) + a.errors
        && warningLog == old(warningLog) + a.warnings
      ensures state == if r == 0 then old(state) else old(state).(id := r)
    {
      var errors, warnings;
      r, after, errors, warnings := ClaimBox(state.basePath, limit, dirs, strerror);
      errorLog := errorLog + errors;
      warningLog := warningLog + warnings;
      if r != 0 {
        state := state.(id := r);
      }
    }

    /** `create_box()`: the same search with the largest `int` as bound. */
    method CreateBox(dirs: BoxDirs, strerror: int -> string) returns (r: nat, after: BoxDirs)
      modifies this
      ensures var a := Search(old(state).basePath, dirs, 1, IntMax, strerror);
        && r == a.id && after == a.dirs
        && errorLog == old(errorLog) + a.errors
        && warningLog == old(warningLog) + a.warnings
      ensures state == if r == 0 then old(state) else old(state).(id := r)
    {
      r, after := CreateBoxWithin(IntMax, dirs, strerror);
    }

    /** `delete_box`: removes the box directory; `rmrf` is what `rm_rf`
        returns for it (0 on success, an errno otherwise). */
    method DeleteBox(rmrf: string -> int, strerror: int -> string) returns (ok: bool)
      modifies this
      ensures var err := rmrf(BoxBasePath(state.basePath, state.id));
        && ok == (err == 0)
        && errorLog == old(errorLog) + (if ok then [] else [Diagnostic(4, Serror("Error deleting sandbox", strerror(err)))])
      ensures warningLog == old(warningLog) && state == old(state)
    {
      var err := rmrf(BoxBasePath(state.basePath, state.id));
      if err != 0 {
        errorLog := errorLog + [Diagnostic(4, Serror("Error deleting sandbox", strerror(err)))];
      }
      ok := err == 0;
    }

    // -- limits -----------------------------------------------------------

    method SetMemoryLimit(limit: nat) returns (ok: bool)
      modifies this
      ensures ok && GetMemoryLimit() == limit
      ensures state == old(state).(memLimit := limit)
      ensures errorLog == old(errorLog) && warningLog == old(warningLog)
    {
      state := state.(memLimit := limit);
      ok := true;
    }

    method SetTimeLimit(limit: nat) returns (ok: bool)
      modifies this
      ensures ok && GetTimeLimit() == limit
      ensures state == old(state).(timeLimit := limit)
      ensures errorLog == old(errorLog) && warningLog == old(warningLog)
    {
      state := state.(timeLimit := limit);
      ok := true;
    }

    method SetWallTimeLimit(limit: nat) returns (ok: bool)
      modifies this
      ensures ok && GetWallTimeLimit() == limit
      ensures state == old(state).(wallTimeLimit := limit)
      ensures errorLog == old(errorLog) && warningLog == old(warningLog)
    {
      state := state.(wallTimeLimit := limit);
      ok := true;
    }

    /** Only "no processes" and "processes allowed" are supported: any
        non-zero limit is stored as 1, with a warning when it asked for more. */
    method SetProcessLimit(limit: nat) returns (ok: bool)
      modifies this
      ensures ok && GetProcessLimit() == (if limit != 0 then 1 else 0)
      ensures state == old(state).(processLimit := if limit != 0 then 1 else 0)
      ensures warningLog == old(warningLog) + (if limit > 1 then [Diagnostic(4, PartialProcessLimitMessage)] else [])
      ensures errorLog == old(errorLog)
    {
      if limit > 1 {
        warningLog := warningLog + [Diagnostic(4, PartialProcessLimitMessage)];
      }
      state := state.(processLimit := if limit != 0 then 1 else 0);
      ok := true;
    }

    method SetDiskLimit(limit: nat) returns (ok: bool)
      modifies this
      ensures ok && GetDiskLimit() == limit
      ensures state == old(state).(diskLimit := limit)
      ensures errorLog == old(errorLog) && warningLog == old(warningLog)
    {
      state := state.(diskLimit := limit);
      ok := true;
    }

    function GetMemoryLimit(): nat
      reads this
    {
      state.memLimit
    }

    /** The out-of-line definition returns the `memory_limit` feature
        constant instead of the stored limit. */
    function GetMemoryLimitAsWritten(): (r: nat)
      ensures r == 1
    {
      FeatureBit(MemoryLimit) as nat
    }

    function GetTimeLimit(): nat
      reads this
    {
      state.timeLimit
    }

    function GetWallTimeLimit(): nat
      reads this
    {
      state.wallTimeLimit
    }

    function GetProcessLimit(): nat
      reads this
    {
      state.processLimit
    }

    function GetDiskLimit(): nat
      reads this
    {
      state.diskLimit
    }

    // -- redirections ---------------------------------------------------------

    /** The name is stored first; then the file is opened read-only inside
        the box directory. `openErrno` is what opening a path in a mode fails
        with (0 when it succeeds). */
    method RedirectStdin(file: string, openErrno: (string, OpenMode) -> int, strerror: int -> string) returns (ok: bool)
      modifies this
      ensures var err := openErrno(BoxBasePath(state.basePath, state.id) + file, ReadOnly);
        && ok == (err == 0)
        && errorLog == old(errorLog) + (if ok then [] else [Diagnostic(4, Serror("Cannot open stdin file", strerror(err)))])
      ensures warningLog == old(warningLog)
      ensures GetStdin() == file && state == old(state).(stdin := file)
    {
      state := state.(stdin := file);
      var err := openErrno(BoxBasePath(state.basePath, state.id) + state.stdin, ReadOnly);
      if err != 0 {
        errorLog := errorLog + [Diagnostic(4, Serror("Cannot open stdin file", strerror(err)))];
      }
      ok := err == 0;
    }

    /** Output goes to a file created (or truncated) in the box directory;
        failing to create it is an error. */
    method RedirectStdout(file: string, openErrno: (string, OpenMode) -> int, strerror: int -> string) returns (ok: bool)
      modifies this
      ensures var err := openErrno(BoxBasePath(state.basePath, state.id) + file, ReadWriteCreateTruncate);
        && ok == (err == 0)
        && errorLog == old(errorLog) + (if ok then [] else [Diagnostic(4, Serror("Cannot create stdout file", strerror(err)))])
      ensures warningLog == old(warningLog)
      ensures GetStdout() == file && state == old(state).(stdout := file)
    {
      state := state.(stdout := file);
      var err := openErrno(BoxBasePath(state.basePath, state.id) + state.stdout, ReadWriteCreateTruncate);
      if err != 0 {
        errorLog := errorLog + [Diagnostic(4, Serror("Cannot create stdout file", strerror(err)))];
      }
      ok := err == 0;
    }

    /** Like stdout, but failing to create the file is only a warning. */
    method RedirectStderr(file: string, openErrno: (string, OpenMode) -> int, strerror: int -> string) returns (ok: bool)
      modifies this
      ensures var err := openErrno(BoxBasePath(state.basePath, state.id) + file, ReadWriteCreateTruncate);
        && ok == (err == 0)
        && warningLog == old(warningLog) + (if ok then [] else [Diagnostic(4, Serror("Cannot create stderr file", strerror(err)))])
      ensures errorLog == old(errorLog)
      ensures GetStderr() == file && state == old(state).(stderr := file)
    {
      state := state.(stderr := file);
      var err := openErrno(BoxBasePath(state.basePath, state.id) + state.stderr, ReadWriteCreateTruncate);
      if err != 0 {
        warningLog := warningLog + [Diagnostic(4, Serror("Cannot create stderr file", strerror(err)))];
      }
      ok := err == 0;
    }

    function GetStdin(): string
      reads this
    {
      state.stdin
    }

    function GetStdout(): string
      reads this
    {
      state.stdout
    }

    function GetStderr(): string
      reads this
    {
      state.stderr
    }

    // -- measurements -------------------------------------------------------

    function GetMemoryUsage(): nat
      reads this
    {
      state.memoryUsage
    }

    function GetRunningTime(): nat
      reads this
    {
      state.runningTime
    }

    function GetWallTime(): nat
      reads this
    {
      state.wallTime
    }

    function GetReturnCode(): nat
      reads this
    {
      state.returnCode
    }

    function GetSignal(): nat
      reads this
    {
      state.signal
    }

    function GetStatus(): string
      reads this
    {
      state.exitStatus
    }

    // -- operations the sandbox inherits unimplemented -------------------------

    method Check() returns (ok: bool)
      modifies this
      ensures !ok && errorLog == old(errorLog) + [NotImplemented()]
      ensures warningLog == old(warningLog) && state == old(state)
    {
      errorLog := errorLog + [NotImplemented()];
      ok := false;
    }

    method Mounts() returns (mounts: seq<(string, string)>)
      modifies this
      ensures mounts == [] && errorLog == old(errorLog) + [NotImplemented()]
      ensures warningLog == old(warningLog) && state == old(state)
    {
      errorLog := errorLog + [NotImplemented()];
      mounts := [];
    }

    method MountedAt(boxPath: string) returns (origPath: string)
      modifies this
      ensures origPath == "" && errorLog == old(errorLog) + [NotImplemented()]
      ensures warningLog == old(warningLog) && state == old(state)
    {
      errorLog := errorLog + [NotImplemented()];
      origPath := "";
    }

    method Mount(boxPath: string, origPath: string, rw: bool) returns (ok: bool)
      modifies this
      ensures !ok && errorLog == old(errorLog) + [NotImplemented()]
      ensures warningLog == old(warningLog) && state == old(state)
    {
      errorLog := errorLog + [NotImplemented()];
      ok := false;
    }

    method Umount(boxPath: string) returns (ok: bool)
      modifies this
      ensures !ok && errorLog == old(errorLog) + [NotImplemented()]
      ensures warningLog == old(warningLog) && state == old(state)
    {
      errorLog := errorLog + [NotImplemented()];
      ok := false;
    }

    method Clear() returns (ok: bool)
      modifies this
      ensures !ok && errorLog == old(errorLog) + [NotImplemented()]
      ensures warningLog == old(warningLog) && state == old(state)
    {
      errorLog := errorLog + [NotImplemented()];
      ok := false;
    }

    // -- persistence ------------------------------------------------------------

    method Save() returns (items: seq<ArchiveItem>)
      ensures Unarchive(items) == Some(state)
    {
      items := Archive(state);
      ArchiveRoundTrip(state);
    }

    /** Restores the record from an archive; a malformed archive restores
        nothing. */
    method Load(items: seq<ArchiveItem>) returns (ok: bool)
      modifies this
      ensures ok == Unarchive(items).Some?
      ensures state == if ok then Unarchive(items).value else old(state)
      ensures errorLog == old(errorLog) && warningLog == old(warningLog)
    {
      var r := Unarchive(items);
      ok := r.Some?;
      if ok {
        state := r.value;
      }
    }
  }

  /** How a redirection opens its file: read-only for stdin, read-write with
      create and truncate for stdout and stderr. */
  datatype OpenMode = ReadOnly | ReadWriteCreateTruncate

  /** The getter as written ignores what the setter stored: any limit other
      than 1 reads back wrong. */
  lemma MemoryLimitAsWrittenIgnoresSetting(s: DummyUnixSandbox)
    requires s.state.memLimit != 1
    ensures s.GetMemoryLimitAsWritten() != s.GetMemoryLimit()
  {
  }
}
