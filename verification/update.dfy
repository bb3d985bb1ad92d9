/**
  The self-updater (src/update.rs): two-component versions, the decision
  whether the published build is newer than the running one, and the
  install sequence that stages the new executable, checks its digest, keeps
  a backup of the running one, renames the new one over it and execs it.

  The build-time `TTDASH_VERSION` constant, the fetched descriptor, the
  downloaded body, the MD5-and-hex digest and the operating system's
  failures are parameters; the filesystem is a map from path to contents.
*/
module Update {
  import opened Errors
  import opened Text

  /** Rust's `i32`. */
  type Int32 = x: int | I32_MIN <= x <= I32_MAX

  /** `TTDashVersion`. */
  datatype Version = Version(major: Int32, minor: Int32)

  /** The derived `Ord`: `major` first, and `minor` only between equal majors. */
  predicate Less(a: Version, b: Version): (r: bool)
    ensures r ==> a != b
    ensures a.major != b.major ==> (r <==> a.major < b.major)
    ensures a.major == b.major ==> (r <==> a.minor < b.minor)
  {
    a.major < b.major || (a.major == b.major && a.minor < b.minor)
  }

  /** The derived order is a strict total order. */
  lemma LessIsStrictTotalOrder(a: Version, b: Version, c: Version)
    ensures !Less(a, a)
    ensures Less(a, b) && Less(b, c) ==> Less(a, c)
    ensures a == b || Less(a, b) || Less(b, a)
    ensures !(Less(a, b) && Less(b, a))
  {
  }

  /** `to_string` and `Display`: "major.minor", both in decimal, so '.' splits it back into the two numbers. */
  function Format(v: Version): (r: string)
    ensures Split(r, '.') == [IntToString(v.major), IntToString(v.minor)]
  {
    var a, b := IntToString(v.major), IntToString(v.minor);
    IntToStringHasNoChar(v.major, '.');
    IntToStringHasNoChar(v.minor, '.');
    SplitAfter(a, '.', b);
    SplitWithout(b, '.');
    assert a + "." + b == a + ['.'] + b;
    a + "." + b
  }

  /** `filter_map(|s| s.parse::<i32>().ok())`: the pieces that are integers, in order. */
  function IntegerPieces(pieces: seq<string>): (r: seq<Int32>)
    ensures |r| <= |pieces|
    decreases |pieces|
  {
    if pieces == [] then []
    else match ParseI32(pieces[0])
      case Some(n) => [n as Int32] + IntegerPieces(pieces[1..])
      case None => IntegerPieces(pieces[1..])
  }

  /**
    `parse_version`: trim, split on '.', keep the pieces that parse as
    `i32`, and succeed exactly when two survive.
  */
  function ParseVersion(s: string): (r: Result<Version>)
    ensures r.Ok? ==> '.' in s
    ensures r.Err? ==> r.error == SimpleError("Invalid version string: " + s)
  {
    var parts := IntegerPieces(Split(Trim(s), '.'));
    if |parts| != 2 then Err(MakeError("Invalid version string: " + s))
    else
      SplitCount(Trim(s), '.');
      TrimKeeps(s, '.');
      Ok(Version(parts[0], parts[1]))
  }

  lemma IntegerPiecesOfTwo(a: string, b: string)
    ensures IntegerPieces([a, b]) == IntegerPieces([a]) + IntegerPieces([b])
  {
    assert [a, b][1..] == [b];
  }

  /** Every version, negative components included, parses back from its text. */
  lemma {:induction false} VersionRoundTrip(v: Version)
    ensures ParseVersion(Format(v)) == Ok(v)
  {
    var a, b := IntToString(v.major), IntToString(v.minor);
    assert Format(v) == a + ['.'] + b;
    TrimUnchanged(Format(v));
    ParseIntToString(v.major);
    ParseIntToString(v.minor);
    IntegerPiecesOfTwo(a, b);
  }

  /** `Format` is injective: distinct versions print differently. */
  lemma {:induction false} FormatInjective(a: Version, b: Version)
    requires Format(a) == Format(b)
    ensures a == b
  {
    VersionRoundTrip(a);
    VersionRoundTrip(b);
  }

  /** The decimal text of an integer has no '.' and no whitespace at either end. */
  lemma IntToStringEdges(n: int)
    ensures var s := IntToString(n);
            '.' !in s && !IsWhitespace(s[0]) && !IsWhitespace(s[|s| - 1])
  {
    var s := IntToString(n);
    IntToStringHasNoChar(n, '.');
    assert IsDigit(s[|s| - 1]) by {
      if n < 0 {
        assert s[|s| - 1] == s[1..][|s| - 2];
      }
    }
  }

  /** Pieces `[a, junk, b]` keep exactly the integers of `a` and `b`. */
  lemma {:induction false} IntegerPiecesSkipJunk(v: Version, junk: string)
    requires ParseI32(junk).None?
    ensures IntegerPieces([IntToString(v.major), junk, IntToString(v.minor)]) == [v.major, v.minor]
  {
    var pieces := [IntToString(v.major), junk, IntToString(v.minor)];
    ParseIntToString(v.major);
    ParseIntToString(v.minor);
    var tail := [junk, IntToString(v.minor)];
    assert pieces[1..] == tail && tail[1..] == [IntToString(v.minor)];
    assert IntegerPieces([IntToString(v.minor)]) == [v.minor];
    assert IntegerPieces(tail) == [v.minor];
  }

  /** Two integers around a middle piece need no trimming. */
  lemma {:induction false} JunkTextTrimmed(v: Version, junk: string)
    ensures var s := IntToString(v.major) + "." + junk + "." + IntToString(v.minor);
            Trim(s) == s
  {
    var a, b := IntToString(v.major), IntToString(v.minor);
    var s := a + "." + junk + "." + b;
    IntToStringEdges(v.major);
    IntToStringEdges(v.minor);
    assert s[0] == a[0] && s[|s| - 1] == b[|b| - 1];
    TrimUnchanged(s);
  }

  /** Two integers around a dot-free middle piece split into three pieces. */
  lemma {:induction false} JunkTextSplit(v: Version, junk: string)
    requires '.' !in junk
    ensures Split(IntToString(v.major) + "." + junk + "." + IntToString(v.minor), '.')
         == [IntToString(v.major), junk, IntToString(v.minor)]
  {
    var a, b := IntToString(v.major), IntToString(v.minor);
    IntToStringEdges(v.major);
    IntToStringEdges(v.minor);
    assert a + "." + junk + "." + b == a + ['.'] + (junk + ['.'] + b);
    SplitAfter(a, '.', junk + ['.'] + b);
    SplitAfter(junk, '.', b);
    SplitWithout(b, '.');
  }

  /**
    A piece that is not an integer is dropped rather than rejected, so
    "3.x.5" reads as 3.5: two integer pieces around any junk piece parse as
    the version they spell.
  */
  lemma {:induction false} JunkPieceIgnored(v: Version, junk: string)
    requires '.' !in junk && ParseI32(junk).None?
    ensures ParseVersion(IntToString(v.major) + "." + junk + "." + IntToString(v.minor)) == Ok(v)
  {
    JunkTextTrimmed(v, junk);
    JunkTextSplit(v, junk);
    IntegerPiecesSkipJunk(v, junk);
  }

  lemma ThreePointFiveQuirk(s: string)
    requires s == "3.x.5"
    ensures ParseVersion(s) == Ok(Version(3, 5))
  {
    assert IntToString(3) == "3" && IntToString(5) == "5";
    assert s == IntToString(3) + "." + "x" + "." + IntToString(5);
    JunkPieceIgnored(Version(3, 5), "x");
  }

  /** A single integer is not a version: "2" is rejected. */
  lemma {:induction false} SingleNumberRejected(n: Int32)
    ensures ParseVersion(IntToString(n)).Err?
  {
    var s := IntToString(n);
    IntToStringEdges(n);
    TrimUnchanged(s);
    SplitWithout(s, '.');
    ParseIntToString(n);
  }

  lemma TwoRejected(s: string)
    requires s == "2"
    ensures ParseVersion(s) == Err(SimpleError("Invalid version string: 2"))
  {
    assert IntToString(2) == "2";
    SingleNumberRejected(2);
  }

  /** `local_version`: the build-time version string, parsed. */
  function LocalVersion(built: Option<string>): (r: Result<Version>)
    ensures built.None? ==> r == Err(SimpleError("No local version set"))
    ensures built.Some? ==> r == ParseVersion(built.value)
  {
    match built
    case None => Err(MakeError("No local version set"))
    case Some(s) => ParseVersion(s)
  }

  /** `updater_configured`: a version was built in and it parses. */
  function UpdaterConfigured(built: Option<string>): (ok: bool)
    ensures ok <==> built.Some? && ParseVersion(built.value).Ok?
  {
    LocalVersion(built).Ok?
  }

  /** `TTDashUpgradeTarget`, the decoded remote descriptor. */
  datatype UpgradeTarget = UpgradeTarget(version: Version, md5sum: string, url: string)

  /**
    `binary_update_available`, given the build-time version and the outcome
    of fetching and decoding the descriptor: the descriptor's target when it
    is strictly newer than the running version, otherwise nothing.
  */
  function BinaryUpdateAvailable(built: Option<string>, remote: Result<UpgradeTarget>): (r: Option<UpgradeTarget>)
    ensures r.Some? <==> LocalVersion(built).Ok? && remote.Ok? && Less(LocalVersion(built).value, remote.value.version)
    ensures r.Some? ==> r.value == remote.value
  {
    match (LocalVersion(built), remote)
    case (Ok(local), Ok(target)) => if Less(local, target.version) then Some(target) else None
    case (_, Err(_)) => None
    case _ => None
  }

  /** Equal or older published versions are never an upgrade. */
  lemma {:induction false} NoDowngradeOrReinstall(built: string, target: UpgradeTarget)
    requires ParseVersion(built).Ok?
    requires !Less(ParseVersion(built).value, target.version)
    ensures BinaryUpdateAvailable(Some(built), Ok(target)).None?
  {
  }

  lemma ScenarioNewerMinor(built: string, target: UpgradeTarget)
    requires built == "1.2" && target.version == Version(1, 3)
    ensures BinaryUpdateAvailable(Some(built), Ok(target)) == Some(target)
  {
    assert IntToString(1) == "1" && IntToString(2) == "2";
    assert built == Format(Version(1, 2));
    VersionRoundTrip(Version(1, 2));
  }

  lemma ScenarioSameVersion(built: string, target: UpgradeTarget)
    requires built == "2.0" && target.version == Version(2, 0)
    ensures BinaryUpdateAvailable(Some(built), Ok(target)).None?
  {
    assert IntToString(2) == "2" && IntToString(0) == "0";
    assert built == Format(Version(2, 0));
    VersionRoundTrip(Version(2, 0));
  }

  lemma ScenarioOlderVersion(built: string, target: UpgradeTarget)
    requires built == "2.1" && target.version == Version(2, 0)
    ensures BinaryUpdateAvailable(Some(built), Ok(target)).None?
  {
    assert IntToString(2) == "2" && IntToString(1) == "1";
    assert built == Format(Version(2, 1));
    VersionRoundTrip(Version(2, 1));
  }

  const STAGING_PREFIX: string := "/tmp/ttdash-download-"
  const BACKUP_PATH: string := "/tmp/ttdash.prev"
  const EXECUTABLE_MODE: int := 0x1FF  // 0o777
  // The first line of the `assert_eq!` panic; Rust goes on with both digests.
  const CHECKSUM_PANIC: string := "assertion `left == right` failed"

  /** Where the download for a version is staged. */
  function StagingPath(v: Version): (p: string)
    ensures |STAGING_PREFIX| <= |p| && p[..|STAGING_PREFIX|] == STAGING_PREFIX && p[|STAGING_PREFIX|..] == Format(v)
  {
    STAGING_PREFIX + IntToString(v.major) + "." + IntToString(v.minor)
  }

  /** Different versions are staged at different paths. */
  lemma {:induction false} StagingPathInjective(a: Version, b: Version)
    requires StagingPath(a) == StagingPath(b)
    ensures a == b
  {
    FormatInjective(a, b);
  }

  /** The staging path is never the backup path. */
  lemma StagingIsNotBackup(v: Version)
    ensures StagingPath(v) != BACKUP_PATH
  {
    assert StagingPath(v)[11] == '-' && BACKUP_PATH[11] == '.';
  }

  /** A step of the install that the operating system may refuse. */
  datatype Step = CreateStaging | SetMode | CopyBackup | RenameOver | Exec

  /** How the HTTP download of the artifact ends. */
  datatype Transfer =
    | Complete(body: seq<bv8>)
    | ConnectFailed(reason: string)
    | Interrupted(partial: seq<bv8>, reason: string)

  /** What the install does outside the filesystem map. */
  datatype Event =
    | Fetched(url: string)
    | ModeSet(path: string, mode: int)
    | Executed(program: string, args: seq<string>)

  /**
    How `upgrade_to` ends: an `Err` returned to the caller, a panic
    (`assert_eq!`, `expect`, `unwrap`), or the process image replaced.
  */
  datatype InstallOutcome =
    | Failed(error: TTDashError)
    | Aborted(message: string)
    | Execed(program: string, args: seq<string>)

  /** `path` holds what it held before (or is still absent). */
  ghost predicate Untouched(before: map<string, seq<bv8>>, after: map<string, seq<bv8>>, path: string) {
    (path in after <==> path in before) && (path in after ==> after[path] == before[path])
  }

  /** `path` has the permission bits it had before (or still none). */
  ghost predicate ModeKept(before: map<string, int>, after: map<string, int>, path: string) {
    (path in after <==> path in before) && (path in after ==> after[path] == before[path])
  }

  /** What the staging file holds once a transfer has ended. */
  function Received(t: Transfer): seq<bv8> {
    match t
    case Complete(body) => body
    case ConnectFailed(_) => []
    case Interrupted(partial, _) => partial
  }

  /** Every argument converts to a C string: none holds a NUL character. */
  predicate CStrings(argv: seq<string>) {
    forall a :: a in argv ==> '\0' !in a
  }

  /**
    How the second half of `upgrade_to` ends on a machine holding `files`
    (the staged file included): the first step the operating system refuses,
    or the first argument that is not a C string, decides; otherwise exec.
  */
  function SwapOutcome(staging: string, argv0: string, argv: seq<string>,
                       files: map<string, seq<bv8>>, failing: set<Step>): (r: InstallOutcome)
    // Exec happens exactly when no step is refused, argv0 can be copied and every argument is a C string.
    ensures r.Execed? <==>
              && SetMode !in failing && CopyBackup !in failing && RenameOver !in failing && Exec !in failing
              && argv0 in files && argv0 != BACKUP_PATH
              && '\0' !in argv0 && CStrings(argv)
    ensures r.Execed? ==> r == Execed(argv0, argv)
    // Refused filesystem steps are returned as IO errors; the rest panic.
    ensures SetMode in failing ==> r == Failed(IoError("cannot set permissions of " + staging))
    ensures r.Failed? ==> r.error.IoError?
    ensures r.Aborted? ==> r.message in {"cstringing argv0", "cstringing argv", "execv failed"}
    ensures r.Aborted? <==>
              && SetMode !in failing && CopyBackup !in failing && RenameOver !in failing && argv0 in files && argv0 != BACKUP_PATH
              && ('\0' in argv0 || !CStrings(argv) || Exec in failing)
  {
    if SetMode in failing then Failed(IoError("cannot set permissions of " + staging))
    else if argv0 !in files || argv0 == BACKUP_PATH || CopyBackup in failing then Failed(IoError("cannot copy " + argv0))
    else if RenameOver in failing then Failed(IoError("cannot rename " + staging))
    else if '\0' in argv0 then Aborted("cstringing argv0")
    else if !CStrings(argv) then Aborted("cstringing argv")
    else if Exec in failing then Aborted("execv failed")
    else Execed(argv0, argv)
  }

  /** Whether the staging path already holds bytes with the target's digest. */
  predicate GoodStaged(target: UpgradeTarget, md5: seq<bv8> -> string, files: map<string, seq<bv8>>) {
    var staging := StagingPath(target.version);
    staging in files && md5(files[staging]) == target.md5sum
  }

  /**
    How `upgrade_to` ends on a machine holding `files`: staging, then the
    digest check, then the swap on the files as staging left them.
  */
  function UpgradeOutcome(target: UpgradeTarget, argv0: string, argv: seq<string>, md5: seq<bv8> -> string,
                          transfer: Transfer, files: map<string, seq<bv8>>, failing: set<Step>): (r: InstallOutcome)
    // A digest mismatch after staging aborts, and only then is this panic raised.
    ensures r == Aborted(CHECKSUM_PANIC) <==>
              && !GoodStaged(target, md5, files) && CreateStaging !in failing
              && transfer.Complete? && md5(transfer.body) != target.md5sum
    // Exec happens exactly when good bytes are staged (already there, or downloaded in full),
    // no step is refused, argv0 can be copied and every argument is a C string.
    ensures r.Execed? <==>
              && (GoodStaged(target, md5, files)
                  || (CreateStaging !in failing && transfer.Complete? && md5(transfer.body) == target.md5sum))
              && SetMode !in failing && CopyBackup !in failing && RenameOver !in failing && Exec !in failing
              && (argv0 in files || argv0 == StagingPath(target.version)) && argv0 != BACKUP_PATH
              && '\0' !in argv0 && CStrings(argv)
    ensures r.Execed? ==> r == Execed(argv0, argv)
    // A refused create is an IO error, an incomplete download an HTTP error.
    ensures !GoodStaged(target, md5, files) && CreateStaging in failing ==>
              r == Failed(IoError("cannot create " + StagingPath(target.version)))
    ensures !GoodStaged(target, md5, files) && CreateStaging !in failing && !transfer.Complete? ==>
              r == Failed(HttpError(transfer.reason))
  {
    var staging := StagingPath(target.version);
    if GoodStaged(target, md5, files) then SwapOutcome(staging, argv0, argv, files, failing)
    else if CreateStaging in failing then Failed(IoError("cannot create " + staging))
    else if !transfer.Complete? then Failed(HttpError(transfer.reason))
    else if md5(transfer.body) != target.md5sum then Aborted(CHECKSUM_PANIC)
    else SwapOutcome(staging, argv0, argv, files[staging := transfer.body], failing)
  }

  /**
    What `upgrade_to` logs on a machine holding `files`: the download when
    the staged file is not already good and can be created, the permission
    change when good bytes are staged and it is allowed, and the exec.
  */
  function InstallEvents(target: UpgradeTarget, argv0: string, argv: seq<string>, md5: seq<bv8> -> string,
                         transfer: Transfer, files: map<string, seq<bv8>>, failing: set<Step>): (e: seq<Event>)
    ensures |e| <= 3
    // Only a successful install execs.
    ensures (exists i :: 0 <= i < |e| && e[i].Executed?) <==>
              UpgradeOutcome(target, argv0, argv, md5, transfer, files, failing).Execed?
    // On success: the download unless a good file was staged, the permission change, then the exec.
    ensures UpgradeOutcome(target, argv0, argv, md5, transfer, files, failing).Execed? ==>
              e == (if GoodStaged(target, md5, files) then [] else [Fetched(target.url)])
                   + [ModeSet(StagingPath(target.version), EXECUTABLE_MODE), Executed(argv0, argv)]
    // An already staged good file is not downloaded again; otherwise the download comes first.
    ensures GoodStaged(target, md5, files) ==> forall i :: 0 <= i < |e| ==> !e[i].Fetched?
    ensures !GoodStaged(target, md5, files) && CreateStaging !in failing ==> |e| > 0 && e[0] == Fetched(target.url)
  {
    var staging := StagingPath(target.version);
    var good := GoodStaged(target, md5, files);
    var staged := good || (CreateStaging !in failing && transfer.Complete? && md5(transfer.body) == target.md5sum);
    var prefix := (if good || CreateStaging in failing then [] else [Fetched(target.url)])
                  + (if staged && SetMode !in failing then [ModeSet(staging, EXECUTABLE_MODE)] else []);
    if UpgradeOutcome(target, argv0, argv, md5, transfer, files, failing).Execed? then
      assert staged && SetMode !in failing;
      var e := prefix + [Executed(argv0, argv)];
      assert e[|e| - 1].Executed?;
      e
    else
      assert forall i :: 0 <= i < |prefix| ==> !prefix[i].Executed?;
      prefix
  }

  /** The machine the updater runs on: its files, their permission bits, and what it did. */
  class Host {
    var files: map<string, seq<bv8>>
    var modes: map<string, int>
    var events: seq<Event>

    constructor (files0: map<string, seq<bv8>>, modes0: map<string, int>)
      ensures files == files0 && modes == modes0 && events == []
    {
      files, modes, events := files0, modes0, [];
    }

    /**
      The first half of `upgrade_to`: unless the staging file already holds
      bytes with the expected digest, create (or truncate) it and download
      the artifact into it. Returns the error that ends the install, if any.
    */
    method Stage(staging: string, target: UpgradeTarget,
                 md5: seq<bv8> -> string, transfer: Transfer, failing: set<Step>)
      returns (stop: Option<TTDashError>)
      modifies this
      ensures modes == old(modes)
      ensures var good := staging in old(files) && md5(old(files)[staging]) == target.md5sum;
              if good || CreateStaging in failing then
                && files == old(files) && events == old(events)
                && (stop.None? <==> good)
                && (stop.Some? ==> stop.value == IoError("cannot create " + staging))
              else
                && files == old(files)[staging := Received(transfer)]
                && events == old(events) + [Fetched(target.url)]
                && (stop.None? <==> transfer.Complete?)
                && (stop.Some? ==> stop.value == HttpError(transfer.reason))
    {
      if staging in files && md5(files[staging]) == target.md5sum {
        return None;
      }
      if CreateStaging in failing {
        return Some(IoError("cannot create " + staging));
      }
      files := files[staging := []];
      events := events + [Fetched(target.url)];
      match transfer
      case ConnectFailed(reason) =>
        return Some(HttpError(reason));
      case Interrupted(partial, reason) =>
        files := files[staging := partial];
        return Some(HttpError(reason));
      case Complete(body) =>
        files := files[staging := body];
        return None;
    }

    /**
      `remove_file` of the backup, whose failure is ignored, then `copy` of
      the running executable to the backup path.
    */
    method ReplaceBackup(argv0: string, failing: set<Step>) returns (stop: Option<TTDashError>)
      modifies this
      ensures events == old(events)
      ensures stop.None? <==> argv0 in old(files) && argv0 != BACKUP_PATH && CopyBackup !in failing
      ensures stop.None? ==> files == old(files)[BACKUP_PATH := old(files)[argv0]]
      ensures stop.Some? ==> files == old(files) - {BACKUP_PATH} && stop.value == IoError("cannot copy " + argv0)
      ensures stop.None? && argv0 in old(modes) ==> modes == old(modes)[BACKUP_PATH := old(modes)[argv0]]
      ensures !(stop.None? && argv0 in old(modes)) ==> modes == old(modes) - {BACKUP_PATH}
      ensures forall p :: p != BACKUP_PATH ==> ModeKept(old(modes), modes, p)
    {
      files := files - {BACKUP_PATH};
      modes := modes - {BACKUP_PATH};
      if argv0 !in files || CopyBackup in failing {
        return Some(IoError("cannot copy " + argv0));
      }
      files := files[BACKUP_PATH := files[argv0]];
      if argv0 in modes {
        modes := modes[BACKUP_PATH := modes[argv0]];
      }
      return None;
    }

    /** `rename`: the file at `source` now lives at `target`; renaming a path to itself changes nothing. */
    method Rename(source: string, target: string, failing: set<Step>) returns (stop: Option<TTDashError>)
      requires source in files && source in modes
      modifies this
      ensures events == old(events)
      ensures stop.None? <==> RenameOver !in failing
      ensures stop.Some? ==> files == old(files) && modes == old(modes) && stop.value == IoError("cannot rename " + source)
      ensures stop.None? && source != target ==>
                && files == (old(files) - {source})[target := old(files)[source]]
                && modes == (old(modes) - {source})[target := old(modes)[source]]
      ensures stop.None? && source == target ==> files == old(files) && modes == old(modes)
      ensures forall p :: p != source && p != target ==> ModeKept(old(modes), modes, p)
    {
      if RenameOver in failing {
        return Some(IoError("cannot rename " + source));
      }
      if source != target {
        files := (files - {source})[target := files[source]];
        modes := (modes - {source})[target := modes[source]];
      }
      return None;
    }

    /**
      The C-string conversions of argv0 and of each argument, whose `expect`
      panics on a NUL, then `execv`, whose error `unwrap` turns into a panic.
    */
    method Execv(argv0: string, argv: seq<string>, failing: set<Step>) returns (outcome: InstallOutcome)
      modifies this
      ensures files == old(files) && modes == old(modes)
      ensures outcome.Execed? <==> '\0' !in argv0 && CStrings(argv) && Exec !in failing
      ensures outcome.Execed? ==> outcome == Execed(argv0, argv)
      ensures '\0' in argv0 ==> outcome == Aborted("cstringing argv0")
      ensures '\0' !in argv0 && !CStrings(argv) ==> outcome == Aborted("cstringing argv")
      ensures '\0' !in argv0 && CStrings(argv) && Exec in failing ==> outcome == Aborted("execv failed")
      ensures events == old(events) + (if outcome.Execed? then [Executed(argv0, argv)] else [])
    {
      if '\0' in argv0 {
        return Aborted("cstringing argv0");
      }
      if !CStrings(argv) {
        return Aborted("cstringing argv");
      }
      if Exec in failing {
        return Aborted("execv failed");
      }
      events := events + [Executed(argv0, argv)];
      return Execed(argv0, argv);
    }

    /**
      The second half of `upgrade_to`, once the staged digest has been
      checked: make the staged file executable, replace the backup with a
      copy of the running executable, rename the staged file over the
      running one, and exec it with the original arguments.
    */
    method Swap(staging: string, argv0: string, argv: seq<string>, failing: set<Step>)
      returns (outcome: InstallOutcome)
      requires staging in files && staging != BACKUP_PATH
      modifies this
      ensures events == old(events) + (if SetMode in failing then [] else [ModeSet(staging, EXECUTABLE_MODE)])
                                    + (if outcome.Execed? then [Executed(argv0, argv)] else [])
      ensures outcome == SwapOutcome(staging, argv0, argv, old(files), failing)
      ensures outcome.Execed? ==> SetMode !in failing
      ensures outcome.Aborted? ==> outcome.message in {"cstringing argv0", "cstringing argv", "execv failed"}
      ensures outcome.Failed? && argv0 != BACKUP_PATH ==> Untouched(old(files), files, argv0)
      ensures argv0 != BACKUP_PATH ==>
                Untouched(old(files), files, argv0) || (argv0 in files && files[argv0] == old(files)[staging])
      ensures forall p :: p != argv0 && p != staging && p != BACKUP_PATH ==> Untouched(old(files), files, p)
      ensures forall p :: p != argv0 && p != staging && p != BACKUP_PATH ==> ModeKept(old(modes), modes, p)
      ensures outcome.Execed? ==>
                && outcome == Execed(argv0, argv)
                && argv0 in files && files[argv0] == old(files)[staging]
                && argv0 in modes && modes[argv0] == EXECUTABLE_MODE
                && (argv0 != staging ==>
                      && argv0 in old(files) && staging !in files
                      && BACKUP_PATH in files && files[BACKUP_PATH] == old(files)[argv0])
    {
      if SetMode in failing {
        return Failed(IoError("cannot set permissions of " + staging));
      }
      modes := modes[staging := EXECUTABLE_MODE];
      events := events + [ModeSet(staging, EXECUTABLE_MODE)];

      ghost var m0 := modes;
      var stop := ReplaceBackup(argv0, failing);
      if stop.Some? {
        return Failed(stop.value);
      }
      ghost var m1 := modes;
      stop := Rename(staging, argv0, failing);
      if stop.Some? {
        return Failed(stop.value);
      }
      forall p | p != argv0 && p != staging && p != BACKUP_PATH
        ensures ModeKept(old(modes), modes, p)
      {
        assert ModeKept(old(modes), m0, p) && ModeKept(m0, m1, p) && ModeKept(m1, modes, p);
      }

      outcome := Execv(argv0, argv, failing);
    }

    /**
      `upgrade_to`. `md5` is the hex MD5 digest of a file's contents,
      `transfer` how the download would end, and `failing` the steps the
      operating system refuses.
    */
    method UpgradeTo(target: UpgradeTarget, argv0: string, argv: seq<string>,
                     md5: seq<bv8> -> string, transfer: Transfer, failing: set<Step>)
      returns (outcome: InstallOutcome)
      modifies this
      // Which way the install ends is decided by the staged bytes, the refused steps and the arguments.
      ensures outcome == UpgradeOutcome(target, argv0, argv, md5, transfer, old(files), failing)
      // The live executable is only ever replaced by bytes whose digest is the target's.
      ensures argv0 != BACKUP_PATH && argv0 != StagingPath(target.version) ==>
                Untouched(old(files), files, argv0) || (argv0 in files && md5(files[argv0]) == target.md5sum)
      // Every error returned to the caller leaves the live executable as it was.
      ensures outcome.Failed? && argv0 != BACKUP_PATH && argv0 != StagingPath(target.version) ==>
                Untouched(old(files), files, argv0)
      // A digest mismatch aborts, and only then is this panic raised.
      ensures outcome == Aborted(CHECKSUM_PANIC) ==>
                var staging := StagingPath(target.version);
                && staging in files && md5(files[staging]) != target.md5sum
                && (argv0 != staging ==> Untouched(old(files), files, argv0))
      // Nothing but the staging file, the backup and the executable is touched.
      ensures forall p :: p != argv0 && p != StagingPath(target.version) && p != BACKUP_PATH ==>
                Untouched(old(files), files, p)
      ensures forall p :: p != argv0 && p != StagingPath(target.version) && p != BACKUP_PATH ==>
                ModeKept(old(modes), modes, p)
      // The whole event log, on every path (InstallEvents states what it holds).
      ensures events == old(events) + InstallEvents(target, argv0, argv, md5, transfer, old(files), failing)
      // On success: the verified bytes are executable at argv0, the old program is in
      // the backup, the staging file is gone, and exec gets argv0 and argv unchanged.
      ensures outcome.Execed? ==>
                var staging := StagingPath(target.version);
                var wasGood := staging in old(files) && md5(old(files)[staging]) == target.md5sum;
                && outcome == Execed(argv0, argv)
                && argv0 in files && md5(files[argv0]) == target.md5sum
                && (if wasGood then files[argv0] == old(files)[staging]
                    else transfer.Complete? && files[argv0] == transfer.body)
                && argv0 in modes && modes[argv0] == EXECUTABLE_MODE
                && (argv0 != staging ==>
                      && argv0 in old(files) && staging !in files
                      && BACKUP_PATH in files && files[BACKUP_PATH] == old(files)[argv0])
    {
      var staging := StagingPath(target.version);
      StagingIsNotBackup(target.version);
      var stop := Stage(staging, target, md5, transfer, failing);
      if stop.Some? {
        return Failed(stop.value);
      }
      if md5(files[staging]) != target.md5sum {
        return Aborted(CHECKSUM_PANIC);
      }
      ghost var staged, stagedEvents := files, events;
      ghost var wasGood := staging in old(files) && md5(old(files)[staging]) == target.md5sum;
      assert stagedEvents == old(events) + (if wasGood then [] else [Fetched(target.url)]);
      assert forall p :: p != staging ==> Untouched(old(files), staged, p);
      outcome := Swap(staging, argv0, argv, failing);
      ghost var swapEvents := (if SetMode in failing then [] else [ModeSet(staging, EXECUTABLE_MODE)])
                              + (if outcome.Execed? then [Executed(argv0, argv)] else []);
      AppendAssoc(stagedEvents, if SetMode in failing then [] else [ModeSet(staging, EXECUTABLE_MODE)],
                  if outcome.Execed? then [Executed(argv0, argv)] else []);
      AppendAssoc(old(events), if wasGood then [] else [Fetched(target.url)], swapEvents);
      forall p | p != argv0 && p != staging && p != BACKUP_PATH
        ensures Untouched(old(files), files, p)
      {
        assert Untouched(old(files), staged, p) && Untouched(staged, files, p);
      }
    }
  }
}
