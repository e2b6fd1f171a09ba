/**
 * Backup paths of internal/config/agent/db_config.go: printed as pg-<version>/<database>/<time>.sql, and
 * checked again when a restore is asked for.
 */
module BackupPaths {

  // ---------- Components ----------

  /** strings.Split(s, "/"). */
  function Split(s: string): (parts: seq<string>)
    ensures |parts| > 0
  {
    if s == "" then [""]
    else if s[0] == '/' then [""] + Split(s[1..])
    else
      var rest := Split(s[1..]);
      [[s[0]] + rest[0]] + rest[1..]
  }

  function Join(parts: seq<string>): string
    requires |parts| > 0
  {
    if |parts| == 1 then parts[0] else parts[0] + "/" + Join(parts[1..])
  }

  lemma {:induction false} SplitFront(a: string, s: string)
    requires '/' !in a
    ensures Split(a + "/" + s) == [a] + Split(s)
  {
    var all := a + "/" + s;
    if a == "" {
      assert all[0] == '/' && all[1..] == s;
    } else {
      SplitFront(a[1..], s);
      assert all[0] == a[0] && all[1..] == a[1..] + "/" + s && [a[0]] + a[1..] == a;
    }
  }

  lemma {:induction false} SplitOne(a: string)
    requires '/' !in a
    ensures Split(a) == [a]
  {
    if a == "" {
    } else {
      SplitOne(a[1..]);
      assert [a[0]] + a[1..] == a;
    }
  }

  ghost predicate NoSlashes(parts: seq<string>) {
    forall i :: 0 <= i < |parts| ==> '/' !in parts[i]
  }

  lemma {:induction false} SplitOfJoin(parts: seq<string>)
    requires |parts| > 0 && NoSlashes(parts)
    ensures Split(Join(parts)) == parts
  {
    if |parts| == 1 {
      SplitOne(parts[0]);
    } else {
      SplitOfJoin(parts[1..]);
      SplitFront(parts[0], Join(parts[1..]));
    }
  }

  lemma {:induction false} SplitHasNoSlashes(s: string)
    ensures NoSlashes(Split(s))
  {
    if s == "" {
    } else {
      SplitHasNoSlashes(s[1..]);
    }
  }

  /** A prefix without a slash is a prefix of the first component. */
  lemma {:induction false} PrefixOfFirst(p: string, s: string)
    requires p <= s && '/' !in p
    ensures p <= Split(s)[0]
  {
    if p == "" {
    } else {
      PrefixOfFirst(p[1..], s[1..]);
      assert s[0] == p[0];
      assert Split(s)[0] == [s[0]] + Split(s[1..])[0];
    }
  }

  // ---------- filepath.Clean ----------

  /** Components taken one by one onto the list kept so far: "" and "." dropped, ".." undoing what it can. */
  function Resolve(rooted: bool, kept: seq<string>, parts: seq<string>): seq<string>
    decreases |parts|
  {
    if parts == [] then kept
    else
      var p, rest := parts[0], parts[1..];
      if p == "" || p == "." then Resolve(rooted, kept, rest)
      else if p != ".." then Resolve(rooted, kept + [p], rest)
      else if kept != [] && kept[|kept| - 1] != ".." then Resolve(rooted, kept[..|kept| - 1], rest)
      else if rooted then Resolve(rooted, kept, rest)
      else Resolve(rooted, kept + [p], rest)
  }

  predicate Rooted(path: string) {
    path != "" && path[0] == '/'
  }

  function Clean(path: string): string {
    var kept := Resolve(Rooted(path), [], Split(path));
    if Rooted(path) then "/" + (if kept == [] then "" else Join(kept))
    else if kept == [] then "."
    else Join(kept)
  }

  /** A component that names something in its own directory. */
  predicate Plain(p: string) {
    p != "" && p != "." && p != ".." && '/' !in p
  }

  /** Plain components, after a run of ".." if the path is relative. */
  ghost predicate Resolved(rooted: bool, kept: seq<string>) {
    && (forall i :: 0 <= i < |kept| ==> Plain(kept[i]) || (kept[i] == ".." && !rooted))
    && (forall i, j :: 0 <= i < j < |kept| && kept[j] == ".." ==> kept[i] == "..")
  }

  lemma {:induction false} ResolveResolves(rooted: bool, kept: seq<string>, parts: seq<string>)
    requires Resolved(rooted, kept) && NoSlashes(parts)
    ensures Resolved(rooted, Resolve(rooted, kept, parts))
    decreases |parts|
  {
    if parts == [] {
    } else {
      var p, rest := parts[0], parts[1..];
      if p == "" || p == "." {
        ResolveResolves(rooted, kept, rest);
      } else if p != ".." {
        ResolveResolves(rooted, kept + [p], rest);
      } else if kept != [] && kept[|kept| - 1] != ".." {
        ResolveResolves(rooted, kept[..|kept| - 1], rest);
      } else if rooted {
        ResolveResolves(rooted, kept, rest);
      } else {
        assert forall i :: 0 <= i < |kept| ==> kept[i] == "..";
        ResolveResolves(rooted, kept + [p], rest);
      }
    }
  }

  /** Resolving resolved components changes nothing. */
  lemma {:induction false} ResolveAgain(rooted: bool, kept: seq<string>, parts: seq<string>)
    requires Resolved(rooted, kept + parts)
    ensures Resolve(rooted, kept, parts) == kept + parts
    decreases |parts|
  {
    if parts == [] {
      assert kept + parts == kept;
    } else {
      assert (kept + parts)[|kept|] == parts[0];
      assert (kept + [parts[0]]) + parts[1..] == kept + parts;
      if parts[0] == ".." && kept != [] {
        assert (kept + parts)[|kept| - 1] == kept[|kept| - 1];
      }
      ResolveAgain(rooted, kept + [parts[0]], parts[1..]);
    }
  }

  /** A clean relative path that does not start with a slash splits into resolved components. */
  lemma CleanRelative(path: string)
    requires !Rooted(path)
    ensures Clean(path) == "." || (Resolved(false, Split(Clean(path))) && Join(Split(Clean(path))) == Clean(path))
  {
    var kept := Resolve(false, [], Split(path));
    SplitHasNoSlashes(path);
    ResolveResolves(false, [], Split(path));
    if kept != [] {
      SplitOfJoin(kept);
    }
  }

  /** Cleaning a clean path changes nothing. */
  lemma CleanIsIdempotent(path: string)
    ensures Clean(Clean(path)) == Clean(path)
  {
    var rooted, kept := Rooted(path), Resolve(Rooted(path), [], Split(path));
    SplitHasNoSlashes(path);
    ResolveResolves(rooted, [], Split(path));
    assert [] + kept == kept;
    ResolveAgain(rooted, [], kept);
    if kept == [] {
      CleanOfNothing();
    } else if rooted {
      CleanOfRooted(kept);
    } else {
      SplitOfJoin(kept);
      JoinStart(kept);
    }
  }

  lemma CleanOfNothing()
    ensures Clean("/") == "/" && Clean(".") == "."
  {
    SplitOne(".");
    assert Split("") == [""] && Split("/") == ["", ""];
    assert [""][1..] == [] && ["", ""][1..] == [""] && ["."][1..] == [];
  }

  lemma CleanOfRooted(kept: seq<string>)
    requires kept != [] && NoSlashes(kept) && Resolve(true, [], kept) == kept
    ensures Clean("/" + Join(kept)) == "/" + Join(kept)
  {
    var path := "/" + Join(kept);
    SplitOfJoin(kept);
    assert path[1..] == Join(kept);
    assert Split(path) == [""] + kept && ([""] + kept)[1..] == kept;
  }

  lemma JoinStart(parts: seq<string>)
    requires |parts| > 0 && parts[0] != "" && '/' !in parts[0]
    ensures Join(parts) != "" && Join(parts)[0] == parts[0][0] != '/'
  {
  }

  // ---------- Numbers ----------

  /** An int32 conversion keeps the low 32 bits. */
  function ToInt32(v: int): int {
    var low := v % 0x1_0000_0000;
    if low < 0x8000_0000 then low else low - 0x1_0000_0000
  }

  predicate IsInt32(v: int) {
    -0x8000_0000 <= v < 0x8000_0000
  }

  predicate IsDigit(c: char) {
    '0' <= c <= '9'
  }

  function Digit(d: nat): char
    requires d < 10
  {
    '0' + d as char
  }

  function PrintNat(n: nat): string {
    if n < 10 then [Digit(n)] else PrintNat(n / 10) + [Digit(n % 10)]
  }

  /** %d */
  function Print(v: int): string {
    if v < 0 then "-" + PrintNat(-v) else PrintNat(v)
  }

  datatype Number = Number(value: int) | Malformed

  function ParseDigits(s: string): Number {
    if s == "" then Number(0)
    else
      var last := s[|s| - 1];
      var front := ParseDigits(s[..|s| - 1]);
      if front.Malformed? || !IsDigit(last) then Malformed
      else Number(10 * front.value + (last as int - '0' as int))
  }

  /** strconv.Atoi on a 64-bit platform: an optional sign, then at least one digit, within int64. */
  function Atoi(s: string): Number {
    var signed := s != "" && (s[0] == '+' || s[0] == '-');
    var digits := if signed then s[1..] else s;
    var n := ParseDigits(digits);
    if digits == "" || n.Malformed? then Malformed
    else
      var v := if signed && s[0] == '-' then -n.value else n.value;
      if -0x8000_0000_0000_0000 <= v < 0x8000_0000_0000_0000 then Number(v) else Malformed
  }

  lemma {:induction false} ParsePrintNat(n: nat)
    ensures ParseDigits(PrintNat(n)) == Number(n)
    ensures PrintNat(n) != "" && forall i :: 0 <= i < |PrintNat(n)| ==> IsDigit(PrintNat(n)[i])
  {
    var s := PrintNat(n);
    if n < 10 {
      assert s[..|s| - 1] == "";
    } else {
      ParsePrintNat(n / 10);
      assert s[..|s| - 1] == PrintNat(n / 10);
    }
  }

  predicate IsInt64(v: int) {
    -0x8000_0000_0000_0000 <= v < 0x8000_0000_0000_0000
  }

  lemma AtoiOfPrint(v: int)
    requires IsInt64(v)
    ensures Atoi(Print(v)) == Number(v) && '/' !in Print(v)
  {
    var digits := PrintNat(if v < 0 then -v else v);
    ParsePrintNat(if v < 0 then -v else v);
    assert IsDigit(digits[0]);
    if v < 0 {
      AtoiOfNegative(v, digits);
    } else {
      AtoiOfDigits(v, digits);
    }
  }

  lemma AtoiOfDigits(v: nat, digits: string)
    requires IsInt64(v) && digits != "" && IsDigit(digits[0]) && ParseDigits(digits) == Number(v)
    ensures Atoi(digits) == Number(v)
  {
  }

  lemma AtoiOfNegative(v: int, digits: string)
    requires IsInt64(v) && v < 0 && digits != "" && ParseDigits(digits) == Number(-v)
    ensures Atoi("-" + digits) == Number(v)
  {
    assert ("-" + digits)[1..] == digits;
  }

  /** The conversion changes exactly the numbers that do not fit, and always gives one that does. */
  lemma ToInt32OfInt32(v: int)
    ensures ToInt32(v) == v <==> IsInt32(v)
    ensures IsInt32(ToInt32(v))
  {
  }

  // ---------- The checks ----------

  datatype Error = IllegalPath | IllegalVersion | NameMismatch | HigherVersion

  /** Panics stands for the index out of range on a clean path without a slash. */
  datatype Outcome<T> = Ok(value: T) | Err(error: Error) | Panics

  datatype Extracted = Extracted(dbName: string, pgVersion: int)

  function ExtractBackupPath(backupPath: string): Outcome<Extracted> {
    var cleanPath := Clean(backupPath);
    if !("pg-" <= cleanPath) then Err(IllegalPath)
    else
      var parts := Split(cleanPath);
      if |parts| < 2 then Panics
      else if |parts[0]| < 3 then Panics
      else
        var v := Atoi(parts[0][3..]);
        if v.Malformed? then Err(IllegalVersion) else Ok(Extracted(parts[1], ToInt32(v.value)))
  }

  function ValidateBackupPath(currentVersion: int, backupPath: string, dbName: string): Outcome<int> {
    var r := ExtractBackupPath(backupPath);
    if r.Panics? then Panics
    else if r.Err? then Err(r.error)
    else if r.value.dbName != dbName then Err(NameMismatch)
    else if r.value.pgVersion > currentVersion then Err(HigherVersion)
    else Ok(r.value.pgVersion)
  }

  /** time is the clock, already formatted. */
  function NewBackupFile(currentVersion: int, dbName: string, time: string): string {
    "pg-" + Print(currentVersion) + "/" + dbName + "/" + time + ".sql"
  }

  /** The path stays below the root: relative, and every component of its clean form is plain. */
  ghost predicate StaysBelow(path: string) {
    !Rooted(path) && forall i :: 0 <= i < |Split(Clean(path))| ==> Plain(Split(Clean(path))[i])
  }

  lemma RootedStaysRooted(path: string)
    requires Rooted(path)
    ensures Rooted(Clean(path)) && !("pg-" <= Clean(path))
  {
    assert "pg-"[0] == 'p';
  }

  lemma PgPathIsResolved(path: string)
    requires "pg-" <= Clean(path)
    ensures !Rooted(path) && Clean(path) != "." && "pg-" <= Split(Clean(path))[0] && StaysBelow(path)
  {
    if Rooted(path) {
      RootedStaysRooted(path);
    }
    CleanRelative(path);
    PrefixOfFirst("pg-", Clean(path));
    var parts := Split(Clean(path));
    assert parts[0] != ".." by {
      assert "pg-"[0] == 'p' && parts[0][0] == 'p';
    }
  }

  /**
   * An accepted path stays below the backup root, its first component is pg-<number>, its second the database,
   * and the version given back is that number cut to 32 bits, at most the current one.
   */
  lemma AcceptedPathStaysInPlace(currentVersion: int, path: string, dbName: string)
    requires ValidateBackupPath(currentVersion, path, dbName).Ok?
    ensures StaysBelow(path) && Plain(dbName)
    ensures var parts := Split(Clean(path));
            && |parts| >= 2 && parts[1] == dbName && "pg-" <= parts[0]
            && Atoi(parts[0][3..]).Number?
            && ValidateBackupPath(currentVersion, path, dbName).value == ToInt32(Atoi(parts[0][3..]).value)
    ensures ValidateBackupPath(currentVersion, path, dbName).value <= currentVersion
  {
    PgPathIsResolved(path);
  }

  /** The check panics exactly on paths that clean to a single component starting with "pg-". */
  lemma PanicsIff(currentVersion: int, path: string, dbName: string)
    ensures ValidateBackupPath(currentVersion, path, dbName).Panics? <==>
              "pg-" <= Clean(path) && '/' !in Clean(path)
  {
    if "pg-" <= Clean(path) {
      PgPathIsResolved(path);
      CleanRelative(path);
      SplitHasNoSlashes(Clean(path));
      assert Split(Clean(path)) == [Clean(path)] <==> |Split(Clean(path))| == 1;
      if '/' !in Clean(path) {
        SplitOne(Clean(path));
      }
    }
  }

  /** "pg-14" has the right prefix and no database: the check panics instead of refusing it. */
  lemma VersionAloneMakesItPanic(currentVersion: int, dbName: string)
    ensures ValidateBackupPath(currentVersion, "pg-14", dbName) == Panics
  {
    var path := "pg-14";
    SplitOne(path);
    assert [path][1..] == [];
    assert Resolve(false, [], [path]) == Resolve(false, [] + [path], []) == [path];
    PanicsIff(currentVersion, path, dbName);
  }

  lemma PrintedPathIsClean(version: int, dbName: string, time: string)
    requires IsInt64(version) && Plain(dbName) && '/' !in time
    ensures var path := NewBackupFile(version, dbName, time);
            Clean(path) == path && Split(path) == ["pg-" + Print(version), dbName, time + ".sql"]
  {
    var path := NewBackupFile(version, dbName, time);
    var parts := ["pg-" + Print(version), dbName, time + ".sql"];
    AtoiOfPrint(version);
    assert Join(parts[2..]) == time + ".sql" && Join(parts[1..]) == dbName + "/" + (time + ".sql");
    assert path == Join(parts);
    assert Plain(parts[0]) by {
      assert parts[0][0] == 'p';
    }
    assert Plain(parts[2]) by {
      assert |parts[2]| >= 4;
    }
    assert NoSlashes(parts);
    SplitOfJoin(parts);
    assert [] + parts == parts;
    ResolveAgain(false, [], parts);
    JoinStart(parts);
  }

  /** A path printed with any version a path can hold: what the check makes of it. */
  lemma PrintedPathIsChecked(currentVersion: int, version: int, dbName: string, time: string)
    requires IsInt64(version) && Plain(dbName) && '/' !in time
    ensures ValidateBackupPath(currentVersion, NewBackupFile(version, dbName, time), dbName) ==
            if ToInt32(version) <= currentVersion then Ok(ToInt32(version)) else Err(HigherVersion)
  {
    var path := NewBackupFile(version, dbName, time);
    PrintedPathIsClean(version, dbName, time);
    AtoiOfPrint(version);
    assert ("pg-" + Print(version))[3..] == Print(version);
    assert "pg-" <= path;
  }

  /** A freshly printed path is accepted with the current version exactly for names that are one plain component. */
  lemma FreshPathRoundTrips(currentVersion: int, dbName: string, time: string)
    requires IsInt32(currentVersion) && '/' !in time
    ensures var path := NewBackupFile(currentVersion, dbName, time);
            ValidateBackupPath(currentVersion, path, dbName) == Ok(currentVersion) <==> Plain(dbName)
  {
    var path := NewBackupFile(currentVersion, dbName, time);
    if Plain(dbName) {
      PrintedPathIsChecked(currentVersion, currentVersion, dbName, time);
      ToInt32OfInt32(currentVersion);
    } else if ValidateBackupPath(currentVersion, path, dbName).Ok? {
      AcceptedPathStaysInPlace(currentVersion, path, dbName);
    }
  }

  /** The number in the first component of an accepted path. */
  function PrintedVersion(currentVersion: int, path: string, dbName: string): (n: int)
    requires ValidateBackupPath(currentVersion, path, dbName).Ok?
    ensures IsInt64(n)
  {
    AcceptedPathStaysInPlace(currentVersion, path, dbName);
    Atoi(Split(Clean(path))[0][3..]).value
  }

  /**
   * Of an accepted path: the version given back is the number printed exactly when that fits 32 bits, and the
   * number is not above the current version exactly when it is below 2^31.
   */
  lemma AcceptedVersionIsThePrintedOneIff(currentVersion: int, path: string, dbName: string)
    requires IsInt32(currentVersion) && ValidateBackupPath(currentVersion, path, dbName).Ok?
    ensures var n := PrintedVersion(currentVersion, path, dbName);
      var v := ValidateBackupPath(currentVersion, path, dbName).value;
      && (v == n <==> IsInt32(n))
      && (n <= currentVersion <==> n < 0x8000_0000)
  {
    AcceptedPathStaysInPlace(currentVersion, path, dbName);
    ToInt32OfInt32(PrintedVersion(currentVersion, path, dbName));
  }

  /**
   * The refusal of higher versions: a path printed with a version above the current one is refused exactly when
   * its low 32 bits are above the current one too; every version below 2^31 is such a case.
   */
  lemma HigherVersionIsRefusedIff(currentVersion: int, version: int, dbName: string, time: string)
    requires IsInt32(currentVersion) && IsInt64(version) && currentVersion < version
    requires Plain(dbName) && '/' !in time
    ensures var r := ValidateBackupPath(currentVersion, NewBackupFile(version, dbName, time), dbName);
      && (r == Err(HigherVersion) <==> currentVersion < ToInt32(version))
      && (version < 0x8000_0000 ==> r == Err(HigherVersion))
  {
    PrintedPathIsChecked(currentVersion, version, dbName, time);
    ToInt32OfInt32(version);
  }

  lemma PrintedVersionOfPrinted(currentVersion: int, version: int, dbName: string, time: string)
    requires IsInt64(version) && Plain(dbName) && '/' !in time && ToInt32(version) <= currentVersion
    ensures var path := NewBackupFile(version, dbName, time);
      && ValidateBackupPath(currentVersion, path, dbName) == Ok(ToInt32(version))
      && PrintedVersion(currentVersion, path, dbName) == version
  {
    PrintedPathIsChecked(currentVersion, version, dbName, time);
    PrintedPathIsClean(version, dbName, time);
    AtoiOfPrint(version);
    assert ("pg-" + Print(version))[3..] == Print(version);
  }

  /** Whatever the current version is, the one 2^32 above it is accepted, and taken for the current one. */
  lemma WrappedVersionIsAccepted(currentVersion: int, dbName: string, time: string)
    requires IsInt32(currentVersion) && Plain(dbName) && '/' !in time
    ensures var path := NewBackupFile(currentVersion + 0x1_0000_0000, dbName, time);
      && ValidateBackupPath(currentVersion, path, dbName) == Ok(currentVersion)
      && PrintedVersion(currentVersion, path, dbName) == currentVersion + 0x1_0000_0000
  {
    PrintedVersionOfPrinted(currentVersion, currentVersion + 0x1_0000_0000, dbName, time);
  }

  lemma PrintsTheWrappedPath(version: int, dbName: string, time: string)
    requires version == 14 + 0x1_0000_0000 && dbName == "db" && time == "x"
    ensures NewBackupFile(version, dbName, time) == "pg-4294967310/db/x.sql"
  {
    PrintsTheWrappedVersion();
    assert "pg-" + "4294967310" == "pg-4294967310";
    assert "pg-4294967310" + "/" + "db" + "/" + "x" + ".sql" == "pg-4294967310/db/x.sql";
  }

  /** So on version 14 the path pg-4294967310/db/x.sql is accepted, and taken for one of version 14. */
  lemma WrappedPathIsAccepted(path: string, dbName: string)
    requires path == "pg-4294967310/db/x.sql" && dbName == "db"
    ensures ValidateBackupPath(14, path, dbName) == Ok(14) && PrintedVersion(14, path, dbName) == 4294967310
  {
    var version: int :| version == 14 + 0x1_0000_0000;
    var time: string :| time == "x";
    PrintsTheWrappedPath(version, dbName, time);
    WrappedVersionIsAccepted(14, dbName, time);
  }

  lemma PrintsTheWrappedVersion()
    ensures Print(4294967310) == "4294967310"
  {
    assert PrintNat(42) == "42" && PrintNat(429) == "429" && PrintNat(4294) == "4294";
    assert PrintNat(42949) == "42949" && PrintNat(429496) == "429496" && PrintNat(4294967) == "4294967";
    assert PrintNat(42949673) == "42949673" && PrintNat(429496731) == "429496731";
  }

  predicate IsLetterOrUnderscore(c: char) {
    'a' <= c <= 'z' || 'A' <= c <= 'Z' || c == '_'
  }

  /** The identifiers requests are limited to: ^[a-zA-Z_][a-zA-Z0-9_]+$. */
  predicate IsId(name: string) {
    |name| >= 2 && IsLetterOrUnderscore(name[0])
    && forall i :: 1 <= i < |name| ==> IsLetterOrUnderscore(name[i]) || IsDigit(name[i])
  }

  lemma BackupOfAnyIdRestores(currentVersion: int, dbName: string, time: string)
    requires IsInt32(currentVersion) && '/' !in time && IsId(dbName)
    ensures var path := NewBackupFile(currentVersion, dbName, time);
            ValidateBackupPath(currentVersion, path, dbName) == Ok(currentVersion)
  {
    assert Plain(dbName) by {
      if '/' in dbName {
        var i :| 0 <= i < |dbName| && dbName[i] == '/';
        assert false;
      }
    }
    FreshPathRoundTrips(currentVersion, dbName, time);
  }
}
