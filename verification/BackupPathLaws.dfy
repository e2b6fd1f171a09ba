/**
 * What the path check of BackupPaths comes to on the path as it was given: the rules of cleaning, the climbing of
 * "..", and the reading of the version.
 */
module BackupPathLaws {
  import opened BackupPaths

  // ---------- Splitting and resolving in pieces ----------

  lemma {:induction false} SplitConcat(p: string, s: string)
    ensures Split(p + "/" + s) == Split(p) + Split(s)
  {
    var all := p + "/" + s;
    if p == "" {
      assert all[0] == '/' && all[1..] == s;
    } else {
      SplitConcat(p[1..], s);
      assert all[0] == p[0] && all[1..] == p[1..] + "/" + s;
      FrontConcat(p[0], Split(p[1..]), Split(s));
    }
  }

  lemma FrontConcat(c: char, a: seq<string>, b: seq<string>)
    requires a != []
    ensures [""] + (a + b) == ([""] + a) + b
    ensures [[c] + (a + b)[0]] + (a + b)[1..] == ([[c] + a[0]] + a[1..]) + b
  {
    assert (a + b)[1..] == a[1..] + b;
  }

  lemma {:induction false} ResolveConcat(rooted: bool, kept: seq<string>, a: seq<string>, b: seq<string>)
    ensures Resolve(rooted, kept, a + b) == Resolve(rooted, Resolve(rooted, kept, a), b)
    decreases |a|
  {
    if a == [] {
      assert a + b == b;
    } else {
      var p := a[0];
      assert (a + b)[0] == p && (a + b)[1..] == a[1..] + b;
      ResolveConcat(rooted, kept, a[1..], b);
      ResolveConcat(rooted, kept + [p], a[1..], b);
      if kept != [] {
        ResolveConcat(rooted, kept[..|kept| - 1], a[1..], b);
      }
    }
  }

  /** The components that are kept of a path. */
  function Kept(path: string): seq<string> {
    Resolve(Rooted(path), [], Split(path))
  }

  /** What follows a path is resolved after it. */
  lemma {:induction false} KeptConcat(p: string, s: string)
    requires p != ""
    ensures Rooted(p + "/" + s) <==> Rooted(p)
    ensures Kept(p + "/" + s) == Resolve(Rooted(p), Kept(p), Split(s))
  {
    SplitConcat(p, s);
    ResolveConcat(Rooted(p), [], Split(p), Split(s));
  }

  lemma SameKept(p: string, q: string)
    requires (Rooted(p) <==> Rooted(q)) && Kept(p) == Kept(q)
    ensures Clean(p) == Clean(q)
  {
  }

  // ---------- The rules of cleaning ----------

  /** A component between two slashes that is empty, or a dot, goes. */
  lemma CleanDropsDots(p: string, dot: string, q: string)
    requires p != "" && (dot == "" || dot == ".")
    ensures Clean(p + "/" + (dot + "/" + q)) == Clean(p + "/" + q)
    ensures Clean(p + "/" + dot) == Clean(p)
  {
    SplitFront(dot, q);
    SplitOne(dot);
    KeptConcat(p, q);
    KeptConcat(p, dot + "/" + q);
    KeptConcat(p, dot);
    assert ([dot] + Split(q))[1..] == Split(q) && [dot][1..] == [];
    SameKept(p + "/" + (dot + "/" + q), p + "/" + q);
    SameKept(p + "/" + dot, p);
  }

  /** ".." undoes the name in front of it, wherever it stands. */
  lemma CleanClimbsBack(p: string, b: string, up: string, q: string)
    requires p != "" && Plain(b) && up == ".."
    ensures Clean(p + "/" + b + "/" + up + "/" + q) == Clean(p + "/" + q)
  {
    assert p + "/" + b + "/" + up + "/" + q == p + "/" + (b + "/" + (up + "/" + q));
    SplitFront(up, q);
    SplitFront(b, up + "/" + q);
    assert [b] + ([up] + Split(q)) == [b, up] + Split(q);
    KeptConcat(p, q);
    KeptConcat(p, b + "/" + (up + "/" + q));
    DownAndUp(Rooted(p), Kept(p), b, up, Split(q));
    SameKept(p + "/" + (b + "/" + (up + "/" + q)), p + "/" + q);
  }

  lemma CleanClimbsBackAtTheEnd(p: string, b: string, up: string)
    requires p != "" && Plain(b) && up == ".."
    ensures Clean(p + "/" + b + "/" + up) == Clean(p)
  {
    assert p + "/" + b + "/" + up == p + "/" + (b + "/" + up);
    SplitOne(up);
    SplitFront(b, up);
    assert [b] + [up] == [b, up] + [];
    KeptConcat(p, b + "/" + up);
    DownAndUp(Rooted(p), Kept(p), b, up, []);
    SameKept(p + "/" + (b + "/" + up), p);
  }

  lemma DownAndUp(rooted: bool, kept: seq<string>, b: string, up: string, rest: seq<string>)
    requires Plain(b) && up == ".."
    ensures Resolve(rooted, kept, [b, up] + rest) == Resolve(rooted, kept, rest)
  {
    var parts := [b, up] + rest;
    assert parts[1..] == [up] + rest && ([up] + rest)[1..] == rest;
    assert (kept + [b])[..|kept|] == kept;
  }

  /** There is nothing above the root. */
  lemma CleanStopsAtTheRoot(up: string, q: string)
    requires up == ".."
    ensures Clean("/" + (up + "/" + q)) == Clean("/" + q)
  {
    SplitFront(up, q);
    KeptOfRooted(q);
    KeptOfRooted(up + "/" + q);
    assert ([up] + Split(q))[1..] == Split(q);
    SameKept("/" + (up + "/" + q), "/" + q);
  }

  lemma KeptOfRooted(s: string)
    ensures Rooted("/" + s) && Kept("/" + s) == Resolve(true, [], Split(s))
  {
    assert ("/" + s)[1..] == s && ([""] + Split(s))[1..] == Split(s);
  }

  /** Plain components, behind a run of ".." if the path is relative, are as they are to be. */
  lemma CleanLeavesCleanForms(rooted: bool, parts: seq<string>)
    requires parts != [] && Resolved(rooted, parts)
    ensures Clean((if rooted then "/" else "") + Join(parts)) == (if rooted then "/" else "") + Join(parts)
  {
    assert NoSlashes(parts) by {
      assert '/' !in "..";
    }
    SplitOfJoin(parts);
    assert [] + parts == parts;
    ResolveAgain(rooted, [], parts);
    if rooted {
      CleanOfRooted(parts);
    } else {
      JoinStart(parts);
      assert "" + Join(parts) == Join(parts);
    }
  }

  // ---------- Climbing ----------

  /** How many components are names, and how many are "..". */
  function Names(parts: seq<string>): nat {
    if parts == [] then 0
    else Names(parts[..|parts| - 1]) + if parts[|parts| - 1] in {"", ".", ".."} then 0 else 1
  }

  function Ups(parts: seq<string>): nat {
    if parts == [] then 0
    else Ups(parts[..|parts| - 1]) + if parts[|parts| - 1] == ".." then 1 else 0
  }

  /** At no point has the path gone up more often than down. */
  ghost predicate NeverClimbs(parts: seq<string>) {
    forall k :: 0 <= k <= |parts| ==> Ups(parts[..k]) <= Names(parts[..k])
  }

  ghost predicate AllPlain(parts: seq<string>) {
    forall i :: 0 <= i < |parts| ==> Plain(parts[i])
  }

  lemma {:induction false} OneMoreResolved(rooted: bool, parts: seq<string>)
    requires parts != []
    ensures Resolve(rooted, [], parts) ==
            Resolve(rooted, Resolve(rooted, [], parts[..|parts| - 1]), [parts[|parts| - 1]])
  {
    assert parts == parts[..|parts| - 1] + [parts[|parts| - 1]];
    ResolveConcat(rooted, [], parts[..|parts| - 1], [parts[|parts| - 1]]);
  }

  /** As long as a path has not climbed, it keeps a name for each step down that has not been undone. */
  lemma {:induction false} KeptWithoutClimbing(parts: seq<string>)
    requires NoSlashes(parts) && NeverClimbs(parts)
    ensures var kept := Resolve(false, [], parts); AllPlain(kept) && |kept| == Names(parts) - Ups(parts)
  {
    if parts == [] {
    } else {
      var front, last := parts[..|parts| - 1], parts[|parts| - 1];
      forall k | 0 <= k <= |front|
        ensures Ups(front[..k]) <= Names(front[..k])
      {
        assert front[..k] == parts[..k];
      }
      KeptWithoutClimbing(front);
      OneMoreResolved(false, parts);
      assert parts[..|parts|] == parts;
      assert [last][1..] == [];
    }
  }

  /** A path that has once climbed keeps a ".." in front. */
  lemma {:induction false} KeptAfterClimbing(parts: seq<string>)
    requires NoSlashes(parts) && !NeverClimbs(parts)
    ensures var kept := Resolve(false, [], parts); kept != [] && kept[0] == ".."
  {
    assert parts[..0] == [];
    if parts != [] {
      var front, last := parts[..|parts| - 1], parts[|parts| - 1];
      OneMoreResolved(false, parts);
      assert [last][1..] == [];
      if NeverClimbs(front) {
        KeptWithoutClimbing(front);
        ClimbsLast(parts);
      } else {
        KeptAfterClimbing(front);
      }
    }
  }

  lemma ClimbsLast(parts: seq<string>)
    requires parts != [] && NeverClimbs(parts[..|parts| - 1]) && !NeverClimbs(parts)
    ensures parts[|parts| - 1] == ".." && Ups(parts[..|parts| - 1]) == Names(parts[..|parts| - 1])
  {
    var front := parts[..|parts| - 1];
    assert forall k :: 0 <= k < |parts| ==> front[..k] == parts[..k];
    assert parts[..|parts|] == parts && front[..|front|] == front;
  }

  /**
   * A relative path is cleaned to one that starts with ".." exactly if somewhere along it there have been more ".."
   * than names; otherwise only names are left.
   */
  lemma ClimbsIff(path: string)
    requires !Rooted(path)
    ensures NeverClimbs(Split(path)) <==> Split(Clean(path))[0] != ".."
    ensures NeverClimbs(Split(path)) ==> Clean(path) == "." || AllPlain(Split(Clean(path)))
  {
    var parts, kept := Split(path), Resolve(false, [], Split(path));
    SplitHasNoSlashes(path);
    SplitOne(".");
    ResolveResolves(false, [], parts);
    if kept != [] {
      SplitOfJoin(kept);
    }
    if NeverClimbs(parts) {
      KeptWithoutClimbing(parts);
    } else {
      KeptAfterClimbing(parts);
    }
  }

  /** An accepted path is relative, and at no point along it, as given, has it gone up more often than down. */
  lemma {:induction false} AcceptedPathNeverClimbs(currentVersion: int, path: string, dbName: string)
    requires ValidateBackupPath(currentVersion, path, dbName).Ok?
    ensures !Rooted(path)
    ensures forall k :: 0 <= k <= |Split(path)| ==> Ups(Split(path)[..k]) <= Names(Split(path)[..k])
  {
    PgPathIsResolved(path);
    ClimbsIff(path);
  }

  // ---------- Versions ----------

  ghost predicate AllDigits(s: string) {
    forall i :: 0 <= i < |s| ==> '0' <= s[i] <= '9'
  }

  lemma {:induction false} ParsesDigitsOnly(s: string)
    ensures ParseDigits(s).Number? <==> AllDigits(s)
    ensures ParseDigits(s).Number? ==> ParseDigits(s).value >= 0
  {
    if s == "" {
    } else {
      var front := s[..|s| - 1];
      ParsesDigitsOnly(front);
      assert AllDigits(s) <==> AllDigits(front) && IsDigit(s[|s| - 1]);
    }
  }

  lemma {:induction false} LeadingZero(s: string)
    ensures ParseDigits("0" + s) == ParseDigits(s)
  {
    var longer := "0" + s;
    if s == "" {
      assert longer[..0] == "" && longer[0] == '0';
    } else {
      LeadingZero(s[..|s| - 1]);
      assert longer[..|longer| - 1] == "0" + s[..|s| - 1] && longer[|longer| - 1] == s[|s| - 1];
    }
  }

  /** Digits without a leading zero are what their number is printed as. */
  lemma {:induction false} DigitsArePrinted(s: string)
    requires s != "" && AllDigits(s) && (s[0] != '0' || |s| == 1)
    ensures ParseDigits(s).Number? && ParseDigits(s).value >= 0 && PrintNat(ParseDigits(s).value) == s
    ensures s[0] != '0' ==> ParseDigits(s).value > 0
  {
    var front, last := s[..|s| - 1], s[|s| - 1];
    ParsesDigitsOnly(s);
    ParsesDigitsOnly(front);
    var d := last as int - '0' as int;
    assert Digit(d) == last;
    if front == "" {
      assert s == [last];
    } else {
      DigitsArePrinted(front);
      assert s == front + [last];
      assert ParseDigits(s).value == 10 * ParseDigits(front).value + d;
    }
  }

  /** The number that digits stand for. */
  ghost function Reading(digits: string): nat
    requires AllDigits(digits)
  {
    ParsesDigitsOnly(digits);
    ParseDigits(digits).value
  }

  /** A version is an optional sign and digits, at least one, of a number that fits 64 bits; a plus changes nothing. */
  lemma VersionIsReadIff(s: string)
    ensures var signed := s != "" && (s[0] == '+' || s[0] == '-');
      var digits := if signed then s[1..] else s;
      && (Atoi(s).Number? <==>
            && digits != "" && AllDigits(digits)
            && Reading(digits) < 0x8000_0000_0000_0000 + if signed && s[0] == '-' then 1 else 0)
      && (Atoi(s).Number? ==>
            Atoi(s).value == if signed && s[0] == '-' then 0 - Reading(digits) else Reading(digits))
  {
    ParsesDigitsOnly(s);
    if s != "" {
      ParsesDigitsOnly(s[1..]);
    }
  }

  // ---------- The whole check ----------

  /** A path that cleans to pg-<v>/<db>/...: what each part of it decides, and in which order. */
  lemma {:induction false} CheckDecides(currentVersion: int, path: string, dbName: string,
                                        v: string, db: string, rest: seq<string>)
    requires AllPlain(["pg-" + v, db] + rest) && Clean(path) == Join(["pg-" + v, db] + rest)
    ensures ValidateBackupPath(currentVersion, path, dbName) ==
            if Atoi(v).Malformed? then Err(IllegalVersion)
            else if db != dbName then Err(NameMismatch)
            else if currentVersion < ToInt32(Atoi(v).value) then Err(HigherVersion)
            else Ok(ToInt32(Atoi(v).value))
  {
    var parts := ["pg-" + v, db] + rest;
    SplitOfJoin(parts);
    assert ("pg-" + v)[3..] == v;
    assert "pg-" <= parts[0] && parts[0] <= Join(parts);
  }

  /** Every path is of that form, or one component with the prefix, or refused for what it cleans to. */
  lemma {:induction false} EveryPathIsDecided(currentVersion: int, path: string, dbName: string)
    returns (v: string, db: string, rest: seq<string>)
    ensures var r := ValidateBackupPath(currentVersion, path, dbName);
      if !("pg-" <= Clean(path)) then r == Err(IllegalPath)
      else if '/' !in Clean(path) then r == Panics
      else AllPlain(["pg-" + v, db] + rest) && Clean(path) == Join(["pg-" + v, db] + rest)
  {
    v, db, rest := "", "", [];
    if "pg-" <= Clean(path) {
      PgPathIsResolved(path);
      CleanRelative(path);
      PanicsIff(currentVersion, path, dbName);
      if '/' in Clean(path) {
        v, db, rest := TakeApart(Split(Clean(path)), Clean(path));
      }
    }
  }

  lemma TakeApart(parts: seq<string>, path: string) returns (v: string, db: string, rest: seq<string>)
    requires parts == Split(path) && Join(parts) == path && "pg-" <= parts[0] && '/' in path
    ensures parts == ["pg-" + v, db] + rest
  {
    if |parts| == 1 {
      SplitHasNoSlashes(path);
    }
    v, db, rest := parts[0][3..], parts[1], parts[2..];
    assert "pg-" + v == parts[0];
  }
}
