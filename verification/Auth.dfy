/** What a caller may do, pkg/auth/auth_info.go, and how several auth methods are combined, pkg/auth/auth.go. */
module Auth {
  import opened Sequences
  import opened Wrappers

  /** One side of an info: its scopes or its resources. */
  datatype Grant = Grant(enabled: bool, entries: seq<string>)

  datatype Info = Info(subject: string, audiences: seq<string>, scopes: Grant, resources: Grant, uuid: string)

  datatype Error = SubjectMismatch | NoMethodSucceeded | MethodFailed(reason: string)

  /** The text before the first colon. */
  function Category(x: string): string {
    if x == "" || x[0] == ':' then "" else [x[0]] + Category(x[1..])
  }

  predicate Authorises(g: Grant, x: string) {
    g.enabled && (Category(x) in g.entries || x in g.entries)
  }

  /** What a grant does not authorise of a list. */
  function Missing(g: Grant, xs: seq<string>): seq<string> {
    Filter(x => !Authorises(g, x), xs)
  }

  /** removeScopes and removeResources: one first occurrence for each entry of the list to remove. */
  function RemoveEach(xs: seq<string>, gone: seq<string>): seq<string>
    decreases |gone|
  {
    if gone == [] then xs else RemoveEach(RemoveFirst(xs, gone[0]), gone[1..])
  }

  /** One side after a merge with the same side of another info. */
  function Minimized(g: Grant, other: Grant): Grant {
    if other.enabled then g.(entries := RemoveEach(g.entries, Missing(other, g.entries))) else g
  }

  function Merged(a: Info, b: Info): Result<Info, Error> {
    if a.subject != b.subject then Err(SubjectMismatch)
    else Ok(a.(scopes := Minimized(a.scopes, b.scopes), resources := Minimized(a.resources, b.resources)))
  }

  // ---------- Removing one by one is filtering ----------

  lemma {:induction false} RemoveEachAfter(x: string, xs: seq<string>, gone: seq<string>)
    requires x !in gone
    ensures RemoveEach([x] + xs, gone) == [x] + RemoveEach(xs, gone)
    decreases |gone|
  {
    if gone == [] {
    } else {
      assert x != gone[0] && ([x] + xs)[1..] == xs;
      RemoveEachAfter(x, RemoveFirst(xs, gone[0]), gone[1..]);
    }
  }

  /** Removing the failing entries one first occurrence at a time leaves the passing ones, duplicates included. */
  lemma {:induction false} RemoveEachIsFilter(drop: string -> bool, keep: string -> bool, xs: seq<string>)
    requires forall x :: keep(x) <==> !drop(x)
    ensures RemoveEach(xs, Filter(drop, xs)) == Filter(keep, xs)
  {
    if xs == [] {
    } else {
      var gone := Filter(drop, xs[1..]);
      RemoveEachIsFilter(drop, keep, xs[1..]);
      if drop(xs[0]) {
        assert ([xs[0]] + gone)[1..] == gone;
      } else {
        FilterMembers(drop, xs[1..]);
        RemoveEachAfter(xs[0], xs[1..], gone);
        assert xs == [xs[0]] + xs[1..];
      }
    }
  }

  lemma MinimizedIsFilter(g: Grant, other: Grant)
    requires other.enabled
    ensures Minimized(g, other).entries == Filter(x => Authorises(other, x), g.entries)
    ensures forall x :: x in Minimized(g, other).entries <==> x in g.entries && Authorises(other, x)
  {
    RemoveEachIsFilter(x => !Authorises(other, x), x => Authorises(other, x), g.entries);
    FilterMembers(x => Authorises(other, x), g.entries);
  }

  // ---------- What a merge authorises ----------

  lemma {:induction false} CategoryOfCategory(x: string)
    ensures Category(Category(x)) == Category(x)
  {
    if x == "" || x[0] == ':' {
    } else {
      CategoryOfCategory(x[1..]);
      assert ([x[0]] + Category(x[1..]))[1..] == Category(x[1..]);
    }
  }

  /**
   * With both sides enabled x stays authorised exactly when both hold its category, or the first holds x itself
   * and the other authorises it.
   */
  lemma MergeAuthorises(g: Grant, other: Grant, x: string)
    requires g.enabled && other.enabled
    ensures Authorises(Minimized(g, other), x) <==>
              || (Category(x) in g.entries && Category(x) in other.entries)
              || (x in g.entries && Authorises(other, x))
  {
    MinimizedIsFilter(g, other);
    CategoryOfCategory(x);
  }

  /** A disabled side restricts nothing when it is the other one, and authorises nothing when it is the first. */
  lemma MergeWithDisabled(g: Grant, other: Grant, x: string)
    ensures !other.enabled ==> Minimized(g, other) == g
    ensures !g.enabled ==> !Authorises(Minimized(g, other), x)
  {
  }

  /** A merge never adds: what it authorises the first authorises, and the other too if it is enabled. */
  lemma MergeIsSound(g: Grant, other: Grant, x: string)
    requires Authorises(Minimized(g, other), x)
    ensures Authorises(g, x) && (other.enabled ==> Authorises(other, x))
  {
    if other.enabled {
      MergeAuthorises(g, other, x);
    }
  }

  /** Of what both authorise, a merge loses exactly what the first holds by category only and the other by name only. */
  lemma MergeLosesExactly(g: Grant, other: Grant, x: string)
    requires Authorises(g, x) && Authorises(other, x)
    ensures !Authorises(Minimized(g, other), x) <==> x !in g.entries && Category(x) !in other.entries
  {
    MergeAuthorises(g, other, x);
  }

  /** So the order of the methods matters: merged one way "db:read" is kept, merged the other way it is lost. */
  lemma MergeDependsOnOrder()
    ensures var byName, byCategory := Grant(true, ["db:read"]), Grant(true, ["db"]);
            && Authorises(Minimized(byName, byCategory), "db:read")
            && !Authorises(Minimized(byCategory, byName), "db:read")
  {
    var x := "db:read";
    var byName, byCategory := Grant(true, [x]), Grant(true, ["db"]);
    assert x[1..] == "b:read" && "b:read"[1..] == ":read";
    assert Category(":read") == "" && Category("b:read") == "b" && Category(x) == "db";
    assert |x| != |"db"|;
    assert x in byName.entries && "db" in byCategory.entries;
    MergeAuthorises(byName, byCategory, x);
    MergeAuthorises(byCategory, byName, x);
  }

  // ---------- Several methods ----------

  /** An auth method: whether it is enabled and what its Parse gives for the request at hand. */
  datatype Method = Method(enabled: bool, parsed: Result<Info, Error>)

  /** Auth.Parse from a given accumulator on. */
  function ParseFrom(acc: Result<Info, Error>, methods: seq<Method>): Result<Info, Error>
    requires acc.Ok? || acc.error == NoMethodSucceeded
    decreases |methods|
  {
    if methods == [] then acc
    else
      var m := methods[0];
      if !m.enabled then ParseFrom(acc, methods[1..])
      else if m.parsed.Err? then m.parsed
      else if acc.Err? then ParseFrom(m.parsed, methods[1..])
      else if Merged(acc.value, m.parsed.value).Err? then Merged(acc.value, m.parsed.value)
      else ParseFrom(Merged(acc.value, m.parsed.value), methods[1..])
  }

  function ParseAll(methods: seq<Method>): Result<Info, Error> {
    ParseFrom(Err(NoMethodSucceeded), methods)
  }

  /** Every enabled method gave an info for the given subject. */
  ghost predicate AllAgree(subject: string, methods: seq<Method>) {
    forall m :: m in methods && m.enabled ==> m.parsed.Ok? && m.parsed.value.subject == subject
  }

  datatype Side = Scopes | Resources

  function GrantOf(info: Info, side: Side): Grant {
    if side.Scopes? then info.scopes else info.resources
  }

  /** Every enabled method whose side is enabled passes the test. */
  ghost predicate AllPass(methods: seq<Method>, side: Side, test: Grant -> bool) {
    forall m :: m in methods && m.enabled && m.parsed.Ok? && GrantOf(m.parsed.value, side).enabled
      ==> test(GrantOf(m.parsed.value, side))
  }

  /** Merging the rest into an info keeps an entry exactly when every enabled grant of the rest authorises it. */
  lemma {:induction false} ParseKeepsEntries(info: Info, methods: seq<Method>, side: Side, x: string)
    ensures ParseFrom(Ok(info), methods).Ok? <==> AllAgree(info.subject, methods)
    ensures var r := ParseFrom(Ok(info), methods);
            r.Ok? ==>
              && r.value.subject == info.subject && r.value.audiences == info.audiences && r.value.uuid == info.uuid
              && GrantOf(r.value, side).enabled == GrantOf(info, side).enabled
              && (x in GrantOf(r.value, side).entries <==>
                    x in GrantOf(info, side).entries && AllPass(methods, side, g => Authorises(g, x)))
    decreases |methods|
  {
    if methods == [] {
    } else {
      var m := methods[0];
      var rest := methods[1..];
      assert methods == [m] + rest;
      if !m.enabled {
        ParseKeepsEntries(info, rest, side, x);
      } else if m.parsed.Ok? && Merged(info, m.parsed.value).Ok? {
        var next := Merged(info, m.parsed.value).value;
        ParseKeepsEntries(next, rest, side, x);
        var other := GrantOf(m.parsed.value, side);
        if other.enabled {
          MinimizedIsFilter(GrantOf(info, side), other);
        }
      } else {
        assert !AllAgree(info.subject, methods);
      }
    }
  }

  /** The first enabled method decides subject, audiences and id; the rest only narrow it. */
  ghost predicate FirstEnabled(methods: seq<Method>, k: nat) {
    k < |methods| && methods[k].enabled && forall j :: 0 <= j < k ==> !methods[j].enabled
  }

  lemma {:induction false} ParseSkipsDisabled(methods: seq<Method>, k: nat)
    requires k <= |methods| && forall j :: 0 <= j < k ==> !methods[j].enabled
    ensures ParseAll(methods) == ParseAll(methods[k..])
    decreases k
  {
    if k > 0 {
      ParseSkipsDisabled(methods[1..], k - 1);
      assert methods[1..][k - 1..] == methods[k..];
    } else {
      assert methods[0..] == methods;
    }
  }

  /** Parse fails exactly when no method is enabled, an enabled one fails, or two enabled ones differ in subject. */
  lemma ParseSucceedsIff(methods: seq<Method>)
    ensures ParseAll(methods).Ok? <==> exists k: nat ::
              FirstEnabled(methods, k) && methods[k].parsed.Ok? && AllAgree(methods[k].parsed.value.subject, methods)
  {
    if k: nat :| FirstEnabled(methods, k) {
      ParseSkipsDisabled(methods, k);
      assert methods == methods[..k] + [methods[k]] + methods[k + 1..] && methods[k..][1..] == methods[k + 1..];
      if methods[k].parsed.Ok? {
        ParseKeepsEntries(methods[k].parsed.value, methods[k + 1..], Scopes, "");
      }
    } else {
      var n := FirstOrNone(methods);
      ParseSkipsDisabled(methods, |methods|);
    }
  }

  lemma {:induction false} FirstOrNone(methods: seq<Method>) returns (k: nat)
    ensures FirstEnabled(methods, k) || (k == |methods| && forall j :: 0 <= j < |methods| ==> !methods[j].enabled)
  {
    k := 0;
    while k < |methods| && !methods[k].enabled
      invariant k <= |methods| && forall j :: 0 <= j < k ==> !methods[j].enabled
    {
      k := k + 1;
    }
  }

  /** The method is the first enabled one and fails, or gives another subject than the first enabled one. */
  ghost predicate StopsParse(methods: seq<Method>, i: nat) {
    && i < |methods| && methods[i].enabled
    && (methods[i].parsed.Err?
        || exists k: nat :: k < i && FirstEnabled(methods, k) && methods[k].parsed.Ok?
                            && methods[k].parsed.value.subject != methods[i].parsed.value.subject)
  }

  lemma {:induction false} ParseFromStops(info: Info, methods: seq<Method>, i: nat)
    requires i < |methods| && methods[i].enabled && !Continues(info, methods[i])
    requires forall j :: 0 <= j < i && methods[j].enabled ==> Continues(info, methods[j])
    ensures ParseFrom(Ok(info), methods) == if methods[i].parsed.Err? then methods[i].parsed else Err(SubjectMismatch)
    decreases i
  {
    if i == 0 {
    } else {
      var m := methods[0];
      assert m.enabled ==> Continues(info, m);
      ParseFromStops(if m.enabled then Merged(info, m.parsed.value).value else info, methods[1..], i - 1);
    }
  }

  predicate Continues(info: Info, m: Method) {
    m.parsed.Ok? && m.parsed.value.subject == info.subject
  }

  /** Which error Parse gives: that of the first method that stops it, or, with none enabled, that none succeeded. */
  lemma ParseFailsWith(methods: seq<Method>, i: nat)
    ensures (forall j :: 0 <= j < |methods| ==> !methods[j].enabled) ==> ParseAll(methods) == Err(NoMethodSucceeded)
    ensures StopsParse(methods, i) && (forall j: nat :: j < i ==> !StopsParse(methods, j)) ==>
              ParseAll(methods) == if methods[i].parsed.Err? then methods[i].parsed else Err(SubjectMismatch)
  {
    if forall j :: 0 <= j < |methods| ==> !methods[j].enabled {
      ParseSkipsDisabled(methods, |methods|);
    } else if StopsParse(methods, i) && forall j: nat :: j < i ==> !StopsParse(methods, j) {
      var k := FirstOrNone(methods);
      assert k <= i;
      ParseSkipsDisabled(methods, k);
      if k < i {
        var info := FirstGives(methods, k, i);
        assert methods[k..][1..] == methods[k + 1..];
        ParseFromStops(info, methods[k + 1..], i - k - 1);
      }
    }
  }

  /** What the first enabled method gives, all others before i continue. */
  lemma FirstGives(methods: seq<Method>, k: nat, i: nat) returns (info: Info)
    requires FirstEnabled(methods, k) && k < i && StopsParse(methods, i)
    requires forall j: nat :: j < i ==> !StopsParse(methods, j)
    ensures methods[k].parsed == Ok(info) && !Continues(info, methods[i])
    ensures forall j :: k < j < i && methods[j].enabled ==> Continues(info, methods[j])
  {
    assert !StopsParse(methods, k);
    info := methods[k].parsed.value;
    forall j: nat | k < j < i && methods[j].enabled
      ensures Continues(info, methods[j])
    {
      assert !StopsParse(methods, j);
    }
  }

  /**
   * The combined info authorises x exactly when the first enabled method's side is enabled and either that method
   * holds x's category and so does every other enabled grant, or it holds x and every other enabled grant authorises x.
   */
  lemma ParseAuthorises(methods: seq<Method>, k: nat, side: Side, x: string)
    requires FirstEnabled(methods, k) && ParseAll(methods).Ok?
    ensures methods[k].parsed.Ok?
    ensures var first := GrantOf(methods[k].parsed.value, side);
            var rest := methods[k + 1..];
            Authorises(GrantOf(ParseAll(methods).value, side), x) <==>
              first.enabled &&
              (|| (Category(x) in first.entries && AllPass(rest, side, g => Authorises(g, Category(x))))
               || (x in first.entries && AllPass(rest, side, g => Authorises(g, x))))
  {
    ParseSkipsDisabled(methods, k);
    assert methods[k..][1..] == methods[k + 1..];
    ParseKeepsEntries(methods[k].parsed.value, methods[k + 1..], side, x);
    ParseKeepsEntries(methods[k].parsed.value, methods[k + 1..], side, Category(x));
  }

  /** Whatever the combined info authorises, every enabled method with that side enabled authorises by itself. */
  lemma ParseIsSound(methods: seq<Method>, side: Side, x: string)
    requires ParseAll(methods).Ok? && Authorises(GrantOf(ParseAll(methods).value, side), x)
    ensures AllPass(methods, side, g => Authorises(g, x))
  {
    ParseSucceedsIff(methods);
    var k: nat :| FirstEnabled(methods, k);
    ParseAuthorises(methods, k, side, x);
    CategoryOfCategory(x);
    assert methods == methods[..k] + [methods[k]] + methods[k + 1..];
  }

  // ---------- The code: loops over lists edited in place ----------

  /** The entry is x, or x with the first colon and all behind it cut off. */
  predicate Covers(e: string, x: string) {
    e == x || (e < x && ':' !in e && x[|e|] == ':')
  }

  lemma {:induction false} CategoryIsFront(x: string)
    ensures forall e :: Covers(e, x) <==> e == x || e == Category(x)
  {
    if x == "" || x[0] == ':' {
    } else {
      CategoryIsFront(x[1..]);
      assert x == [x[0]] + x[1..];
      forall e | e != "" && e[0] == x[0] && e != x
        ensures Covers(e, x) <==> Covers(e[1..], x[1..])
        ensures e == Category(x) <==> e[1..] == Category(x[1..])
      {
        assert e == [e[0]] + e[1..];
      }
    }
  }

  /** ValidateScope and ValidateResource differ only in the fields they read. */
  method Validate(g: Grant, x: string) returns (ok: bool)
    ensures ok == Authorises(g, x)
    ensures ok <==> g.enabled && exists e :: e in g.entries && Covers(e, x)
  {
    CategoryIsFront(x);
    if !g.enabled {
      return false;
    }
    var category := SplitCategory(x);
    for i := 0 to |g.entries|
      invariant category !in g.entries[..i] && x !in g.entries[..i]
    {
      if g.entries[i] == category {
        return true;
      }
      if g.entries[i] == x {
        return true;
      }
    }
    assert g.entries[..|g.entries|] == g.entries;
    return false;
  }

  method SplitCategory(x: string) returns (category: string)
    ensures category == Category(x)
    ensures ':' !in category && category <= x && (category == x || x[|category|] == ':')
  {
    var n := 0;
    while n < |x| && x[n] != ':'
      invariant n <= |x| && ':' !in x[..n]
      invariant Category(x) == x[..n] + Category(x[n..])
    {
      assert x[n..][1..] == x[n + 1..] && x[..n + 1] == x[..n] + [x[n]];
      n := n + 1;
    }
    category := x[..n];
  }

  /** ValidateScopes and ValidateResources. */
  method ValidateAll(g: Grant, xs: seq<string>) returns (missing: seq<string>, ok: bool)
    ensures missing == Missing(g, xs)
    ensures ok <==> g.enabled && forall x :: x in xs ==> Authorises(g, x)
  {
    if !g.enabled {
      MissingAll(g, xs);
      return xs, false;
    }
    missing := [];
    for i := 0 to |xs|
      invariant missing == Missing(g, xs[..i])
    {
      assert xs[..i + 1] == xs[..i] + [xs[i]];
      FilterAppend(x => !Authorises(g, x), xs[..i], [xs[i]]);
      var authorised := Validate(g, xs[i]);
      if !authorised {
        missing := missing + [xs[i]];
      }
    }
    assert xs[..|xs|] == xs;
    FilterMembers(x => !Authorises(g, x), xs);
    assert missing == [] || missing[0] in missing;
    return missing, |missing| == 0;
  }

  lemma {:induction false} MissingAll(g: Grant, xs: seq<string>)
    requires !g.enabled
    ensures Missing(g, xs) == xs
  {
    if xs == [] {
    } else {
      MissingAll(g, xs[1..]);
    }
  }

  lemma {:induction false} NothingMissing(g: Grant, xs: seq<string>)
    requires forall x :: x in xs ==> Authorises(g, x)
    ensures Missing(g, xs) == []
  {
    if xs == [] {
    } else {
      NothingMissing(g, xs[1..]);
    }
  }

  class AuthInfo {
    var subject: string
    var audiences: seq<string>
    var scopeEnabled: bool
    var scopes: seq<string>
    var resourceEnabled: bool
    var resources: seq<string>
    var uuid: string

    function Value(): Info
      reads this
    {
      Info(subject, audiences, Grant(scopeEnabled, scopes), Grant(resourceEnabled, resources), uuid)
    }

    constructor (info: Info)
      ensures Value() == info
    {
      subject, audiences, uuid := info.subject, info.audiences, info.uuid;
      scopeEnabled, scopes := info.scopes.enabled, info.scopes.entries;
      resourceEnabled, resources := info.resources.enabled, info.resources.entries;
    }

    method RemoveScope(scope: string)
      modifies this`scopes
      ensures scopes == RemoveFirst(old(scopes), scope)
    {
      for i := 0 to |scopes|
        invariant scopes == old(scopes) && scope !in scopes[..i]
      {
        if scopes[i] == scope {
          RemoveFirstAt(scopes, i);
          scopes := scopes[..i] + scopes[i + 1..];
          return;
        }
      }
      assert scopes[..|scopes|] == scopes;
      RemoveFirstMissing(scopes, scope);
    }

    method RemoveScopes(gone: seq<string>)
      modifies this`scopes
      ensures scopes == RemoveEach(old(scopes), gone)
    {
      assert gone[0..] == gone;
      for i := 0 to |gone|
        invariant RemoveEach(scopes, gone[i..]) == RemoveEach(old(scopes), gone)
      {
        assert gone[i..][1..] == gone[i + 1..];
        RemoveScope(gone[i]);
      }
    }

    method RemoveResource(resource: string)
      modifies this`resources
      ensures resources == RemoveFirst(old(resources), resource)
    {
      for i := 0 to |resources|
        invariant resources == old(resources) && resource !in resources[..i]
      {
        if resources[i] == resource {
          RemoveFirstAt(resources, i);
          resources := resources[..i] + resources[i + 1..];
          return;
        }
      }
      assert resources[..|resources|] == resources;
      RemoveFirstMissing(resources, resource);
    }

    method RemoveResources(gone: seq<string>)
      modifies this`resources
      ensures resources == RemoveEach(old(resources), gone)
    {
      assert gone[0..] == gone;
      for i := 0 to |gone|
        invariant RemoveEach(resources, gone[i..]) == RemoveEach(old(resources), gone)
      {
        assert gone[i..][1..] == gone[i + 1..];
        RemoveResource(gone[i]);
      }
    }

    method MinimizeScopes(other: AuthInfo)
      requires other.scopeEnabled
      modifies this`scopes
      ensures Grant(scopeEnabled, scopes) == Minimized(Grant(scopeEnabled, old(scopes)), old(other.Value()).scopes)
    {
      var missing, ok := ValidateAll(Grant(other.scopeEnabled, other.scopes), scopes);
      if !ok {
        RemoveScopes(missing);
      } else {
        NothingMissing(other.Value().scopes, scopes);
      }
    }

    method MinimizeResources(other: AuthInfo)
      requires other.resourceEnabled
      modifies this`resources
      ensures Grant(resourceEnabled, resources)
              == Minimized(Grant(resourceEnabled, old(resources)), old(other.Value()).resources)
    {
      var missing, ok := ValidateAll(Grant(other.resourceEnabled, other.resources), resources);
      if !ok {
        RemoveResources(missing);
      } else {
        NothingMissing(other.Value().resources, resources);
      }
    }

    method Merge(other: AuthInfo) returns (r: Result<Info, Error>)
      modifies this`scopes, this`resources
      ensures r == Merged(old(Value()), old(other.Value()))
      ensures Value() == if r.Ok? then r.value else old(Value())
    {
      if subject != other.subject {
        return Err(SubjectMismatch);
      }
      if other.scopeEnabled {
        MinimizeScopes(other);
      }
      if other.resourceEnabled {
        MinimizeResources(other);
      }
      return Ok(Value());
    }
  }

  class AuthMethods {
    var authes: seq<Method>

    constructor ()
      ensures authes == []
    {
      authes := [];
    }

    method WithAuth(auth: Method)
      modifies this
      ensures authes == old(authes) + [auth]
    {
      authes := authes + [auth];
    }

    /** The accumulator is the first info itself, narrowed in place. */
    method Parse() returns (info: AuthInfo?, error: Error)
      ensures info != null ==> fresh(info) && ParseAll(authes) == Ok(info.Value())
      ensures info == null ==> ParseAll(authes) == Err(error)
    {
      info := null;
      error := NoMethodSucceeded;
      assert authes[0..] == authes;
      for i := 0 to |authes|
        invariant error == NoMethodSucceeded && (info != null ==> fresh(info))
        invariant ParseAll(authes) ==
          ParseFrom(if info == null then Err(NoMethodSucceeded) else Ok(info.Value()), authes[i..])
      {
        assert authes[i..][1..] == authes[i + 1..];
        var auth := authes[i];
        if !auth.enabled {
          continue;
        }
        if auth.parsed.Err? {
          return null, auth.parsed.error;
        }
        var authInfo := new AuthInfo(auth.parsed.value);
        if info == null {
          info := authInfo;
          continue;
        }
        var merged := info.Merge(authInfo);
        if merged.Err? {
          return null, merged.error;
        }
      }
    }
  }
}
