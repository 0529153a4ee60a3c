/**
 Write scopes of subagent tasks: lists of path prefixes. Scopes are compared pairwise on their
 spelling; the results say what that comparison means for the paths the tasks may write.
 */
module WriteScope {

  // ---------- Normalisation ----------

  /** The characters Python's `str.strip()` removes. */
  predicate IsSpace(c: char) {
    || '\t' <= c <= '\r' || '\U{1c}' <= c <= ' ' || c == '\U{85}' || c == '\U{a0}' || c == '\U{1680}'
    || '\U{2000}' <= c <= '\U{200a}' || c == '\U{2028}' || c == '\U{2029}' || c == '\U{202f}'
    || c == '\U{205f}' || c == '\U{3000}'
  }

  predicate IsSlash(c: char) {
    c == '/'
  }

  function StripLeft(s: string, drop: char -> bool): string {
    if s != [] && drop(s[0]) then StripLeft(s[1..], drop) else s
  }

  function StripRight(s: string, drop: char -> bool): string {
    if s != [] && drop(s[|s| - 1]) then StripRight(s[..|s| - 1], drop) else s
  }

  function Strip(s: string, drop: char -> bool): string {
    StripRight(StripLeft(s, drop), drop)
  }

  function ToSlashes(s: string): string {
    if s == [] then [] else [if s[0] == '\\' then '/' else s[0]] + ToSlashes(s[1..])
  }

  predicate StartsWithDotSlash(s: string) {
    |s| >= 2 && s[0] == '.' && s[1] == '/'
  }

  function DropDotSlashes(s: string): string {
    if StartsWithDotSlash(s) then DropDotSlashes(s[2..]) else s
  }

  function Trimmed(path: string): string {
    ToSlashes(Strip(path, IsSpace))
  }

  function Normalized(path: string): string {
    Strip(DropDotSlashes(Trimmed(path)), IsSlash)
  }

  method NormalizeSubagentScopePath(path: string) returns (normalized: string)
    ensures normalized == Normalized(path)
  {
    normalized := Trimmed(path);
    while StartsWithDotSlash(normalized)
      invariant DropDotSlashes(normalized) == DropDotSlashes(Trimmed(path))
      decreases |normalized|
    {
      normalized := normalized[2..];
    }
    normalized := Strip(normalized, IsSlash);
  }

  /** The scope list of raw paths: normalised, without "", "." and repeats. */
  function ScopePaths(raw: seq<string>): seq<string> {
    if raw == [] then []
    else
      var before := ScopePaths(raw[..|raw| - 1]);
      var path := Normalized(raw[|raw| - 1]);
      if path != "" && path != "." && path !in before then before + [path] else before
  }

  lemma ScopePathsOfPrefix(raw: seq<string>, i: nat)
    requires i < |raw|
    ensures ScopePaths(raw[..i + 1]) ==
            (var before := ScopePaths(raw[..i]);
             var path := Normalized(raw[i]);
             if path != "" && path != "." && path !in before then before + [path] else before)
  {
    assert raw[..i + 1][..i] == raw[..i];
  }

  method NormalizeWriteScopePaths(raw: seq<string>) returns (paths: seq<string>)
    ensures paths == ScopePaths(raw)
  {
    paths := [];
    for i := 0 to |raw|
      invariant paths == ScopePaths(raw[..i])
    {
      ScopePathsOfPrefix(raw, i);
      var path := NormalizeSubagentScopePath(raw[i]);
      if path != "" && path != "." && path !in paths {
        paths := paths + [path];
      }
    }
    assert raw[..|raw|] == raw;
  }

  lemma {:induction false} ScopePathsAreNormalizedRawPaths(raw: seq<string>, path: string)
    ensures path in ScopePaths(raw) <==> path != "" && path != "." && exists p :: p in raw && Normalized(p) == path
  {
    if raw != [] {
      var front := raw[..|raw| - 1];
      ScopePathsAreNormalizedRawPaths(front, path);
      assert forall p :: p in raw <==> p in front || p == raw[|raw| - 1];
    }
  }

  // Stripping: what it leaves, and when it leaves everything.

  /** Nothing to strip at either end. */
  predicate Bare(s: string, drop: char -> bool) {
    s == [] || (!drop(s[0]) && !drop(s[|s| - 1]))
  }

  lemma {:induction false} StripLeftLeaves(s: string, drop: char -> bool)
    ensures var r := StripLeft(s, drop); |r| <= |s| && r == s[|s| - |r|..] && (r == [] || !drop(r[0]))
  {
    if s != [] && drop(s[0]) { StripLeftLeaves(s[1..], drop); }
  }

  lemma {:induction false} StripRightLeaves(s: string, drop: char -> bool)
    ensures var r := StripRight(s, drop); r <= s && (r == [] || !drop(r[|r| - 1]))
  {
    if s != [] && drop(s[|s| - 1]) { StripRightLeaves(s[..|s| - 1], drop); }
  }

  lemma StripLeaves(s: string, drop: char -> bool)
    ensures var r := Strip(s, drop); |r| <= |s| && Bare(r, drop)
    ensures forall c :: c in Strip(s, drop) ==> c in s
  {
    var left := StripLeft(s, drop);
    StripLeftLeaves(s, drop);
    StripRightLeaves(left, drop);
    var r := StripRight(left, drop);
    if r != [] { assert r[0] == left[0]; }
  }

  lemma StripIsIdentityIff(s: string, drop: char -> bool)
    ensures Strip(s, drop) == s <==> Bare(s, drop)
  {
    StripLeaves(s, drop);
  }

  lemma {:induction false} SlashesLeave(s: string)
    ensures |ToSlashes(s)| == |s| && '\\' !in ToSlashes(s)
    ensures '\\' !in s ==> ToSlashes(s) == s
  {
    if s != [] { SlashesLeave(s[1..]); }
  }

  lemma {:induction false} DropLeaves(s: string)
    ensures |DropDotSlashes(s)| <= |s|
    ensures forall c :: c in DropDotSlashes(s) ==> c in s
  {
    if StartsWithDotSlash(s) { DropLeaves(s[2..]); }
  }

  lemma NormalizedFacts(path: string)
    ensures '\\' !in Normalized(path) && Bare(Normalized(path), IsSlash)
  {
    SlashesLeave(Strip(path, IsSpace));
    DropLeaves(Trimmed(path));
    StripLeaves(DropDotSlashes(Trimmed(path)), IsSlash);
  }

  lemma SecondRound(n: string)
    requires '\\' !in n && Bare(n, IsSlash)
    ensures Normalized(n) == n <==> !StartsWithDotSlash(n) && Bare(n, IsSpace)
  {
    StripIsIdentityIff(n, IsSpace);
    if Bare(n, IsSpace) {
      SlashesLeave(n);
      assert Trimmed(n) == n;
      if StartsWithDotSlash(n) {
        DropLeaves(n[2..]);
        StripLeaves(DropDotSlashes(n), IsSlash);
      } else {
        StripIsIdentityIff(n, IsSlash);
      }
    } else {
      TrimmedShortens(n);
    }
  }

  lemma TrimmedShortens(n: string)
    requires !Bare(n, IsSpace)
    ensures |Normalized(n)| < |n|
  {
    StripIsIdentityIff(n, IsSpace);
    StripLeaves(n, IsSpace);
    StrippedPartIsShorter(n, IsSpace);
    SlashesLeave(Strip(n, IsSpace));
    DropLeaves(Trimmed(n));
    StripLeaves(DropDotSlashes(Trimmed(n)), IsSlash);
  }

  lemma StrippedPartIsShorter(s: string, drop: char -> bool)
    requires Strip(s, drop) != s
    ensures |Strip(s, drop)| < |s|
  {
    StripLeftLeaves(s, drop);
    StripRightLeaves(StripLeft(s, drop), drop);
  }

  lemma FixedIffFormIsPlain(path: string)
    ensures Normalized(Normalized(path)) == Normalized(path)
            <==> !StartsWithDotSlash(Normalized(path)) && Bare(Normalized(path), IsSpace)
  {
    NormalizedFacts(path);
    SecondRound(Normalized(path));
  }

  // What makes a second round differ, read off the path without its outer space.

  /** "./" `k` times. */
  function DotSlashes(k: nat): string {
    if k == 0 then "" else "./" + DotSlashes(k - 1)
  }

  function Slashes(m: nat): string {
    if m == 0 then "" else "/" + Slashes(m - 1)
  }

  predicate OnlySlashes(s: string) {
    forall i :: 0 <= i < |s| ==> s[i] == '/'
  }

  /** After `k` times "./" and `m` > 0 slashes comes another "./", and then something. */
  predicate RestartsAt(s: string, k: nat, m: nat, x: string) {
    m > 0 && s == DotSlashes(k) + (Slashes(m) + ("./" + x)) && !OnlySlashes(x)
  }

  /** After `k` times "./" and `m` slashes comes space. */
  predicate SpaceAfter(s: string, k: nat, m: nat, x: string) {
    x != "" && IsSpace(x[0]) && s == DotSlashes(k) + (Slashes(m) + x)
  }

  /** Space comes before `n` last slashes. */
  predicate SpaceBefore(s: string, n: nat, x: string) {
    x != "" && IsSpace(x[|x| - 1]) && s == x + Slashes(n)
  }

  ghost predicate Restarts(s: string) {
    exists k: nat, m: nat, x :: RestartsAt(s, k, m, x)
  }

  ghost predicate HasInnerSpace(s: string) {
    || (exists k: nat, m: nat, x :: SpaceAfter(s, k, m, x))
    || (exists n: nat, x :: SpaceBefore(s, n, x))
  }

  lemma {:induction false} DropsDotSlashes(k: nat, x: string)
    ensures DropDotSlashes(DotSlashes(k) + x) == DropDotSlashes(x)
  {
    if k == 0 {
      assert DotSlashes(0) + x == x;
    } else {
      DropsDotSlashes(k - 1, x);
      assert (DotSlashes(k) + x)[2..] == DotSlashes(k - 1) + x;
    }
  }

  lemma {:induction false} DropsAll(s: string) returns (k: nat)
    ensures s == DotSlashes(k) + DropDotSlashes(s) && !StartsWithDotSlash(DropDotSlashes(s))
  {
    if StartsWithDotSlash(s) {
      var k' := DropsAll(s[2..]);
      k := k' + 1;
      assert s == "./" + s[2..];
      assert DotSlashes(k) + DropDotSlashes(s) == "./" + (DotSlashes(k') + DropDotSlashes(s[2..]));
    } else {
      k := 0;
      assert DotSlashes(0) + s == s;
    }
  }

  lemma {:induction false} StripsSlashes(m: nat, x: string)
    ensures StripLeft(Slashes(m) + x, IsSlash) == StripLeft(x, IsSlash)
  {
    if m == 0 {
      assert Slashes(0) + x == x;
    } else {
      StripsSlashes(m - 1, x);
      assert (Slashes(m) + x)[1..] == Slashes(m - 1) + x;
    }
  }

  lemma {:induction false} StripsAllLeft(s: string) returns (m: nat)
    ensures s == Slashes(m) + StripLeft(s, IsSlash)
  {
    if s != [] && IsSlash(s[0]) {
      var m' := StripsAllLeft(s[1..]);
      m := m' + 1;
      assert s == "/" + s[1..];
      assert Slashes(m) + StripLeft(s, IsSlash) == "/" + (Slashes(m') + StripLeft(s[1..], IsSlash));
    } else {
      m := 0;
      assert Slashes(0) + s == s;
    }
  }

  lemma {:induction false} SlashesMove(n: nat)
    ensures Slashes(n + 1) == Slashes(n) + "/"
  {
    if n > 0 {
      SlashesMove(n - 1);
      assert Slashes(n + 1) == "/" + (Slashes(n - 1) + "/");
      assert "/" + (Slashes(n - 1) + "/") == ("/" + Slashes(n - 1)) + "/";
    }
  }

  lemma {:induction false} StripsAllRight(s: string) returns (n: nat)
    ensures s == StripRight(s, IsSlash) + Slashes(n)
  {
    if s != [] && IsSlash(s[|s| - 1]) {
      var front := s[..|s| - 1];
      var n' := StripsAllRight(front);
      n := n' + 1;
      SlashesMove(n');
      assert s == front + "/";
      assert (StripRight(front, IsSlash) + Slashes(n')) + "/" == StripRight(front, IsSlash) + (Slashes(n') + "/");
    } else {
      n := 0;
      assert s + Slashes(0) == s;
    }
  }

  lemma StripsOneSlash(x: string)
    ensures StripRight(x + "/", IsSlash) == StripRight(x, IsSlash)
  {
    assert (x + "/")[..|x|] == x;
  }

  lemma {:induction false} StripsSlashesRight(x: string, n: nat)
    ensures StripRight(x + Slashes(n), IsSlash) == StripRight(x, IsSlash)
  {
    if n == 0 {
      assert x + Slashes(0) == x;
    } else {
      SlashesMove(n - 1);
      assert x + Slashes(n) == (x + Slashes(n - 1)) + "/";
      StripsOneSlash(x + Slashes(n - 1));
      StripsSlashesRight(x, n - 1);
    }
  }

  /** The part of a trimmed path between the "./"s and slashes before it and the slashes after it. */
  lemma TrimmedParts(t: string) returns (k: nat, m: nat, n: nat)
    ensures var core := Strip(DropDotSlashes(t), IsSlash);
            && t == DotSlashes(k) + (Slashes(m) + (core + Slashes(n)))
            && Bare(core, IsSlash)
            && (m == 0 ==> !StartsWithDotSlash(core + Slashes(n)))
  {
    var d := DropDotSlashes(t);
    k := DropsAll(t);
    m := StripsAllLeft(d);
    n := StripsAllRight(StripLeft(d, IsSlash));
    StripLeaves(d, IsSlash);
    if m == 0 { assert Slashes(0) + StripLeft(d, IsSlash) == StripLeft(d, IsSlash); }
  }

  lemma {:induction false} SlashesOnly(n: nat)
    ensures |Slashes(n)| == n && OnlySlashes(Slashes(n))
  {
    if n > 0 { SlashesOnly(n - 1); }
  }

  lemma {:induction false} KeepsUpTo(s: string, i: nat)
    requires i < |s| && !IsSlash(s[i])
    ensures |StripRight(s, IsSlash)| > i
  {
    if IsSlash(s[|s| - 1]) { KeepsUpTo(s[..|s| - 1], i); }
  }

  lemma RestartGivesDotSlash(t: string, k: nat, m: nat, x: string)
    requires RestartsAt(t, k, m, x)
    ensures StartsWithDotSlash(Strip(DropDotSlashes(t), IsSlash))
  {
    var rest := "./" + x;
    DropsDotSlashes(k, Slashes(m) + rest);
    assert Slashes(m)[0] == '/';
    assert DropDotSlashes(Slashes(m) + rest) == Slashes(m) + rest;
    StripsSlashes(m, rest);
    assert StripLeft(rest, IsSlash) == rest;
    StripRightLeaves(rest, IsSlash);
    var i :| 0 <= i < |x| && x[i] != '/';
    assert rest[2 + i] == x[i];
    KeepsUpTo(rest, 2 + i);
  }

  lemma DotSlashMeansRestart(t: string)
    requires StartsWithDotSlash(Strip(DropDotSlashes(t), IsSlash))
    ensures Restarts(t)
  {
    var core := Strip(DropDotSlashes(t), IsSlash);
    var k, m, n := TrimmedParts(t);
    var x := core[2..] + Slashes(n);
    assert "./" + x == core + Slashes(n) by { assert core == "./" + core[2..]; }
    assert |core| > 2;
    assert x[|core| - 3] == core[|core| - 1];
    assert StartsWithDotSlash(core + Slashes(n));
    assert RestartsAt(t, k, m, x);
  }

  lemma SpaceAfterGives(t: string, k: nat, m: nat, x: string)
    requires SpaceAfter(t, k, m, x)
    ensures !Bare(Strip(DropDotSlashes(t), IsSlash), IsSpace)
  {
    DropsDotSlashes(k, Slashes(m) + x);
    var d := Slashes(m) + x;
    if m == 0 { assert d == x; } else { assert d[0] == '/'; }
    assert DropDotSlashes(d) == d;
    StripsSlashes(m, x);
    assert StripLeft(x, IsSlash) == x;
    StripRightLeaves(x, IsSlash);
    KeepsUpTo(x, 0);
  }

  lemma SpaceBeforeGives(t: string, n: nat, x: string)
    requires SpaceBefore(t, n, x)
    ensures !Bare(Strip(DropDotSlashes(t), IsSlash), IsSpace)
  {
    var k, m, n' := TrimmedParts(t);
    var head, core := DotSlashes(k) + Slashes(m), Strip(DropDotSlashes(t), IsSlash);
    assert t == (head + core) + Slashes(n') by {
      assert DotSlashes(k) + (Slashes(m) + (core + Slashes(n'))) == (head + core) + Slashes(n');
    }
    StripsSlashesRight(x, n);
    StripsSlashesRight(head + core, n');
    HeadHoldsNoSpace(k, m);
    LastOfCore(x, head, core, IsSpace);
  }

  lemma {:induction false} LastOfCore(x: string, head: string, core: string, space: char -> bool)
    requires x != "" && space(x[|x| - 1]) && !IsSlash(x[|x| - 1])
    requires StripRight(x, IsSlash) == StripRight(head + core, IsSlash)
    requires forall i :: 0 <= i < |head| ==> !space(head[i])
    requires Bare(core, IsSlash)
    ensures !Bare(core, space)
  {
    assert StripRight(x, IsSlash) == x;
    StripRightLeaves(head + core, IsSlash);
    assert x <= head + core;
    assert x[|x| - 1] == (head + core)[|x| - 1];
    assert |x| > |head|;
    assert core != "" && (head + core)[|head + core| - 1] == core[|core| - 1];
    assert x == head + core;
  }

  lemma HeadHoldsNoSpace(k: nat, m: nat)
    ensures forall i :: 0 <= i < |DotSlashes(k) + Slashes(m)| ==> !IsSpace((DotSlashes(k) + Slashes(m))[i])
  {
    SlashesOnly(m);
    DotsHoldNoSpace(k);
  }

  lemma {:induction false} DotsHoldNoSpace(k: nat)
    ensures forall i :: 0 <= i < |DotSlashes(k)| ==> !IsSpace(DotSlashes(k)[i])
  {
    if k > 0 { DotsHoldNoSpace(k - 1); }
  }

  lemma SpaceMeansInner(t: string)
    requires !Bare(Strip(DropDotSlashes(t), IsSlash), IsSpace)
    ensures HasInnerSpace(t)
  {
    var core := Strip(DropDotSlashes(t), IsSlash);
    var k, m, n := TrimmedParts(t);
    if IsSpace(core[0]) {
      assert (core + Slashes(n))[0] == core[0];
      assert SpaceAfter(t, k, m, core + Slashes(n));
    } else {
      var x := DotSlashes(k) + (Slashes(m) + core);
      assert t == x + Slashes(n) by {
        assert Slashes(m) + (core + Slashes(n)) == (Slashes(m) + core) + Slashes(n);
        assert DotSlashes(k) + ((Slashes(m) + core) + Slashes(n)) == x + Slashes(n);
      }
      assert x[|x| - 1] == core[|core| - 1];
      assert SpaceBefore(t, n, x);
    }
  }

  /**
   Normalising a second time changes a path exactly if, in the path without its outer space, the "./"s at
   its start are followed by slashes and then another "./" before something else, or space stands next to
   what is stripped: after the "./"s and slashes at its start, or before the slashes at its end.
   */
  lemma NormalizedIsFixedIff(path: string)
    ensures Normalized(Normalized(path)) == Normalized(path) <==> !Restarts(Trimmed(path)) && !HasInnerSpace(Trimmed(path))
  {
    var t := Trimmed(path);
    FixedIffFormIsPlain(path);
    if StartsWithDotSlash(Normalized(path)) { DotSlashMeansRestart(t); }
    if k: nat, m: nat, x :| RestartsAt(t, k, m, x) { RestartGivesDotSlash(t, k, m, x); }
    if !Bare(Normalized(path), IsSpace) { SpaceMeansInner(t); }
    if k: nat, m: nat, x :| SpaceAfter(t, k, m, x) { SpaceAfterGives(t, k, m, x); }
    if n: nat, x :| SpaceBefore(t, n, x) { SpaceBeforeGives(t, n, x); }
  }

  /** A path on which it differs: the empty segment stops the loop, so ".//./t" becomes "./t", and that becomes "t". */
  lemma EmptySegmentStopsTheLoop(t: string)
    requires t != "" && '\\' !in t && Bare(t, IsSpace) && Bare(t, IsSlash) && !StartsWithDotSlash(t)
    ensures Normalized(".//./" + t) == "./" + t
    ensures Normalized("./" + t) == t
    ensures Normalized(Normalized(".//./" + t)) != Normalized(".//./" + t)
  {
    var x := "./" + t;
    assert x[|x| - 1] == t[|t| - 1] && '\\' !in x && x[2..] == t;
    DotSlashIsDropped(t);
    assert DropDotSlashes(t) == t;
    StripIsIdentityIff(t, IsSlash);
    var d := "/" + x;
    assert d[|d| - 1] == t[|t| - 1] && '\\' !in d;
    DotSlashIsDropped(d);
    assert DropDotSlashes(d) == d;
    LeadingSlash(x);
    assert ".//./" + t == "./" + d;
  }

  lemma DotSlashIsDropped(d: string)
    requires d != "" && '\\' !in d && !IsSpace(d[|d| - 1])
    ensures Normalized("./" + d) == Strip(DropDotSlashes(d), IsSlash)
  {
    var s := "./" + d;
    assert s[2..] == d && s[|s| - 1] == d[|d| - 1] && '\\' !in s;
    StripIsIdentityIff(s, IsSpace);
    SlashesLeave(s);
  }

  lemma LeadingSlash(t: string)
    requires t != "" && Bare(t, IsSlash)
    ensures Strip("/" + t, IsSlash) == t
  {
    assert ("/" + t)[1..] == t;
    StripIsIdentityIff(t, IsSlash);
    assert StripLeft("/" + t, IsSlash) == StripLeft(t, IsSlash);
  }

  // ---------- Membership and violations ----------

  /** The normalised path `n` is the scope path `s` or lies below it. */
  predicate Under(n: string, s: string) {
    n == s || s + "/" <= n
  }

  predicate InScope(path: string, scope: seq<string>) {
    Normalized(path) != "" && exists i :: 0 <= i < |scope| && Under(Normalized(path), scope[i])
  }

  predicate Blank(path: string) {
    Strip(path, IsSpace) == ""
  }

  function Violations(paths: seq<string>, scope: seq<string>): seq<string> {
    if scope == [] || paths == [] then []
    else
      (if !Blank(paths[0]) && !InScope(paths[0], scope) then [paths[0]] else []) + Violations(paths[1..], scope)
  }

  lemma {:induction false} NoViolationsMeansInScope(paths: seq<string>, scope: seq<string>)
    requires scope != []
    ensures Violations(paths, scope) == [] <==> forall p :: p in paths && !Blank(p) ==> InScope(p, scope)
  {
    if paths != [] {
      NoViolationsMeansInScope(paths[1..], scope);
      assert forall p :: p in paths <==> p == paths[0] || p in paths[1..];
    }
  }

  // ---------- Overlap ----------

  predicate Clash(a: string, b: string) {
    a == b || b + "/" <= a || a + "/" <= b
  }

  predicate Overlap(left: seq<string>, right: seq<string>) {
    left == [] || right == [] || exists i, j :: 0 <= i < |left| && 0 <= j < |right| && Clash(left[i], right[j])
  }

  method WriteScopesOverlap(left: seq<string>, right: seq<string>) returns (overlap: bool)
    ensures overlap == Overlap(left, right)
  {
    if left == [] || right == [] {
      return true;
    }
    for i := 0 to |left|
      invariant forall k, j :: 0 <= k < i && 0 <= j < |right| ==> !Clash(left[k], right[j])
    {
      for j := 0 to |right|
        invariant forall l :: 0 <= l < j ==> !Clash(left[i], right[l])
      {
        if left[i] == right[j] || right[j] + "/" <= left[i] || left[i] + "/" <= right[j] {
          assert Clash(left[i], right[j]);
          return true;
        }
      }
    }
    return false;
  }

  /** Two scope paths with a common path below them clash, whatever they are. */
  lemma SharedPathMeansClash(n: string, a: string, b: string)
    requires Under(n, a) && Under(n, b)
    ensures Clash(a, b)
  {
    assert a == n[..|a|] && b == n[..|b|];
    if |a| < |b| {
      assert a + "/" <= b by { assert n[|a|] == '/' && b[|a|] == n[|a|]; }
    } else if |b| < |a| {
      assert b + "/" <= a by { assert n[|b|] == '/' && a[|b|] == n[|b|]; }
    }
  }

  /** Safety: when the test says no, no path of any spelling lies in both scopes. */
  lemma NoOverlapMeansDisjoint(left: seq<string>, right: seq<string>, path: string)
    requires !Overlap(left, right)
    ensures !(InScope(path, left) && InScope(path, right))
  {
    if InScope(path, left) && InScope(path, right) {
      var n := Normalized(path);
      var i :| 0 <= i < |left| && Under(n, left[i]);
      var j :| 0 <= j < |right| && Under(n, right[j]);
      SharedPathMeansClash(n, left[i], right[j]);
    }
  }

  // ---------- Scopes of any spelling ----------

  function Longer(a: string, b: string): string {
    if |a| >= |b| then a else b
  }

  /** Some path lies at or below the scope path. */
  predicate Reachable(s: string) {
    s != "" && s[0] != '/' && '\\' !in s
  }

  ghost predicate SharePath(a: string, b: string) {
    exists path :: LiesUnderBoth(path, a, b)
  }

  predicate LiesUnderBoth(path: string, a: string, b: string) {
    Normalized(path) != "" && Under(Normalized(path), a) && Under(Normalized(path), b)
  }

  lemma WitnessBelow(s: string)
    requires Reachable(s)
    ensures Normalized("/" + (s + "/x")) == s + "/x"
  {
    var n := s + "/x";
    var p := "/" + n;
    assert p[0] == '/' && p[|p| - 1] == 'x' && '\\' !in p;
    StripIsIdentityIff(p, IsSpace);
    SlashesLeave(p);
    assert DropDotSlashes(p) == p;
    assert n[0] == s[0] && n[|n| - 1] == 'x';
    LeadingSlash(n);
  }

  lemma UnderMeansReachable(path: string, s: string)
    requires Normalized(path) != "" && Under(Normalized(path), s)
    ensures Reachable(s)
  {
    NormalizedFacts(path);
    var n := Normalized(path);
    assert n != s ==> n[|s|] == '/';
    assert s != "";
    assert s <= n && n[0] == s[0];
  }

  /** Two scope paths, however spelled, have a path in common iff they clash and the longer one is reachable. */
  lemma SharePathIff(a: string, b: string)
    ensures SharePath(a, b) <==> Clash(a, b) && Reachable(Longer(a, b))
  {
    if path :| LiesUnderBoth(path, a, b) {
      SharedPathMeansClash(Normalized(path), a, b);
      UnderMeansReachable(path, Longer(a, b));
    }
    if Clash(a, b) && Reachable(Longer(a, b)) {
      var s := Longer(a, b);
      WitnessBelow(s);
      var path := "/" + (s + "/x");
      assert s + "/" <= s + "/x";
      assert LiesUnderBoth(path, a, b);
    }
  }

  /** Some pair of the scopes' paths clashes and is reachable. */
  predicate ReachableOverlap(left: seq<string>, right: seq<string>) {
    exists i, j :: 0 <= i < |left| && 0 <= j < |right| && Clash(left[i], right[j]) && Reachable(Longer(left[i], right[j]))
  }

  /** Main result: scopes of any spelling have a path in common exactly if two of their paths clash with a reachable longer one. */
  lemma ScopesSharePathIff(left: seq<string>, right: seq<string>)
    ensures (exists path :: InScope(path, left) && InScope(path, right)) <==> ReachableOverlap(left, right)
  {
    if path :| InScope(path, left) && InScope(path, right) {
      var i :| 0 <= i < |left| && Under(Normalized(path), left[i]);
      var j :| 0 <= j < |right| && Under(Normalized(path), right[j]);
      assert LiesUnderBoth(path, left[i], right[j]);
      SharePathIff(left[i], right[j]);
    }
    if ReachableOverlap(left, right) {
      var i, j :| 0 <= i < |left| && 0 <= j < |right| && Clash(left[i], right[j]) && Reachable(Longer(left[i], right[j]));
      SharePathIff(left[i], right[j]);
      var path :| LiesUnderBoth(path, left[i], right[j]);
      assert InScope(path, left) && InScope(path, right);
    }
  }

  lemma ScopePathsAreReachable(raw: seq<string>, i: nat)
    requires i < |ScopePaths(raw)|
    ensures Reachable(ScopePaths(raw)[i])
  {
    ScopePathsAreNormalizedRawPaths(raw, ScopePaths(raw)[i]);
    var p :| p in raw && Normalized(p) == ScopePaths(raw)[i];
    NormalizedFacts(p);
  }

  /** For scopes the host normalised, the pairwise test decides whether some path lies in both. */
  lemma OverlapIffSharedPath(rawLeft: seq<string>, rawRight: seq<string>)
    ensures var left, right := ScopePaths(rawLeft), ScopePaths(rawRight);
            Overlap(left, right) <==>
            left == [] || right == [] || exists path :: InScope(path, left) && InScope(path, right)
  {
    var left, right := ScopePaths(rawLeft), ScopePaths(rawRight);
    ScopesSharePathIff(left, right);
    if i, j :| 0 <= i < |left| && 0 <= j < |right| && Clash(left[i], right[j]) {
      ScopePathsAreReachable(rawLeft, i);
      ScopePathsAreReachable(rawRight, j);
    }
  }

  /** Scopes the host did not normalise can clash with no path in common. */
  lemma UnnormalizedScopesCanClashEmptily(path: string)
    ensures Overlap(["/a"], ["/a"]) && !InScope(path, ["/a"])
  {
    assert Clash(["/a"][0], ["/a"][0]);
    if InScope(path, ["/a"]) { UnderMeansReachable(path, "/a"); }
  }

  /** Two tasks without violations and without overlap write different files in different subtrees. */
  lemma ViolationFreeTasksAreSeparate(
    pathsA: seq<string>, rawA: seq<string>, pathsB: seq<string>, rawB: seq<string>, a: string, b: string)
    requires !Overlap(ScopePaths(rawA), ScopePaths(rawB))
    requires Violations(pathsA, ScopePaths(rawA)) == [] && Violations(pathsB, ScopePaths(rawB)) == []
    requires a in pathsA && !Blank(a) && b in pathsB && !Blank(b)
    ensures !Under(Normalized(a), Normalized(b)) && !Under(Normalized(b), Normalized(a))
  {
    var left, right := ScopePaths(rawA), ScopePaths(rawB);
    NoViolationsMeansInScope(pathsA, left);
    NoViolationsMeansInScope(pathsB, right);
    var m, n := Normalized(a), Normalized(b);
    var i :| 0 <= i < |left| && Under(m, left[i]);
    var j :| 0 <= j < |right| && Under(n, right[j]);
    if Under(m, n) {
      UnderTransitive(m, n, right[j]);
      SharedPathMeansClash(m, left[i], right[j]);
    }
    if Under(n, m) {
      UnderTransitive(n, m, left[i]);
      SharedPathMeansClash(n, left[i], right[j]);
    }
  }

  lemma UnderTransitive(a: string, b: string, c: string)
    requires Under(a, b) && Under(b, c)
    ensures Under(a, c)
  {
  }
}
