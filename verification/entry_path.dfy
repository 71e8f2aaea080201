/** Package-relative entry paths (packages/contracts/src/plugin-manifest.ts, normalizeEntry). */
module EntryPath {
  import opened Options

  /** value.split('/'). */
  function Split(s: string): (r: seq<string>)
    ensures |r| >= 1
  {
    if s == "" then [""]
    else if s[0] == '/' then [""] + Split(s[1..])
    else
      var rest := Split(s[1..]);
      [[s[0]] + rest[0]] + rest[1..]
  }

  /** parts.join('/'). */
  function Join(parts: seq<string>): string {
    if parts == [] then "" else if |parts| == 1 then parts[0] else parts[0] + "/" + Join(parts[1..])
  }

  predicate Skipped(part: string) {
    part == "" || part == "."
  }

  predicate IsName(part: string) {
    !Skipped(part) && part != ".."
  }

  /** The stack after one more segment; ".." on an empty stack leaves none. */
  function Push(stack: Option<seq<string>>, part: string): Option<seq<string>> {
    if stack.None? || Skipped(part) then stack
    else if part != ".." then Some(stack.value + [part])
    else if stack.value == [] then None
    else Some(stack.value[..|stack.value| - 1])
  }

  /** The stack after all segments. */
  function Resolve(segments: seq<string>): Option<seq<string>> {
    if segments == [] then Some([]) else Push(Resolve(segments[..|segments| - 1]), segments[|segments| - 1])
  }

  lemma ResolveStep(segments: seq<string>, n: nat)
    requires n < |segments|
    ensures Resolve(segments[..n + 1]) == Push(Resolve(segments[..n]), segments[n])
  {
    assert segments[..n + 1][..n] == segments[..n];
  }

  predicate Letter(c: char) {
    'A' <= c <= 'Z' || 'a' <= c <= 'z'
  }

  predicate StartsLikeDrive(s: string) {
    |s| >= 2 && Letter(s[0]) && s[1] == ':'
  }

  /** Relative to the package and free of backslashes. */
  predicate Relative(s: string) {
    s != "" && '\\' !in s && s[0] != '/' && !StartsLikeDrive(s)
  }

  function Normalize(s: string): Option<string> {
    if !Relative(s) then None
    else
      var stack := Resolve(Split(s));
      if stack.None? || stack.value == [] then None else Some(Join(stack.value))
  }

  // ---- when an entry is accepted

  /** Names down minus steps up, whatever the names are. */
  function Depth(segments: seq<string>): int {
    if segments == [] then 0
    else
      var part := segments[|segments| - 1];
      Depth(segments[..|segments| - 1]) + if Skipped(part) then 0 else if part == ".." then -1 else 1
  }

  ghost predicate NeverAbovePackage(segments: seq<string>) {
    forall n | 0 <= n <= |segments| :: Depth(segments[..n]) >= 0
  }

  lemma {:induction false} ResolveFollowsDepth(segments: seq<string>)
    ensures Resolve(segments).Some? <==> NeverAbovePackage(segments)
    ensures Resolve(segments).Some? ==> |Resolve(segments).value| == Depth(segments)
  {
    if segments != [] {
      var init := segments[..|segments| - 1];
      ResolveFollowsDepth(init);
      assert forall n | 0 <= n <= |init| :: segments[..n] == init[..n];
      assert segments[..|segments|] == segments;
      if NeverAbovePackage(segments) {
        assert forall n | 0 <= n <= |init| :: Depth(init[..n]) == Depth(segments[..n]);
        assert Depth(segments[..|segments|]) >= 0;
      }
    } else {
      assert segments[..0] == [];
    }
  }

  /** A path is accepted exactly if it is not empty or absolute, has no backslash and no drive letter,
      never climbs above the package and ends inside it. */
  lemma AcceptedExactlyWhen(s: string)
    ensures Normalize(s).Some?
            <==> && s != "" && s[0] != '/' && '\\' !in s
                 && !(|s| >= 2 && s[1] == ':' && ('A' <= s[0] <= 'Z' || 'a' <= s[0] <= 'z'))
                 && NeverAbovePackage(Split(s)) && Depth(Split(s)) > 0
  {
    ResolveFollowsDepth(Split(s));
  }

  // ---- what an accepted entry looks like

  predicate CleanName(part: string) {
    IsName(part) && '/' !in part
  }

  predicate Within(part: string, s: string) {
    forall c | c in part :: c in s
  }

  predicate AllWithin(parts: seq<string>, s: string) {
    forall i | 0 <= i < |parts| :: Within(parts[i], s)
  }

  predicate NoSlashes(parts: seq<string>) {
    forall i | 0 <= i < |parts| :: '/' !in parts[i]
  }

  predicate AllClean(parts: seq<string>) {
    forall i | 0 <= i < |parts| :: CleanName(parts[i])
  }

  lemma {:induction false} SplitHasNoSlash(s: string)
    ensures NoSlashes(Split(s)) && AllWithin(Split(s), s)
  {
    if s != "" {
      SplitHasNoSlash(s[1..]);
      var rest := Split(s[1..]);
      assert forall i | 0 <= i < |rest| :: Within(rest[i], s[1..]) ==> Within(rest[i], s);
    }
  }

  lemma {:induction false} StackIsClean(segments: seq<string>, s: string)
    requires Resolve(segments).Some? && NoSlashes(segments) && AllWithin(segments, s)
    ensures AllClean(Resolve(segments).value) && AllWithin(Resolve(segments).value, s)
  {
    if segments != [] {
      StackIsClean(segments[..|segments| - 1], s);
    }
  }

  lemma {:induction false} SplitAtSlash(a: string, rest: string)
    requires '/' !in a
    ensures Split(a) == [a]
    ensures Split(a + "/" + rest) == [a] + Split(rest)
  {
    if a == "" {
      assert a + "/" + rest == "/" + rest && ("/" + rest)[1..] == rest;
    } else {
      SplitAtSlash(a[1..], rest);
      assert (a + "/" + rest)[1..] == a[1..] + "/" + rest;
      assert [a[0]] + a[1..] == a;
    }
  }

  lemma {:induction false} SplitJoin(parts: seq<string>)
    requires parts != [] && NoSlashes(parts)
    ensures Split(Join(parts)) == parts
  {
    var rest := parts[1..];
    assert parts == [parts[0]] + rest;
    if rest == [] {
      SplitAtSlash(parts[0], "");
    } else {
      SplitJoin(rest);
      SplitAtSlash(parts[0], Join(rest));
    }
  }

  lemma {:induction false} ResolveNamesUpTo(parts: seq<string>, n: nat)
    requires AllClean(parts) && n <= |parts|
    ensures Resolve(parts[..n]) == Some(parts[..n])
  {
    if n > 0 {
      ResolveNamesUpTo(parts, n - 1);
      ResolveStep(parts, n - 1);
      assert CleanName(parts[n - 1]);
      assert parts[..n - 1] + [parts[n - 1]] == parts[..n];
    }
  }

  lemma ResolveNames(parts: seq<string>)
    requires AllClean(parts)
    ensures Resolve(parts) == Some(parts)
  {
    ResolveNamesUpTo(parts, |parts|);
    assert parts[..|parts|] == parts;
  }

  /** Skipped segments in front change nothing. */
  lemma {:induction false} ResolveAfterDot(parts: seq<string>)
    ensures Resolve(["."] + parts) == Resolve(parts)
  {
    var dotted := ["."] + parts;
    if parts == [] {
      assert dotted == ["."] && ["."][..0] == [];
    } else {
      assert dotted[..|dotted| - 1] == ["."] + parts[..|parts| - 1];
      ResolveAfterDot(parts[..|parts| - 1]);
    }
  }

  lemma {:induction false} JoinSplit(s: string)
    ensures Join(Split(s)) == s
  {
    if s != "" {
      var rest := Split(s[1..]);
      JoinSplit(s[1..]);
      if s[0] == '/' {
        assert ([""] + rest)[1..] == rest;
        assert s == "" + "/" + s[1..];
      } else {
        var joined := [[s[0]] + rest[0]] + rest[1..];
        assert joined[1..] == rest[1..];
        assert s == [s[0]] + s[1..];
        if |rest| > 1 { assert ([s[0]] + rest[0]) + "/" + Join(rest[1..]) == [s[0]] + (rest[0] + "/" + Join(rest[1..])); }
      }
    }
  }

  lemma {:induction false} JoinKeepsChars(parts: seq<string>, s: string)
    requires AllWithin(parts, s)
    ensures forall c | c in Join(parts) :: c in s || c == '/'
  {
    if |parts| > 1 { JoinKeepsChars(parts[1..], s); }
    if |parts| > 0 { assert Within(parts[0], s); }
  }

  /** The segments of an accepted entry are names only, and are the resolved stack. */
  lemma NormalizedIsClean(s: string)
    requires Normalize(s).Some?
    ensures var r := Normalize(s).value;
            && Resolve(Split(s)) == Some(Split(r))
            && AllClean(Split(r))
            && r != "" && r[0] != '/' && '\\' !in r
  {
    var segments := Split(s);
    var stack := Resolve(segments).value;
    SplitHasNoSlash(s);
    StackIsClean(segments, s);
    SplitJoin(stack);
    JoinKeepsChars(stack, s);
    var r := Normalize(s).value;
    assert CleanName(Split(r)[0]);
  }

  /** Normalising again gives the same entry, except when the result has come to start like a
      drive letter: then it is refused. */
  lemma RenormalizingExactlyWhen(s: string)
    requires Normalize(s).Some?
    ensures Normalize(Normalize(s).value) == if StartsLikeDrive(Normalize(s).value) then None else Normalize(s)
  {
    NormalizedIsClean(s);
    var r := Normalize(s).value;
    ResolveNames(Split(r));
  }

  /** Any clean path can come out, one starting like a drive letter included: put "./" before it. */
  lemma DotSlashKeeps(r: string)
    requires AllClean(Split(r)) && '\\' !in r
    ensures Normalize("./" + r) == Some(r)
  {
    SplitAtSlash(".", r);
    assert "." + "/" + r == "./" + r;
    ResolveAfterDot(Split(r));
    ResolveNames(Split(r));
    JoinSplit(r);
  }

  // ---- the loop

  method NormalizeEntry(value: string) returns (entry: Option<string>)
    ensures entry == Normalize(value)
  {
    if value == "" || '\\' in value { return None; }
    if value[0] == '/' || StartsLikeDrive(value) { return None; }
    var segments := Split(value);
    var parts: seq<string> := [];
    for i := 0 to |segments|
      invariant Resolve(segments[..i]) == Some(parts)
    {
      ResolveStep(segments, i);
      var part := segments[i];
      if part == "" || part == "." {
        continue;
      }
      if part == ".." {
        if |parts| == 0 {
          AboveStaysAbove(segments, i + 1);
          return None;
        }
        parts := parts[..|parts| - 1];
      } else {
        parts := parts + [part];
      }
    }
    assert segments[..|segments|] == segments;
    entry := if |parts| > 0 then Some(Join(parts)) else None;
  }

  lemma {:induction false} AboveStaysAbove(segments: seq<string>, n: nat)
    requires n <= |segments| && Resolve(segments[..n]).None?
    ensures Resolve(segments).None?
  {
    if n < |segments| {
      var init := segments[..|segments| - 1];
      assert init[..n] == segments[..n];
      AboveStaysAbove(init, n);
    } else {
      assert segments[..n] == segments;
    }
  }
}
