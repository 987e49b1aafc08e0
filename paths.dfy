/**
  The path codec of an AppRole role: the role lives at
  `auth/<mount>/role/<name>` in the secret store.

  The source decodes a path with two regular expressions,
  `^auth/(.+)/role/.+$` for the mount and `^auth/.+/role/(.+)$` for the name.
  Here the match is an explicit split: the path must start with `auth/`,
  contain no newline (the regular expression's `.` does not match one), and
  the rest must be `<mount>/role/<name>` with both parts non-empty. Both
  groups `(.+)` are greedy, so both expressions split at the LAST occurrence
  of `/role/` that leaves a non-empty name.
*/
module Paths {
  import opened Wrappers

  const Prefix: string := "auth/"
  const Separator: string := "/role/"

  datatype PathError = NoBackendFound | NoRoleFound

  /** `strings.TrimLeft(s, "/")`: drops every leading slash. */
  function TrimLeft(s: string): (r: string)
    ensures |r| <= |s| && r == s[|s| - |r|..]
    ensures forall i :: 0 <= i < |s| - |r| ==> s[i] == '/'
    ensures r == [] || r[0] != '/'
    decreases |s|
  {
    if s != [] && s[0] == '/' then TrimLeft(s[1..]) else s
  }

  /** `strings.TrimRight(s, "/")`: drops every trailing slash. */
  function TrimRight(s: string): (r: string)
    ensures |r| <= |s| && r == s[..|r|]
    ensures forall i :: |r| <= i < |s| ==> s[i] == '/'
    ensures r == [] || r[|r| - 1] != '/'
    decreases |s|
  {
    if s != [] && s[|s| - 1] == '/' then TrimRight(s[..|s| - 1]) else s
  }

  /** `strings.Trim(s, "/")`: removes the slashes at both ends. The result
      neither starts nor ends with a slash, and a string that already does
      neither is left as it is. */
  function Trim(s: string): (r: string)
    ensures |r| <= |s|
    ensures r == [] || (r[0] != '/' && r[|r| - 1] != '/')
    ensures (s == [] || (s[0] != '/' && s[|s| - 1] != '/')) ==> r == s
  {
    var l := TrimLeft(s);
    var r := TrimRight(l);
    assert r != [] ==> r[0] == l[0];
    if s == [] || (s[0] != '/' && s[|s| - 1] != '/') then
      assert l == s;
      assert TrimRight(s) == s;
      r
    else r
  }

  /** What `Trim` removes is slashes only: the result is the slice of `s`
      between a run of leading and a run of trailing slashes. */
  lemma TrimSlice(s: string)
    ensures var off := |s| - |TrimLeft(s)|;
      && 0 <= off && off + |Trim(s)| <= |s| && Trim(s) == s[off..off + |Trim(s)|]
      && (forall i :: 0 <= i < off ==> s[i] == '/')
      && (forall i :: off + |Trim(s)| <= i < |s| ==> s[i] == '/')
  {
    TrimIsSlice(s);
    TrimDropsTrailingSlashes(s);
  }

  lemma TrimIsSlice(s: string)
    ensures var off := |s| - |TrimLeft(s)|;
      off + |Trim(s)| <= |s| && Trim(s) == s[off..off + |Trim(s)|]
  {
    var l := TrimLeft(s);
    var t := TrimRight(l);
    SliceOfSuffix(s, |s| - |l|, |t|);
  }

  /** A prefix of a suffix is a slice. A generic sequence fact, stated
      separately so the verifier need not rediscover it. */
  lemma SliceOfSuffix(s: string, off: nat, n: nat)
    requires off + n <= |s|
    ensures s[off..][..n] == s[off..off + n]
  {
  }

  lemma TrimDropsTrailingSlashes(s: string)
    ensures var off := |s| - |TrimLeft(s)|;
      forall i :: off + |Trim(s)| <= i < |s| ==> s[i] == '/'
  {
    var l := TrimLeft(s);
    var t := TrimRight(l);
    var off := |s| - |l|;
    forall i | off + |t| <= i < |s|
      ensures s[i] == '/'
    {
      assert s[i] == l[i - off];
    }
  }

  /** `approleAuthBackendRolePath`: the canonical path of a role. */
  function RolePath(backend: string, role: string): string {
    Prefix + Trim(backend) + Separator + Trim(role)
  }

  /** `s` holds the separator `/role/` at offset `i`. */
  predicate SeparatorAt(s: string, i: int) {
    && 0 <= i && i + |Separator| <= |s|
    && s[i] == '/' && s[i + 1] == 'r' && s[i + 2] == 'o'
    && s[i + 3] == 'l' && s[i + 4] == 'e' && s[i + 5] == '/'
  }

  lemma SeparatorAtSlice(s: string, i: int)
    requires 0 <= i && i + |Separator| <= |s|
    ensures SeparatorAt(s, i) <==> s[i..i + |Separator|] == Separator
  {
    if s[i..i + |Separator|] == Separator {
      forall j | 0 <= j < |Separator| ensures s[i + j] == Separator[j] {
        assert s[i + j] == s[i..i + |Separator|][j];
      }
    }
  }

  /** The separator starts at offset `k` of `rest`, with at least one
      character before it and at least one after it. */
  predicate SplitsAt(rest: string, k: int) {
    1 <= k && k + |Separator| < |rest| && SeparatorAt(rest, k)
  }

  /** The largest split point of `rest` that is at most `k`. */
  function LastSplitFrom(rest: string, k: int): (r: Option<nat>)
    ensures r.Some? ==> r.value <= k && SplitsAt(rest, r.value)
    ensures r.Some? ==> forall j :: r.value < j <= k ==> !SplitsAt(rest, j)
    ensures r.None? ==> forall j :: j <= k ==> !SplitsAt(rest, j)
    decreases k
  {
    if k < 1 then None
    else if SplitsAt(rest, k) then Some(k)
    else LastSplitFrom(rest, k - 1)
  }

  /** What the two regular expressions accept: the prefix, no newline, and
      some split point in the rest. */
  ghost predicate Matches(path: string) {
    && |Prefix| <= |path| && path[..|Prefix|] == Prefix
    && '\n' !in path
    && exists k :: SplitsAt(path[|Prefix|..], k)
  }

  /** The match of both regular expressions: the pair (mount, name) on either
      side of the last split point, or None when the path does not match. */
  function SplitPath(path: string): (m: Option<(string, string)>)
    ensures m.Some? <==> Matches(path)
    ensures m.Some? ==> path == Prefix + m.value.0 + Separator + m.value.1
    ensures m.Some? ==> m.value.0 != [] && m.value.1 != []
    ensures m.Some? ==> SplitsAt(path[|Prefix|..], |m.value.0|)
    ensures m.Some? ==> forall k :: |m.value.0| < k ==> !SplitsAt(path[|Prefix|..], k)
  {
    if |path| < |Prefix| || path[..|Prefix|] != Prefix || '\n' in path then None
    else
      var rest := path[|Prefix|..];
      match LastSplitFrom(rest, |rest| - |Separator| - 1)
      case None => None
      case Some(k) =>
        SeparatorAtSlice(rest, k);
        assert rest == rest[..k] + Separator + rest[k + |Separator|..];
        Some((rest[..k], rest[k + |Separator|..]))
  }

  /** `approleAuthBackendRoleBackendFromPath`. */
  function BackendFromPath(path: string): (r: Result<string, PathError>)
    ensures r.Success? <==> Matches(path)
    ensures r.Failure? ==> r.error == NoBackendFound
  {
    match SplitPath(path)
    case Some((backend, _)) => Success(backend)
    case None => Failure(NoBackendFound)
  }

  /** `approleAuthBackendRoleNameFromPath`. */
  function NameFromPath(path: string): (r: Result<string, PathError>)
    ensures r.Success? <==> Matches(path)
    ensures r.Failure? ==> r.error == NoRoleFound
  {
    match SplitPath(path)
    case Some((_, role)) => Success(role)
    case None => Failure(NoRoleFound)
  }
}
