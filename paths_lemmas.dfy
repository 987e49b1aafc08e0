/** Properties of the path codec. */
module PathLemmas {
  import opened Wrappers
  import opened Paths

  /** `s` contains the separator somewhere. */
  ghost predicate ContainsSeparator(s: string) {
    exists i :: SeparatorAt(s, i)
  }

  /** Both decoders succeed or fail together, and on success they return the
      pieces on either side of the same, last, separator. */
  lemma DecodersAgree(path: string)
    ensures BackendFromPath(path).Success? <==> NameFromPath(path).Success?
    ensures BackendFromPath(path).Success? ==>
      var backend, role := BackendFromPath(path).value, NameFromPath(path).value;
      && path == Prefix + backend + Separator + role
      && backend != [] && role != [] && '\n' !in path
      && forall k :: |backend| < k ==> !SplitsAt(path[|Prefix|..], k)
  {
  }

  /** Any way of writing the path as prefix, non-empty mount, separator and
      non-empty name is accepted, and the decoded mount is at least as long:
      the decoder never splits earlier than a valid split point. */
  lemma DecodeAcceptsEverySplit(path: string, backend: string, role: string)
    requires path == Prefix + backend + Separator + role
    requires backend != [] && role != [] && '\n' !in path
    ensures BackendFromPath(path).Success? && NameFromPath(path).Success?
    ensures |BackendFromPath(path).value| >= |backend|
  {
    var rest := path[|Prefix|..];
    assert rest == backend + Separator + role;
    assert rest[|backend|..|backend| + |Separator|] == Separator;
    assert SplitsAt(rest, |backend|);
  }

  /** Round trip: decoding the canonical path of (backend, role) gives back
      the trimmed pair, provided both trimmed parts are non-empty and contain
      no newline, and `"/" + Trim(role)` contains no separator (the trimmed
      name neither contains `/role/` nor starts with `role/`). */
  lemma DecodeEncode(backend: string, role: string)
    requires Trim(backend) != [] && Trim(role) != []
    requires '\n' !in Trim(backend) && '\n' !in Trim(role)
    requires !ContainsSeparator("/" + Trim(role))
    ensures BackendFromPath(RolePath(backend, role)) == Success(Trim(backend))
    ensures NameFromPath(RolePath(backend, role)) == Success(Trim(role))
  {
    SplitJoined(Trim(backend), Trim(role));
  }

  /** The split of `auth/<b>/role/<r>` is `(b, r)` under the round-trip
      conditions. */
  lemma SplitJoined(b: string, r: string)
    requires b != [] && r != [] && '\n' !in b && '\n' !in r
    requires !ContainsSeparator("/" + r)
    ensures SplitPath(Prefix + b + Separator + r) == Some((b, r))
  {
    JoinedShape(b, r);
    LastSplitOfJoined(b, r);
  }

  /** The pieces of `auth/<b>/role/<r>` as `SplitPath` sees them. */
  lemma JoinedShape(b: string, r: string)
    requires '\n' !in b && '\n' !in r
    ensures var path, rest := Prefix + b + Separator + r, b + Separator + r;
      && |Prefix| <= |path| && path[..|Prefix|] == Prefix && path[|Prefix|..] == rest
      && '\n' !in path
      && rest[..|b|] == b && rest[|b| + |Separator|..] == r
      && rest[|b|..|b| + |Separator|] == Separator
  {
    var path, rest := Prefix + b + Separator + r, b + Separator + r;
    assert path == Prefix + rest;
  }

  /** The last split point of `b + "/role/" + r` is `|b|`. */
  lemma LastSplitOfJoined(b: string, r: string)
    requires b != [] && r != []
    requires !ContainsSeparator("/" + r)
    ensures var rest := b + Separator + r;
      LastSplitFrom(rest, |rest| - |Separator| - 1) == Some(|b|)
  {
    var rest := b + Separator + r;
    assert rest[|b|..|b| + |Separator|] == Separator;
    SeparatorAtSlice(rest, |b|);
    assert SplitsAt(rest, |b|);
    forall k | |b| < k
      ensures !SplitsAt(rest, k)
    {
      NoLaterSeparator(b, r, k);
    }
  }

  /** In `b + "/role/" + r`, no separator starts after `|b|` unless
      `"/" + r` contains one. */
  lemma NoLaterSeparator(b: string, r: string, k: int)
    requires |b| < k
    requires !ContainsSeparator("/" + r)
    ensures !SeparatorAt(b + Separator + r, k)
  {
    var rest := b + Separator + r;
    var v := "/" + r;
    if SeparatorAt(rest, k) && k >= |b| + 5 {
      assert rest == (b + "/role") + v;
      assert SeparatorAt(v, k - |b| - 5);
    }
  }

  /** Re-encoding a decoded pair reproduces the path exactly when each part is
      already in trimmed form. */
  lemma EncodeDecoded(path: string)
    requires BackendFromPath(path).Success?
    ensures var backend, role := BackendFromPath(path).value, NameFromPath(path).value;
      RolePath(backend, role) == path <==> (Trim(backend) == backend && Trim(role) == role)
  {
    DecodersAgree(path);
    var backend, role := BackendFromPath(path).value, NameFromPath(path).value;
    if RolePath(backend, role) == path {
      var tb, tr := Trim(backend), Trim(role);
      assert |tb| + |tr| == |backend| + |role|;
      assert |tb| == |backend| && |tr| == |role|;
      assert tb == backend[0..|backend|] == backend;
      assert tr == role[0..|role|] == role;
    }
  }

  /** Paths the decoders reject: no mount segment, an empty name, an empty
      mount, a newline, a missing prefix. */
  lemma DecodeRejects()
    ensures BackendFromPath("auth/role/bar") == Failure(NoBackendFound)
    ensures NameFromPath("auth/role/bar") == Failure(NoRoleFound)
    ensures BackendFromPath("auth/b/role/") == Failure(NoBackendFound)
    ensures NameFromPath("auth/b/role/") == Failure(NoRoleFound)
    ensures BackendFromPath("auth//role/r") == Failure(NoBackendFound)
    ensures NameFromPath("auth//role/r") == Failure(NoRoleFound)
    ensures BackendFromPath("auth/a\nb/role/r") == Failure(NoBackendFound)
    ensures NameFromPath("approle/role/r") == Failure(NoRoleFound)
  {
    assert ("auth/role/bar")[5..] == "role/bar";
    assert ("auth/b/role/")[5..] == "b/role/";
    assert ("auth//role/r")[5..] == "/role/r";
    assert ("approle/role/r")[..5] != Prefix by {
      assert ("approle/role/r")[..5][3] != Prefix[3];
    }
  }

  /** The split is at the last separator that leaves a non-empty name. */
  lemma DecodeSplitsAtLastSeparator()
    ensures BackendFromPath("auth/a/role/b/role/c") == Success("a/role/b")
    ensures NameFromPath("auth/a/role/b/role/c") == Success("c")
    ensures BackendFromPath("auth/a/role/b/role/") == Success("a")
    ensures NameFromPath("auth/a/role/b/role/") == Success("b/role/")
  {
    assert "auth/a/role/b/role/c" == Prefix + "a/role/b" + Separator + "c";
    SplitJoined("a/role/b", "c");
    TrailingSeparatorSplit();
  }

  lemma TrailingSeparatorEarlySplit()
    ensures LastSplitFrom("a/role/b/role/", 3) == Some(1)
  {
    var rest := "a/role/b/role/";
    assert SplitsAt(rest, 1);
    assert LastSplitFrom(rest, 1) == Some(1);
    assert !SplitsAt(rest, 2) && !SplitsAt(rest, 3);
  }

  /** With a trailing `/role/` only the earlier separator leaves a name. */
  lemma TrailingSeparatorSplit()
    ensures SplitPath("auth/a/role/b/role/") == Some(("a", "b/role/"))
  {
    var path := "auth/a/role/b/role/";
    var rest := "a/role/b/role/";
    assert path[|Prefix|..] == rest;
    TrailingSeparatorEarlySplit();
    assert !SplitsAt(rest, 4) && !SplitsAt(rest, 5);
    assert LastSplitFrom(rest, 5) == Some(1);
    assert !SplitsAt(rest, 6) && !SplitsAt(rest, 7);
    assert LastSplitFrom(rest, 7) == Some(1);
    assert rest[..1] == "a" && rest[7..] == "b/role/";
  }

  /** The separator condition of the round trip cannot be dropped: a name
      whose trimmed form starts with `role/` loses that part to the mount. */
  lemma RoleNamePrefixMovesIntoMount(backend: string, role: string, x: string)
    requires Trim(backend) != [] && '\n' !in Trim(backend)
    requires Trim(role) == "role/" + x && x != [] && '\n' !in x
    requires !ContainsSeparator("/" + x)
    ensures BackendFromPath(RolePath(backend, role)) == Success(Trim(backend) + "/role")
    ensures NameFromPath(RolePath(backend, role)) == Success(x)
  {
    var tb := Trim(backend);
    var mount := tb + "/role";
    assert Separator + "role/" == "/role" + Separator;
    calc {
      RolePath(backend, role);
      Prefix + tb + Separator + ("role/" + x);
      { StringAssoc(Prefix + tb, Separator, "role/" + x); StringAssoc(Separator, "role/", x); }
      (Prefix + tb) + ((Separator + "role/") + x);
      (Prefix + tb) + (("/role" + Separator) + x);
      { StringAssoc("/role", Separator, x); StringAssoc(Prefix + tb, "/role", Separator + x);
        StringAssoc(Prefix, tb, "/role"); }
      (Prefix + mount) + (Separator + x);
      { StringAssoc(Prefix + mount, Separator, x); }
      Prefix + mount + Separator + x;
    }
    SplitJoined(mount, x);
  }

  /** Concatenation of strings is associative. A generic sequence fact,
      stated separately so the verifier need not rediscover it. */
  lemma StringAssoc(a: string, b: string, c: string)
    ensures (a + b) + c == a + (b + c)
  {
  }
}
