/**
  Properties of the lifecycle specifications: the outcomes of Read, the call
  sequences of Create and Update, and what a Create followed by its Read
  leaves in the attributes.
*/
module Lifecycle {
  import opened Wrappers
  import opened Values
  import opened Paths
  import opened PathLemmas
  import opened State
  import opened Payload
  import opened Client
  import opened Reconcile
  import opened Controller

  /** Read issues only reads. */
  lemma ReadOnlyReads(s: RoleState, store: Store, primary: Outcome, secondary: Outcome)
    ensures var r := ReadSpec(s, store, primary, secondary);
      forall i :: 0 <= i < |r.calls| ==> r.calls[i].ReadCall?
  {
    var r := ReadSpec(s, store, primary, secondary);
    var both := [ReadCall(s.id), ReadCall(s.id + RoleIdSuffix)];
    assert r.calls == [] || r.calls == both[..1] || r.calls == both;
  }

  /** A path that does not decode fails the Read before any call and before
      any attribute changes. */
  lemma ReadRejectsUndecodable(s: RoleState, store: Store, primary: Outcome, secondary: Outcome)
    requires !Matches(s.id)
    ensures ReadSpec(s, store, primary, secondary) == ReadEffect(s, Some(InvalidPath(s.id, NoBackendFound)), [])
  {
  }

  /** A failing primary read returns its error and changes nothing. */
  lemma ReadStopsOnReadError(s: RoleState, store: Store, secondary: Outcome)
    requires Matches(s.id)
    ensures ReadSpec(s, store, Failed, secondary) == ReadEffect(s, Some(ReadFailed(s.id)), [ReadCall(s.id)])
  {
  }

  /** A missing role clears the id, succeeds and changes nothing else. */
  lemma ReadClearsIdWhenMissing(s: RoleState, store: Store, primary: Outcome, secondary: Outcome)
    requires Matches(s.id)
    requires primary == NotFound || (primary == Ok && s.id !in store)
    ensures ReadSpec(s, store, primary, secondary) == ReadEffect(s.(id := ""), None, [ReadCall(s.id)])
  {
  }

  /** A role that is found: the mount and the name come from the path, the
      scalars from the response, the pairs follow their resolution rules, and
      the role id comes from the role-id response when there is one. */
  lemma ReadRefreshes(s: RoleState, store: Store, secondary: Outcome)
    requires Matches(s.id) && s.id in store
    ensures var r := ReadSpec(s, store, Ok, secondary);
      var data := store[s.id];
      var named := s.(backend := BackendFromPath(s.id).value, roleName := NameFromPath(s.id).value);
      var idReply := ReplyOf(store, s.id + RoleIdSuffix, secondary);
      && r.calls == [ReadCall(s.id), ReadCall(s.id + RoleIdSuffix)]
      && r.err == (if idReply.ReadError? then Some(RoleIdReadFailed(s.id)) else None)
      && r.state.id == s.id
      && r.state.backend == named.backend && r.state.roleName == named.roleName
      && r.state.bindSecretId == AsBool(Lookup(data, KeyBindSecretId))
      && r.state.secretIdNumUses == AsInt(Lookup(data, KeySecretIdNumUses))
      && r.state.secretIdTtl == AsInt(Lookup(data, KeySecretIdTtl))
      && r.state.boundCidrList == ResolveCidrs(named, data).boundCidrList
      && r.state.secretIdBoundCidrs == ResolveCidrs(named, data).secretIdBoundCidrs
      && r.state.policies == ResolveLegacy(named, KeyPolicies, KeyTokenPolicies, data).policies
      && r.state.tokenPolicies == ResolveLegacy(named, KeyPolicies, KeyTokenPolicies, data).tokenPolicies
      && r.state.period == ResolveLegacy(named, KeyPeriod, KeyTokenPeriod, data).period
      && r.state.tokenPeriod == ResolveLegacy(named, KeyPeriod, KeyTokenPeriod, data).tokenPeriod
      && r.state.roleId == (if idReply.Data? then AsString(Lookup(idReply.fields, KeyRoleId)) else s.roleId)
  {
    var backend, role := BackendFromPath(s.id).value, NameFromPath(s.id).value;
    var data := store[s.id];
    ReconciledFields(s, backend, role, data);
    var refreshed := Reconciled(s, backend, role, data);
    var idReply := ReplyOf(store, s.id + RoleIdSuffix, secondary);
    if idReply.Data? {
      var v := Lookup(idReply.fields, KeyRoleId);
      assert WithField(refreshed, KeyRoleId, v) == refreshed.(roleId := AsString(v));
    }
  }

  /** Create: a failing primary write is returned at once; the id stays as it
      was, the store is untouched and nothing else is called. */
  lemma CreateStopsOnWriteFailure(s: RoleState, store: Store, writeRole: Outcome, writeRoleId: Outcome,
                                  readRole: Outcome, readRoleId: Outcome)
    requires writeRole != Ok
    ensures var path := RolePath(s.backend, s.roleName);
      CreateSpec(s, store, writeRole, writeRoleId, readRole, readRoleId)
        == Effect(s, Some(WriteFailed(path)), store, [WriteCall(path, CreatePayload(s))])
  {
  }

  /** Create, once the role is written: the payload is stored at the path, the
      role-id write happens exactly when a role id is given, and a failing
      role-id write is returned with the id already set. */
  lemma CreateRoleIdWrite(s: RoleState, store: Store, writeRoleId: Outcome, readRole: Outcome, readRoleId: Outcome)
    ensures var e := CreateSpec(s, store, Ok, writeRoleId, readRole, readRoleId);
      var path := RolePath(s.backend, s.roleName);
      && e.calls[0] == WriteCall(path, CreatePayload(s))
      && path in e.store && e.store[path] == CreatePayload(s)
      && (WriteCall(path + RoleIdSuffix, RoleIdFields(s.roleId)) in e.calls <==> s.roleId != "")
      && (s.roleId != "" && writeRoleId != Ok ==>
            e.state == s.(id := path) && e.err == Some(RoleIdWriteFailed(path)) && |e.calls| == 2)
  {
    var path := RolePath(s.backend, s.roleName);
    var first := WriteCall(path, CreatePayload(s));
    SuffixDiffers(path);
    FinishCalls(s.(id := path), store[path := CreatePayload(s)], s.roleId != "",
                RoleIdWriteFailed(path), writeRoleId, readRole, readRoleId);
  }

  /** The role-id path differs from the role's path. A generic fact about
      appending a non-empty suffix, stated separately as a proof step. */
  lemma SuffixDiffers(path: string)
    ensures path + RoleIdSuffix != path
  {
    assert |path + RoleIdSuffix| > |path|;
  }

  /** What the tail shared by Create and Update does to the calls and the
      store: the role-id write is among the calls exactly when it is due, the
      store gains at most the role id, and that write's failure ends the
      operation with the attributes as they were. */
  lemma FinishCalls(s: RoleState, store: Store, writesRoleId: bool, idFailure: RoleError,
                    writeRoleId: Outcome, readRole: Outcome, readRoleId: Outcome)
    ensures var f := FinishSpec(s, store, writesRoleId, idFailure, writeRoleId, readRole, readRoleId);
      var second := WriteCall(s.id + RoleIdSuffix, RoleIdFields(s.roleId));
      && (second in f.calls <==> writesRoleId)
      && (f.store == store || f.store == store[s.id + RoleIdSuffix := RoleIdFields(s.roleId)])
      && (writesRoleId && writeRoleId != Ok ==> f.state == s && f.err == Some(idFailure) && f.calls == [second])
  {
    var f := FinishSpec(s, store, writesRoleId, idFailure, writeRoleId, readRole, readRoleId);
    var second := WriteCall(s.id + RoleIdSuffix, RoleIdFields(s.roleId));
    if !writesRoleId {
      ReadOnlyReads(s, store, readRole, readRoleId);
      assert second !in f.calls;
    } else if writeRoleId == Ok {
      assert f.calls[0] == second;
    }
  }

  /** Create ends with the Read of the new path against the store it wrote,
      unless one of its writes failed. */
  lemma CreateEndsWithRead(s: RoleState, store: Store, writeRoleId: Outcome, readRole: Outcome, readRoleId: Outcome)
    requires s.roleId == "" || writeRoleId == Ok
    ensures var e := CreateSpec(s, store, Ok, writeRoleId, readRole, readRoleId);
      var r := ReadSpec(s.(id := RolePath(s.backend, s.roleName)), e.store, readRole, readRoleId);
      && e.state == r.state && e.err == r.err
      && |r.calls| < |e.calls| && e.calls[|e.calls| - |r.calls|..] == r.calls
  {
    var path := RolePath(s.backend, s.roleName);
    var created := s.(id := path);
    var withRole := store[path := CreatePayload(s)];
    var first := WriteCall(path, CreatePayload(s));
    var e := CreateSpec(s, store, Ok, writeRoleId, readRole, readRoleId);
    if s.roleId == "" {
      var r := ReadSpec(created, withRole, readRole, readRoleId);
      assert e == Effect(r.state, r.err, withRole, [first] + r.calls);
      SuffixOfJoin([first], r.calls);
    } else {
      var final := withRole[path + RoleIdSuffix := RoleIdFields(s.roleId)];
      var r := ReadSpec(created, final, readRole, readRoleId);
      var second := WriteCall(path + RoleIdSuffix, RoleIdFields(s.roleId));
      assert e == Effect(r.state, r.err, final, [first] + ([second] + r.calls));
      AppendAssoc([first], [second], r.calls);
      SuffixOfJoin([first] + [second], r.calls);
    }
  }

  /** The tail of `a + b` of length `|b|` is `b`. A generic sequence fact,
      stated separately so the verifier need not rediscover it. */
  lemma SuffixOfJoin(a: seq<Call>, b: seq<Call>)
    ensures (a + b)[|a + b| - |b|..] == b
  {
  }

  /** The attributes a successful Create leaves, once its Read has run. */
  function Restored(s: RoleState): RoleState {
    s.(id := RolePath(s.backend, s.roleName),
       backend := Trim(s.backend), roleName := Trim(s.roleName),
       tokenPolicies := if s.policies != {} then {} else s.tokenPolicies,
       tokenPeriod := if s.period != 0 then 0 else s.tokenPeriod)
  }

  /** Create followed by its Read, everything succeeding: the id is the
      canonical path, the mount and the name come back trimmed, every field
      comes back as it was written, and a deprecated field in use clears its
      current counterpart. The role id comes back when one was given, or when
      nothing is stored under the role-id path. */
  lemma CreateThenReadRestores(s: RoleState, store: Store)
    requires Trim(s.backend) != [] && Trim(s.roleName) != []
    requires '\n' !in Trim(s.backend) && '\n' !in Trim(s.roleName)
    requires !ContainsSeparator("/" + Trim(s.roleName))
    requires s.roleId != "" || RolePath(s.backend, s.roleName) + RoleIdSuffix !in store
    ensures var e := CreateSpec(s, store, Ok, Ok, Ok, Ok);
      e.err == None && e.state == Restored(s)
  {
    var path := RolePath(s.backend, s.roleName);
    DecodeEncode(s.backend, s.roleName);
    var e := CreateSpec(s, store, Ok, Ok, Ok, Ok);
    CreateEndsWithRead(s, store, Ok, Ok, Ok);
    CreateRoleIdWrite(s, store, Ok, Ok, Ok);
    assert path + RoleIdSuffix != path by {
      assert |path + RoleIdSuffix| > |path|;
    }
    var withRole := store[path := CreatePayload(s)];
    assert e.store == if s.roleId == "" then withRole else withRole[path + RoleIdSuffix := RoleIdFields(s.roleId)];
    ReadBackCreated(s, e.store);
  }

  /** The Read of a freshly created role against a store holding its payload. */
  lemma ReadBackCreated(s: RoleState, store: Store)
    requires BackendFromPath(RolePath(s.backend, s.roleName)) == Success(Trim(s.backend))
    requires NameFromPath(RolePath(s.backend, s.roleName)) == Success(Trim(s.roleName))
    requires var path := RolePath(s.backend, s.roleName);
      path in store && store[path] == CreatePayload(s)
    requires var idPath := RolePath(s.backend, s.roleName) + RoleIdSuffix;
      if s.roleId == "" then idPath !in store else idPath in store && store[idPath] == RoleIdFields(s.roleId)
    ensures var r := ReadSpec(s.(id := RolePath(s.backend, s.roleName)), store, Ok, Ok);
      r.err == None && r.state == Restored(s)
  {
    var path := RolePath(s.backend, s.roleName);
    ReconciledCreated(s);
    assert path + RoleIdSuffix != path by {
      assert |path + RoleIdSuffix| > |path|;
    }
    if s.roleId != "" {
      RoleIdReadBack(Restored(s));
    }
  }

  /** Reading back the role id that was written leaves the attributes as
      they are. */
  lemma RoleIdReadBack(x: RoleState)
    ensures WithField(x, KeyRoleId, Lookup(RoleIdFields(x.roleId), KeyRoleId)) == x
  {
  }

  /** The response map of a freshly created role, applied to its attributes. */
  lemma ReconciledCreated(s: RoleState)
    ensures Reconciled(s.(id := RolePath(s.backend, s.roleName)), Trim(s.backend), Trim(s.roleName), CreatePayload(s))
         == Restored(s)
  {
    var created := s.(id := RolePath(s.backend, s.roleName));
    var data := CreatePayload(s);
    CreatePayloadFields(s);
    ReconciledFields(created, Trim(s.backend), Trim(s.roleName), data);
    PairsRestored(created.(backend := Trim(s.backend), roleName := Trim(s.roleName)), s);
  }

  /** Resolving the pairs of `n` against the create payload of `s`, where `n`
      agrees with `s` on the pairs, gives back the pairs of `s`, with the
      current field of a deprecated field in use cleared. */
  lemma PairsRestored(n: RoleState, s: RoleState)
    requires n.boundCidrList == s.boundCidrList && n.secretIdBoundCidrs == s.secretIdBoundCidrs
    requires n.policies == s.policies && n.tokenPolicies == s.tokenPolicies
    requires n.period == s.period && n.tokenPeriod == s.tokenPeriod
    ensures var c := ResolveCidrs(n, CreatePayload(s));
      c.boundCidrList == s.boundCidrList && c.secretIdBoundCidrs == s.secretIdBoundCidrs
    ensures var p := ResolveLegacy(n, KeyPolicies, KeyTokenPolicies, CreatePayload(s));
      p.policies == s.policies && p.tokenPolicies == (if s.policies != {} then {} else s.tokenPolicies)
    ensures var p := ResolveLegacy(n, KeyPeriod, KeyTokenPeriod, CreatePayload(s));
      p.period == s.period && p.tokenPeriod == (if s.period != 0 then 0 else s.tokenPeriod)
  {
    CreatePayloadFields(s);
    CidrResolution(n, CreatePayload(s));
    PoliciesResolution(n, CreatePayload(s));
    PeriodResolution(n, CreatePayload(s));
  }

  /** Update: a failing primary write is returned at once with the id kept
      and nothing else called. */
  lemma UpdateStopsOnWriteFailure(s: RoleState, changed: set<string>, store: Store, writeRole: Outcome,
                                  writeRoleId: Outcome, readRole: Outcome, readRoleId: Outcome)
    requires writeRole != Ok
    ensures UpdateSpec(s, changed, store, writeRole, writeRoleId, readRole, readRoleId)
         == Effect(s, Some(UpdateFailed(s.id)), store, [WriteCall(s.id, UpdatePayload(s, changed))])
  {
  }

  /** Update, once the role is written: the changed fields are stored at the
      id, the role-id write happens exactly when the role id changed, and a
      failing role-id write is returned with the attributes unchanged. */
  lemma UpdateRoleIdWrite(s: RoleState, changed: set<string>, store: Store, writeRoleId: Outcome,
                          readRole: Outcome, readRoleId: Outcome)
    ensures var e := UpdateSpec(s, changed, store, Ok, writeRoleId, readRole, readRoleId);
      && e.calls[0] == WriteCall(s.id, UpdatePayload(s, changed))
      && s.id in e.store && e.store[s.id] == UpdatePayload(s, changed)
      && (WriteCall(s.id + RoleIdSuffix, RoleIdFields(s.roleId)) in e.calls <==> KeyRoleId in changed)
      && (KeyRoleId in changed && writeRoleId != Ok ==>
            e.state == s && e.err == Some(RoleIdUpdateFailed(s.id)) && |e.calls| == 2)
  {
    SuffixDiffers(s.id);
    FinishCalls(s, store[s.id := UpdatePayload(s, changed)], KeyRoleId in changed,
                RoleIdUpdateFailed(s.id), writeRoleId, readRole, readRoleId);
  }

  /** Update ends with the Read of its id against the store it wrote, unless
      one of its writes failed. */
  lemma UpdateEndsWithRead(s: RoleState, changed: set<string>, store: Store, writeRoleId: Outcome,
                           readRole: Outcome, readRoleId: Outcome)
    requires KeyRoleId !in changed || writeRoleId == Ok
    ensures var e := UpdateSpec(s, changed, store, Ok, writeRoleId, readRole, readRoleId);
      var r := ReadSpec(s, e.store, readRole, readRoleId);
      && e.state == r.state && e.err == r.err
      && |r.calls| < |e.calls| && e.calls[|e.calls| - |r.calls|..] == r.calls
  {
    var withRole := store[s.id := UpdatePayload(s, changed)];
    var first := WriteCall(s.id, UpdatePayload(s, changed));
    var e := UpdateSpec(s, changed, store, Ok, writeRoleId, readRole, readRoleId);
    if KeyRoleId !in changed {
      var r := ReadSpec(s, withRole, readRole, readRoleId);
      assert e == Effect(r.state, r.err, withRole, [first] + r.calls);
      SuffixOfJoin([first], r.calls);
    } else {
      var final := withRole[s.id + RoleIdSuffix := RoleIdFields(s.roleId)];
      var r := ReadSpec(s, final, readRole, readRoleId);
      var second := WriteCall(s.id + RoleIdSuffix, RoleIdFields(s.roleId));
      assert e == Effect(r.state, r.err, final, [first] + ([second] + r.calls));
      AppendAssoc([first], [second], r.calls);
      SuffixOfJoin([first] + [second], r.calls);
    }
  }
}
