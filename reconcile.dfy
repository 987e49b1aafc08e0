/**
  How Read refreshes the local attributes from a role's response, deciding
  for each deprecated/current pair which one to refresh:
  `bound_cidr_list`/`secret_id_bound_cidrs`, `policies`/`token_policies` and
  `period`/`token_period`. "In use" means `GetOk`: a non-empty set or a
  non-zero number, so an empty deprecated list counts as not in use.
*/
module Reconcile {
  import opened Wrappers
  import opened Values
  import opened State

  /** The CIDR pair. With the deprecated list in use it is refreshed from the
      response's `bound_cidr_list`, or else from its `secret_id_bound_cidrs`;
      otherwise only `secret_id_bound_cidrs` is refreshed, when present. */
  function ResolveCidrs(s: RoleState, data: Fields): RoleState {
    if GetOk(s, KeyBoundCidrList) then
      if KeyBoundCidrList in data then WithField(s, KeyBoundCidrList, Some(data[KeyBoundCidrList]))
      else if KeySecretIdBoundCidrs in data then WithField(s, KeyBoundCidrList, Some(data[KeySecretIdBoundCidrs]))
      else s
    else if KeySecretIdBoundCidrs in data then WithField(s, KeySecretIdBoundCidrs, Some(data[KeySecretIdBoundCidrs]))
    else s
  }

  /** A deprecated attribute with a current replacement and no fallback key
      (the policies and the period pairs). With the deprecated one in use, the
      current one is cleared when set and the deprecated one is refreshed
      when the response has it; otherwise nothing changes. */
  function ResolveLegacy(s: RoleState, legacy: string, current: string, data: Fields): RoleState {
    if GetOk(s, legacy) then
      var cleared := if GetOk(s, current) then WithField(s, current, None) else s;
      if legacy in data then WithField(cleared, legacy, Some(data[legacy])) else cleared
    else s
  }

  /** The attributes Read copies from the response unconditionally. */
  const ScalarKeys: seq<string> := [KeyBindSecretId, KeySecretIdNumUses, KeySecretIdTtl]

  /** The attributes after Read has seen the role's response `data` for the
      path that decoded to (`backend`, `role`). */
  function Reconciled(s: RoleState, backend: string, role: string, data: Fields): RoleState {
    var named := WithField(WithField(s, KeyBackend, Some(VStr(backend))), KeyRoleName, Some(VStr(role)));
    // The token fields' own reader (`readTokenFields`) runs here, before the
    // deprecation logic; it is not part of this model.
    var cidrs := ResolveCidrs(named, data);
    var policies := ResolveLegacy(cidrs, KeyPolicies, KeyTokenPolicies, data);
    var period := ResolveLegacy(policies, KeyPeriod, KeyTokenPeriod, data);
    SetEach(period, ScalarKeys, data)
  }

  /** The CIDR pair resolution, stated on the fields. */
  lemma CidrResolution(s: RoleState, data: Fields)
    ensures s.boundCidrList != {} ==> ResolveCidrs(s, data) == s.(boundCidrList :=
      if KeyBoundCidrList in data then AsStrs(Some(data[KeyBoundCidrList]))
      else if KeySecretIdBoundCidrs in data then AsStrs(Some(data[KeySecretIdBoundCidrs]))
      else s.boundCidrList)
    ensures s.boundCidrList == {} ==> ResolveCidrs(s, data) == s.(secretIdBoundCidrs :=
      if KeySecretIdBoundCidrs in data then AsStrs(Some(data[KeySecretIdBoundCidrs]))
      else s.secretIdBoundCidrs)
  {
  }

  /** The policies pair: with `policies` in use, `token_policies` ends up
      empty and `policies` is refreshed when the response has it; with
      `policies` empty nothing changes. */
  lemma PoliciesResolution(s: RoleState, data: Fields)
    ensures s.policies != {} ==>
      ResolveLegacy(s, KeyPolicies, KeyTokenPolicies, data) ==
      s.(tokenPolicies := {},
         policies := if KeyPolicies in data then AsStrs(Some(data[KeyPolicies])) else s.policies)
    ensures s.policies == {} ==> ResolveLegacy(s, KeyPolicies, KeyTokenPolicies, data) == s
  {
  }

  /** The period pair, the same rule on numbers. */
  lemma PeriodResolution(s: RoleState, data: Fields)
    ensures s.period != 0 ==>
      ResolveLegacy(s, KeyPeriod, KeyTokenPeriod, data) ==
      s.(tokenPeriod := 0,
         period := if KeyPeriod in data then AsInt(Some(data[KeyPeriod])) else s.period)
    ensures s.period == 0 ==> ResolveLegacy(s, KeyPeriod, KeyTokenPeriod, data) == s
  {
  }

  /** What Read's primary response does to the attributes: the mount and the
      name come from the path, the three scalars from the response (nil
      giving "unset"), each pair follows its resolution rule, and the id and
      the role id are untouched. */
  lemma {:induction false} ReconciledFields(s: RoleState, backend: string, role: string, data: Fields)
    ensures var r := Reconciled(s, backend, role, data);
      var named := s.(backend := backend, roleName := role);
      && r.id == s.id && r.roleId == s.roleId
      && r.backend == backend && r.roleName == role
      && r.bindSecretId == AsBool(Lookup(data, KeyBindSecretId))
      && r.secretIdNumUses == AsInt(Lookup(data, KeySecretIdNumUses))
      && r.secretIdTtl == AsInt(Lookup(data, KeySecretIdTtl))
      && r.boundCidrList == ResolveCidrs(named, data).boundCidrList
      && r.secretIdBoundCidrs == ResolveCidrs(named, data).secretIdBoundCidrs
      && r.policies == ResolveLegacy(named, KeyPolicies, KeyTokenPolicies, data).policies
      && r.tokenPolicies == ResolveLegacy(named, KeyPolicies, KeyTokenPolicies, data).tokenPolicies
      && r.period == ResolveLegacy(named, KeyPeriod, KeyTokenPeriod, data).period
      && r.tokenPeriod == ResolveLegacy(named, KeyPeriod, KeyTokenPeriod, data).tokenPeriod
  {
    var named := s.(backend := backend, roleName := role);
    assert WithField(WithField(s, KeyBackend, Some(VStr(backend))), KeyRoleName, Some(VStr(role))) == named;
    CidrResolution(named, data);
    var cidrs := ResolveCidrs(named, data);
    PoliciesResolution(named, data);
    PoliciesResolution(cidrs, data);
    var policies := ResolveLegacy(cidrs, KeyPolicies, KeyTokenPolicies, data);
    PeriodResolution(named, data);
    PeriodResolution(policies, data);
    var period := ResolveLegacy(policies, KeyPeriod, KeyTokenPeriod, data);
    ScalarsSet(period, data);
  }

  /** Copying the three scalars sets exactly those three attributes. */
  lemma ScalarsSet(s: RoleState, data: Fields)
    ensures SetEach(s, ScalarKeys, data) == s.(
      bindSecretId := AsBool(Lookup(data, KeyBindSecretId)),
      secretIdNumUses := AsInt(Lookup(data, KeySecretIdNumUses)),
      secretIdTtl := AsInt(Lookup(data, KeySecretIdTtl)))
  {
    var k1, k2 := [KeyBindSecretId], [KeyBindSecretId, KeySecretIdNumUses];
    assert k1[..0] == [] && k2[..1] == k1 && ScalarKeys[..2] == k2;
    assert SetEach(s, k1, data) == WithField(s, KeyBindSecretId, Lookup(data, KeyBindSecretId));
    assert SetEach(s, k2, data) == WithField(SetEach(s, k1, data), KeySecretIdNumUses, Lookup(data, KeySecretIdNumUses));
    assert SetEach(s, ScalarKeys, data) == WithField(SetEach(s, k2, data), KeySecretIdTtl, Lookup(data, KeySecretIdTtl));
  }
}
