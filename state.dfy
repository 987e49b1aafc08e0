/**
  The locally stored resource: the role's attributes as the resource data
  holds them, how the framework's `GetOk`, `Get` and `Set` act on them, and
  the mutable object that Create, Read, Update and Delete change in place.
*/
module State {
  import opened Wrappers
  import opened Values

  /** A snapshot of the resource's attributes. `bindSecretId` keeps "absent"
      apart from an explicit `false`; every other attribute is a plain value
      whose zero (0, "" or the empty set) is what the framework reports when
      it is unset. */
  datatype RoleState = RoleState(
    id: string,
    backend: string,
    roleName: string,
    roleId: string,
    bindSecretId: Option<bool>,
    secretIdNumUses: int,
    secretIdTtl: int,
    boundCidrList: set<string>,
    secretIdBoundCidrs: set<string>,
    policies: set<string>,
    tokenPolicies: set<string>,
    period: int,
    tokenPeriod: int)

  /** `bind_secret_id` defaults to true in the resource's schema. */
  const DefaultBindSecretId: bool := true

  // Conversions applied by `Set`: a value of the attribute's type is stored
  // as it is; nil (a missing response key) or a value of another type stores
  // the zero value, except for `bind_secret_id`, which is left unset and so
  // reads back as its schema default `true`.

  function AsString(v: Option<Value>): string {
    if v.Some? && v.value.VStr? then v.value.s else ""
  }

  function AsInt(v: Option<Value>): int {
    if v.Some? && v.value.VInt? then v.value.i else 0
  }

  function AsStrs(v: Option<Value>): set<string> {
    if v.Some? && v.value.VStrs? then v.value.ss else {}
  }

  function AsBool(v: Option<Value>): Option<bool> {
    if v.Some? && v.value.VBool? then Some(v.value.b) else None
  }

  /** `d.GetOk(k)`: the attribute is set to a non-zero, non-empty value. */
  predicate GetOk(s: RoleState, k: string) {
    if k == KeyBackend then s.backend != ""
    else if k == KeyRoleName then s.roleName != ""
    else if k == KeyRoleId then s.roleId != ""
    else if k == KeyBindSecretId then s.bindSecretId == Some(true)
    else if k == KeySecretIdNumUses then s.secretIdNumUses != 0
    else if k == KeySecretIdTtl then s.secretIdTtl != 0
    else if k == KeyBoundCidrList then s.boundCidrList != {}
    else if k == KeySecretIdBoundCidrs then s.secretIdBoundCidrs != {}
    else if k == KeyPolicies then s.policies != {}
    else if k == KeyTokenPolicies then s.tokenPolicies != {}
    else if k == KeyPeriod then s.period != 0
    else if k == KeyTokenPeriod then s.tokenPeriod != 0
    else false
  }

  /** `d.Get(k)`: the attribute's value, the schema default for an absent
      `bind_secret_id`. */
  function Get(s: RoleState, k: string): Value {
    if k == KeyBackend then VStr(s.backend)
    else if k == KeyRoleName then VStr(s.roleName)
    else if k == KeyRoleId then VStr(s.roleId)
    else if k == KeyBindSecretId then VBool(s.bindSecretId.GetOr(DefaultBindSecretId))
    else if k == KeySecretIdNumUses then VInt(s.secretIdNumUses)
    else if k == KeySecretIdTtl then VInt(s.secretIdTtl)
    else if k == KeyBoundCidrList then VStrs(s.boundCidrList)
    else if k == KeySecretIdBoundCidrs then VStrs(s.secretIdBoundCidrs)
    else if k == KeyPolicies then VStrs(s.policies)
    else if k == KeyTokenPolicies then VStrs(s.tokenPolicies)
    else if k == KeyPeriod then VInt(s.period)
    else if k == KeyTokenPeriod then VInt(s.tokenPeriod)
    else VStr("")
  }

  /** The attribute names `Set` knows. */
  const AttributeKeys: set<string> := {
    KeyBackend, KeyRoleName, KeyRoleId, KeyBindSecretId, KeySecretIdNumUses,
    KeySecretIdTtl, KeyBoundCidrList, KeySecretIdBoundCidrs, KeyPolicies,
    KeyTokenPolicies, KeyPeriod, KeyTokenPeriod}

  /** The snapshot after `d.Set(k, v)`. */
  function WithField(s: RoleState, k: string, v: Option<Value>): RoleState {
    if k == KeyBackend then s.(backend := AsString(v))
    else if k == KeyRoleName then s.(roleName := AsString(v))
    else if k == KeyRoleId then s.(roleId := AsString(v))
    else if k == KeyBindSecretId then s.(bindSecretId := AsBool(v))
    else if k == KeySecretIdNumUses then s.(secretIdNumUses := AsInt(v))
    else if k == KeySecretIdTtl then s.(secretIdTtl := AsInt(v))
    else if k == KeyBoundCidrList then s.(boundCidrList := AsStrs(v))
    else if k == KeySecretIdBoundCidrs then s.(secretIdBoundCidrs := AsStrs(v))
    else if k == KeyPolicies then s.(policies := AsStrs(v))
    else if k == KeyTokenPolicies then s.(tokenPolicies := AsStrs(v))
    else if k == KeyPeriod then s.(period := AsInt(v))
    else if k == KeyTokenPeriod then s.(tokenPeriod := AsInt(v))
    else s
  }

  /** The snapshot after `d.Set(k, data[k])` for each `k` of `keys` in turn. */
  function SetEach(s: RoleState, keys: seq<string>, data: Fields): RoleState
    decreases |keys|
  {
    if keys == [] then s
    else
      var last := keys[|keys| - 1];
      WithField(SetEach(s, keys[..|keys| - 1], data), last, Lookup(data, last))
  }

  /** A value of the attribute's own type reads back unchanged after `Set`,
      and nil reads back as "not set". */
  lemma SetThenGet(s: RoleState, k: string, v: Value)
    requires k in AttributeKeys
    requires Get(s, k).VBool? == v.VBool? && Get(s, k).VInt? == v.VInt?
    requires Get(s, k).VStr? == v.VStr? && Get(s, k).VStrs? == v.VStrs?
    ensures Get(WithField(s, k, Some(v)), k) == v
    ensures !GetOk(WithField(s, k, None), k)
  {
  }

  /** The resource data of one role, changed in place by the lifecycle
      operations. `changed` is the set of attributes the framework reports as
      changed (`d.HasChange`); the operations never alter it. */
  class RoleData {
    var id: string
    var backend: string
    var roleName: string
    var roleId: string
    var bindSecretId: Option<bool>
    var secretIdNumUses: int
    var secretIdTtl: int
    var boundCidrList: set<string>
    var secretIdBoundCidrs: set<string>
    var policies: set<string>
    var tokenPolicies: set<string>
    var period: int
    var tokenPeriod: int
    const changed: set<string>

    function State(): RoleState
      reads this
    {
      RoleState(id, backend, roleName, roleId, bindSecretId, secretIdNumUses,
                secretIdTtl, boundCidrList, secretIdBoundCidrs, policies,
                tokenPolicies, period, tokenPeriod)
    }

    constructor (s: RoleState, changed: set<string>)
      ensures State() == s && this.changed == changed
    {
      id, backend, roleName, roleId := s.id, s.backend, s.roleName, s.roleId;
      bindSecretId, secretIdNumUses, secretIdTtl := s.bindSecretId, s.secretIdNumUses, s.secretIdTtl;
      boundCidrList, secretIdBoundCidrs := s.boundCidrList, s.secretIdBoundCidrs;
      policies, tokenPolicies := s.policies, s.tokenPolicies;
      period, tokenPeriod := s.period, s.tokenPeriod;
      this.changed := changed;
    }

    /** `d.SetId(v)`. */
    method SetId(v: string)
      modifies this
      ensures State() == old(State()).(id := v)
    {
      id := v;
    }

    /** `d.Set(k, v)`; an attribute name outside the role's schema changes
        nothing. */
    method Set(k: string, v: Option<Value>)
      modifies this
      ensures State() == WithField(old(State()), k, v)
    {
      if k == KeyBackend { backend := AsString(v); }
      else if k == KeyRoleName { roleName := AsString(v); }
      else if k == KeyRoleId { roleId := AsString(v); }
      else if k == KeyBindSecretId { bindSecretId := AsBool(v); }
      else if k == KeySecretIdNumUses { secretIdNumUses := AsInt(v); }
      else if k == KeySecretIdTtl { secretIdTtl := AsInt(v); }
      else if k == KeyBoundCidrList { boundCidrList := AsStrs(v); }
      else if k == KeySecretIdBoundCidrs { secretIdBoundCidrs := AsStrs(v); }
      else if k == KeyPolicies { policies := AsStrs(v); }
      else if k == KeyTokenPolicies { tokenPolicies := AsStrs(v); }
      else if k == KeyPeriod { period := AsInt(v); }
      else if k == KeyTokenPeriod { tokenPeriod := AsInt(v); }
    }
  }
}
