/**
  The write payload of a role (`approleAuthBackendRoleUpdateFields`). On
  create a field goes into the payload when the caller set it: for
  `bind_secret_id` whenever it is present, even as `false`; for every other
  field only when its value is non-zero or non-empty. On update a field goes
  in exactly when the framework reports it as changed, whatever its value.
*/
module Payload {
  import opened Wrappers
  import opened Values
  import opened State

  /** The seven role fields this projector writes. */
  const PayloadKeys: set<string> := {
    KeyBindSecretId, KeySecretIdNumUses, KeySecretIdTtl, KeySecretIdBoundCidrs,
    KeyPeriod, KeyPolicies, KeyBoundCidrList}

  /** Whether the create payload carries field `k`. */
  predicate OnCreate(s: RoleState, k: string) {
    if k == KeyBindSecretId then s.bindSecretId.Some? else GetOk(s, k)
  }

  /** The current values of the attributes named in `keys`. */
  function Project(s: RoleState, keys: set<string>): Fields {
    map k | k in keys :: Get(s, k)
  }

  /** The payload fields the create rules select. */
  function CreateSelection(s: RoleState): set<string> {
    set k | k in PayloadKeys && OnCreate(s, k)
  }

  /** Reference definition of the create payload. */
  function CreatePayload(s: RoleState): Fields {
    Project(s, CreateSelection(s))
  }

  /** Reference definition of the update payload. */
  function UpdatePayload(s: RoleState, changed: set<string>): Fields {
    Project(s, PayloadKeys * changed)
  }

  /** Filling an empty map yields exactly the payload. A generic map fact,
      stated separately so the verifier need not rediscover it. */
  lemma MergeIntoEmpty(payload: Fields)
    ensures map[] + payload == payload
  {
  }

  /** Fills `data` key by key, as the source does; the result is `data`
      overlaid with the payload of the create or update rules. */
  method UpdateFields(s: RoleState, changed: set<string>, data: Fields, create: bool)
    returns (out: Fields)
    ensures out == data + (if create then CreatePayload(s) else UpdatePayload(s, changed))
  {
    // The token fields' own projector (`updateTokenFields`) runs first; it is
    // not part of this model and adds nothing.
    if create {
      out := FillForCreate(s, data);
    } else {
      out := FillForUpdate(s, changed, data);
    }
  }

  /** The create branch of `UpdateFields`. */
  method FillForCreate(s: RoleState, data: Fields) returns (out: Fields)
    ensures out == data + CreatePayload(s)
  {
    out := data;
    ghost var chosen := CreateSelection(s);
    ghost var seen: set<string> := {};
    assert Project(s, seen * chosen) == map[];
    if s.bindSecretId.Some? {
      out := out[KeyBindSecretId := VBool(s.bindSecretId.value)];
    }
    Extend(data, s, seen, chosen, KeyBindSecretId);
    seen := seen + {KeyBindSecretId};
    assert out == data + Project(s, seen * chosen);
    if GetOk(s, KeySecretIdNumUses) {
      out := out[KeySecretIdNumUses := Get(s, KeySecretIdNumUses)];
    }
    Extend(data, s, seen, chosen, KeySecretIdNumUses);
    seen := seen + {KeySecretIdNumUses};
    assert out == data + Project(s, seen * chosen);
    if GetOk(s, KeySecretIdTtl) {
      out := out[KeySecretIdTtl := Get(s, KeySecretIdTtl)];
    }
    Extend(data, s, seen, chosen, KeySecretIdTtl);
    seen := seen + {KeySecretIdTtl};
    assert out == data + Project(s, seen * chosen);
    if GetOk(s, KeySecretIdBoundCidrs) {
      out := out[KeySecretIdBoundCidrs := Get(s, KeySecretIdBoundCidrs)];
    }
    Extend(data, s, seen, chosen, KeySecretIdBoundCidrs);
    seen := seen + {KeySecretIdBoundCidrs};
    assert out == data + Project(s, seen * chosen);
    if GetOk(s, KeyPeriod) {
      out := out[KeyPeriod := Get(s, KeyPeriod)];
    }
    Extend(data, s, seen, chosen, KeyPeriod);
    seen := seen + {KeyPeriod};
    assert out == data + Project(s, seen * chosen);
    if GetOk(s, KeyPolicies) {
      out := out[KeyPolicies := Get(s, KeyPolicies)];
    }
    Extend(data, s, seen, chosen, KeyPolicies);
    seen := seen + {KeyPolicies};
    assert out == data + Project(s, seen * chosen);
    if GetOk(s, KeyBoundCidrList) {
      out := out[KeyBoundCidrList := Get(s, KeyBoundCidrList)];
    }
    Extend(data, s, seen, chosen, KeyBoundCidrList);
    seen := seen + {KeyBoundCidrList};
    assert out == data + Project(s, seen * chosen);
    assert seen * chosen == chosen;
  }

  /** The update branch of `UpdateFields`. */
  method FillForUpdate(s: RoleState, changed: set<string>, data: Fields) returns (out: Fields)
    ensures out == data + UpdatePayload(s, changed)
  {
    out := data;
    ghost var chosen := changed;
    ghost var seen: set<string> := {};
    assert Project(s, seen * chosen) == map[];
    if KeyBindSecretId in changed {
      out := out[KeyBindSecretId := Get(s, KeyBindSecretId)];
    }
    Extend(data, s, seen, chosen, KeyBindSecretId);
    seen := seen + {KeyBindSecretId};
    assert out == data + Project(s, seen * chosen);
    if KeySecretIdNumUses in changed {
      out := out[KeySecretIdNumUses := Get(s, KeySecretIdNumUses)];
    }
    Extend(data, s, seen, chosen, KeySecretIdNumUses);
    seen := seen + {KeySecretIdNumUses};
    assert out == data + Project(s, seen * chosen);
    if KeySecretIdTtl in changed {
      out := out[KeySecretIdTtl := Get(s, KeySecretIdTtl)];
    }
    Extend(data, s, seen, chosen, KeySecretIdTtl);
    seen := seen + {KeySecretIdTtl};
    assert out == data + Project(s, seen * chosen);
    if KeySecretIdBoundCidrs in changed {
      out := out[KeySecretIdBoundCidrs := Get(s, KeySecretIdBoundCidrs)];
    }
    Extend(data, s, seen, chosen, KeySecretIdBoundCidrs);
    seen := seen + {KeySecretIdBoundCidrs};
    assert out == data + Project(s, seen * chosen);
    if KeyPeriod in changed {
      out := out[KeyPeriod := Get(s, KeyPeriod)];
    }
    Extend(data, s, seen, chosen, KeyPeriod);
    seen := seen + {KeyPeriod};
    assert out == data + Project(s, seen * chosen);
    if KeyPolicies in changed {
      out := out[KeyPolicies := Get(s, KeyPolicies)];
    }
    Extend(data, s, seen, chosen, KeyPolicies);
    seen := seen + {KeyPolicies};
    assert out == data + Project(s, seen * chosen);
    if KeyBoundCidrList in changed {
      out := out[KeyBoundCidrList := Get(s, KeyBoundCidrList)];
    }
    Extend(data, s, seen, chosen, KeyBoundCidrList);
    seen := seen + {KeyBoundCidrList};
    assert out == data + Project(s, seen * chosen);
    assert seen == PayloadKeys;
  }

  /** Looking at one more attribute extends the projected part by that key
      when it is selected. */
  lemma Extend(data: Fields, s: RoleState, seen: set<string>, chosen: set<string>, k: string)
    ensures data + Project(s, (seen + {k}) * chosen) ==
      if k in chosen then (data + Project(s, seen * chosen))[k := Get(s, k)]
      else data + Project(s, seen * chosen)
  {
    if k !in chosen {
      assert (seen + {k}) * chosen == seen * chosen;
    }
  }

  /** The create payload field by field: `bind_secret_id` exactly when
      present (an explicit `false` included), the counters and TTL only when
      non-zero, the lists only when non-empty, and never `role_id`. */
  lemma CreatePayloadFields(s: RoleState)
    ensures var p := CreatePayload(s);
      && (KeyBindSecretId in p <==> s.bindSecretId.Some?)
      && (s.bindSecretId.Some? ==> p[KeyBindSecretId] == VBool(s.bindSecretId.value))
      && (KeySecretIdNumUses in p <==> s.secretIdNumUses != 0)
      && (KeySecretIdNumUses in p ==> p[KeySecretIdNumUses] == VInt(s.secretIdNumUses))
      && (KeySecretIdTtl in p <==> s.secretIdTtl != 0)
      && (KeySecretIdTtl in p ==> p[KeySecretIdTtl] == VInt(s.secretIdTtl))
      && (KeyPeriod in p <==> s.period != 0)
      && (KeyPeriod in p ==> p[KeyPeriod] == VInt(s.period))
      && (KeySecretIdBoundCidrs in p <==> s.secretIdBoundCidrs != {})
      && (KeySecretIdBoundCidrs in p ==> p[KeySecretIdBoundCidrs] == VStrs(s.secretIdBoundCidrs))
      && (KeyPolicies in p <==> s.policies != {})
      && (KeyPolicies in p ==> p[KeyPolicies] == VStrs(s.policies))
      && (KeyBoundCidrList in p <==> s.boundCidrList != {})
      && (KeyBoundCidrList in p ==> p[KeyBoundCidrList] == VStrs(s.boundCidrList))
      && KeyRoleId !in p
      && p.Keys <= PayloadKeys
  {
  }

  /** The update payload holds exactly the changed fields among the seven,
      each with its current value even when that is zero, false or empty. */
  lemma UpdatePayloadFields(s: RoleState, changed: set<string>)
    ensures var p := UpdatePayload(s, changed);
      && p.Keys == PayloadKeys * changed
      && (KeyBindSecretId in p ==> p[KeyBindSecretId] == VBool(s.bindSecretId.GetOr(true)))
      && (KeySecretIdNumUses in p ==> p[KeySecretIdNumUses] == VInt(s.secretIdNumUses))
      && (KeySecretIdTtl in p ==> p[KeySecretIdTtl] == VInt(s.secretIdTtl))
      && (KeyPeriod in p ==> p[KeyPeriod] == VInt(s.period))
      && (KeySecretIdBoundCidrs in p ==> p[KeySecretIdBoundCidrs] == VStrs(s.secretIdBoundCidrs))
      && (KeyPolicies in p ==> p[KeyPolicies] == VStrs(s.policies))
      && (KeyBoundCidrList in p ==> p[KeyBoundCidrList] == VStrs(s.boundCidrList))
  {
  }

  /** An explicit `bind_secret_id = false` and an absent one give different
      create payloads; `secret_id_num_uses = 0` is omitted like an unset
      counter. */
  lemma CreateDistinguishesFalseFromAbsent(s: RoleState)
    ensures CreatePayload(s.(bindSecretId := Some(false)))[KeyBindSecretId] == VBool(false)
    ensures KeyBindSecretId !in CreatePayload(s.(bindSecretId := None))
    ensures KeySecretIdNumUses !in CreatePayload(s.(secretIdNumUses := 0))
  {
    CreatePayloadFields(s.(bindSecretId := Some(false)));
  }
}
