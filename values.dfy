/**
  Field values exchanged with the secret store and the names of the role's
  fields, both as keys of a write payload or read response and as attribute
  names of the locally stored resource.
*/
module Values {
  import opened Wrappers

  /** A field value as it travels in a payload or a response. A CIDR or policy
      list is a set of strings: the order in which a set is listed is not fixed. */
  datatype Value = VBool(b: bool) | VInt(i: int) | VStr(s: string) | VStrs(ss: set<string>)

  /** The field map of one write payload or one read response. */
  type Fields = map<string, Value>

  /** `resp.Data[k]` : the value under `k`, or nil when the key is missing. */
  function Lookup(data: Fields, k: string): Option<Value> {
    if k in data then Some(data[k]) else None
  }

  const KeyBackend: string := "backend"
  const KeyRoleName: string := "role_name"
  const KeyRoleId: string := "role_id"
  const KeyBindSecretId: string := "bind_secret_id"
  const KeySecretIdNumUses: string := "secret_id_num_uses"
  const KeySecretIdTtl: string := "secret_id_ttl"
  const KeySecretIdBoundCidrs: string := "secret_id_bound_cidrs"
  const KeyBoundCidrList: string := "bound_cidr_list"
  const KeyPolicies: string := "policies"
  const KeyTokenPolicies: string := "token_policies"
  const KeyPeriod: string := "period"
  const KeyTokenPeriod: string := "token_period"
}
