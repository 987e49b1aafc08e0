/**
  The lifecycle of an AppRole role resource: Create, Read, Update, Delete,
  Exists and the passthrough Import, each a fixed sequence of calls to the
  secret store between changes to the resource data.
*/
module Controller {
  import opened Wrappers
  import opened Values
  import opened Paths
  import opened State
  import opened Payload
  import opened Client
  import opened Reconcile

  /** The role id lives at its own sub-path of the role. */
  const RoleIdSuffix: string := "/role-id"

  /** The errors the operations return, each naming the role's path. */
  datatype RoleError =
    | InvalidPath(path: string, cause: PathError)
    | WriteFailed(path: string)
    | RoleIdWriteFailed(path: string)
    | UpdateFailed(path: string)
    | RoleIdUpdateFailed(path: string)
    | ReadFailed(path: string)
    | RoleIdReadFailed(path: string)
    | DeleteFailed(path: string)
    | ExistsFailed(path: string)

  /** The payload of a role-id write. */
  function RoleIdFields(roleId: string): Fields {
    map[KeyRoleId := VStr(roleId)]
  }

  /** What a Read does: the attributes afterwards, its error, its calls. */
  datatype ReadEffect = ReadEffect(state: RoleState, err: Option<RoleError>, calls: seq<Call>)

  /** The specification of Read, for local attributes `s` against `store`,
      with the outcomes of its primary and role-id reads. */
  function ReadSpec(s: RoleState, store: Store, primary: Outcome, secondary: Outcome): ReadEffect {
    var path := s.id;
    match BackendFromPath(path)
    case Failure(e) => ReadEffect(s, Some(InvalidPath(path, e)), [])
    case Success(backend) =>
      var role := NameFromPath(path).value;
      match ReplyOf(store, path, primary)
      case ReadError => ReadEffect(s, Some(ReadFailed(path)), [ReadCall(path)])
      case NoData => ReadEffect(s.(id := ""), None, [ReadCall(path)])
      case Data(data) =>
        var refreshed := Reconciled(s, backend, role, data);
        var calls := [ReadCall(path), ReadCall(path + RoleIdSuffix)];
        match ReplyOf(store, path + RoleIdSuffix, secondary)
        case ReadError => ReadEffect(refreshed, Some(RoleIdReadFailed(path)), calls)
        case NoData => ReadEffect(refreshed, None, calls)
        case Data(idData) => ReadEffect(WithField(refreshed, KeyRoleId, Lookup(idData, KeyRoleId)), None, calls)
  }

  /** `approleAuthBackendRoleRead`. */
  method Read(d: RoleData, c: FakeClient, primary: Outcome, secondary: Outcome)
    returns (err: Option<RoleError>)
    modifies d, c`log
    ensures var r := ReadSpec(old(d.State()), c.store, primary, secondary);
      d.State() == r.state && err == r.err && c.log == old(c.log) + r.calls
  {
    ghost var log0 := c.log;
    var path := d.id;
    var backend := BackendFromPath(path);
    if backend.Failure? {
      return Some(InvalidPath(path, backend.error));
    }
    // The name decoder accepts exactly what the mount decoder accepts, so it
    // cannot fail here.
    var role := NameFromPath(path).value;
    var reply := c.Read(path, primary);
    if reply.ReadError? {
      return Some(ReadFailed(path));
    }
    if reply.NoData? {
      d.SetId("");
      return None;
    }
    Refresh(d, backend.value, role, reply.fields);
    var idReply := c.Read(path + RoleIdSuffix, secondary);
    assert c.log == log0 + [ReadCall(path), ReadCall(path + RoleIdSuffix)];
    if idReply.ReadError? {
      return Some(RoleIdReadFailed(path));
    }
    if idReply.Data? {
      d.Set(KeyRoleId, Lookup(idReply.fields, KeyRoleId));
    }
    return None;
  }

  /** The attribute updates of a Read that found the role: mount and name
      from the path, then the fields of the response `data`. */
  method Refresh(d: RoleData, backend: string, role: string, data: Fields)
    modifies d
    ensures d.State() == Reconciled(old(d.State()), backend, role, data)
  {
    d.Set(KeyBackend, Some(VStr(backend)));
    d.Set(KeyRoleName, Some(VStr(role)));
    // The token fields' own reader (`readTokenFields`) runs here; it is not
    // part of this model.
    ResolveCidrLists(d, data);
    ResolveDeprecated(d, KeyPolicies, KeyTokenPolicies, data);
    ResolveDeprecated(d, KeyPeriod, KeyTokenPeriod, data);
    var keys := ScalarKeys;
    ghost var before := d.State();
    for i := 0 to |keys|
      invariant d.State() == SetEach(before, keys[..i], data)
    {
      d.Set(keys[i], Lookup(data, keys[i]));
      assert keys[..i + 1][..i] == keys[..i];
    }
    assert keys[..|keys|] == keys;
  }

  /** The CIDR pair, whose deprecated field falls back to the current key. */
  method ResolveCidrLists(d: RoleData, data: Fields)
    modifies d
    ensures d.State() == ResolveCidrs(old(d.State()), data)
  {
    if GetOk(d.State(), KeyBoundCidrList) {
      if KeyBoundCidrList in data {
        d.Set(KeyBoundCidrList, Some(data[KeyBoundCidrList]));
      } else if KeySecretIdBoundCidrs in data {
        d.Set(KeyBoundCidrList, Some(data[KeySecretIdBoundCidrs]));
      }
    } else if KeySecretIdBoundCidrs in data {
      d.Set(KeySecretIdBoundCidrs, Some(data[KeySecretIdBoundCidrs]));
    }
  }

  /** One deprecated/current pair without fallback, step by step. */
  method ResolveDeprecated(d: RoleData, legacy: string, current: string, data: Fields)
    modifies d
    ensures d.State() == ResolveLegacy(old(d.State()), legacy, current, data)
  {
    if GetOk(d.State(), legacy) {
      if GetOk(d.State(), current) {
        d.Set(current, None);
      }
      if legacy in data {
        d.Set(legacy, Some(data[legacy]));
      }
    }
  }

  /** What a writing operation does: the attributes afterwards, its error,
      the store afterwards and its calls. */
  datatype Effect = Effect(state: RoleState, err: Option<RoleError>, store: Store, calls: seq<Call>)

  /** The common tail of Create and Update once the role is written and `s.id`
      is its path: write the role id when `writesRoleId`, failing with
      `idFailure`, and then Read. */
  function FinishSpec(s: RoleState, store: Store, writesRoleId: bool, idFailure: RoleError,
                      writeRoleId: Outcome, readRole: Outcome, readRoleId: Outcome): Effect {
    if !writesRoleId then
      var r := ReadSpec(s, store, readRole, readRoleId);
      Effect(r.state, r.err, store, r.calls)
    else
      var idPath := s.id + RoleIdSuffix;
      var second := WriteCall(idPath, RoleIdFields(s.roleId));
      if writeRoleId != Ok then Effect(s, Some(idFailure), store, [second])
      else
        var withId := store[idPath := RoleIdFields(s.roleId)];
        var r := ReadSpec(s, withId, readRole, readRoleId);
        Effect(r.state, r.err, withId, [second] + r.calls)
  }

  /** Concatenation of call logs is associative. A generic sequence fact,
      stated separately so the verifier need not rediscover it. */
  lemma AppendAssoc(a: seq<Call>, b: seq<Call>, c: seq<Call>)
    ensures (a + b) + c == a + (b + c)
  {
  }

  /** `first` followed by the effect `e`. */
  function After(first: Call, e: Effect): Effect {
    e.(calls := [first] + e.calls)
  }

  /** The role-id write and Read that end Create and Update. */
  method Finish(d: RoleData, c: FakeClient, writesRoleId: bool, idFailure: RoleError,
                writeRoleId: Outcome, readRole: Outcome, readRoleId: Outcome)
    returns (err: Option<RoleError>)
    modifies d, c
    ensures var e := FinishSpec(old(d.State()), old(c.store), writesRoleId, idFailure, writeRoleId, readRole, readRoleId);
      d.State() == e.state && err == e.err && c.store == e.store && c.log == old(c.log) + e.calls
  {
    ghost var s := d.State();
    ghost var store0 := c.store;
    ghost var log0 := c.log;
    ghost var prior: seq<Call> := [];
    ghost var store1 := store0;
    if writesRoleId {
      var idErr := c.Write(d.id + RoleIdSuffix, RoleIdFields(d.roleId), writeRoleId);
      prior := [WriteCall(s.id + RoleIdSuffix, RoleIdFields(s.roleId))];
      if idErr.Some? {
        return Some(idFailure);
      }
      store1 := store0[s.id + RoleIdSuffix := RoleIdFields(s.roleId)];
    }
    assert c.store == store1 && c.log == log0 + prior && d.State() == s;
    ghost var r := ReadSpec(s, store1, readRole, readRoleId);
    assert FinishSpec(s, store0, writesRoleId, idFailure, writeRoleId, readRole, readRoleId)
        == Effect(r.state, r.err, store1, prior + r.calls);
    err := Read(d, c, readRole, readRoleId);
    AppendAssoc(log0, prior, r.calls);
  }

  /** The specification of Create for local attributes `s` against `store`. */
  function CreateSpec(s: RoleState, store: Store, writeRole: Outcome, writeRoleId: Outcome,
                      readRole: Outcome, readRoleId: Outcome): Effect {
    var path := RolePath(s.backend, s.roleName);
    var first := WriteCall(path, CreatePayload(s));
    if writeRole != Ok then Effect(s, Some(WriteFailed(path)), store, [first])
    else
      After(first, FinishSpec(s.(id := path), store[path := CreatePayload(s)], s.roleId != "",
                              RoleIdWriteFailed(path), writeRoleId, readRole, readRoleId))
  }

  /** `approleAuthBackendRoleCreate`: write the role, set the id, write the
      role id when one is given, then Read. */
  method Create(d: RoleData, c: FakeClient, writeRole: Outcome, writeRoleId: Outcome,
                readRole: Outcome, readRoleId: Outcome)
    returns (err: Option<RoleError>)
    modifies d, c
    ensures var e := CreateSpec(old(d.State()), old(c.store), writeRole, writeRoleId, readRole, readRoleId);
      d.State() == e.state && err == e.err && c.store == e.store && c.log == old(c.log) + e.calls
  {
    ghost var log0 := c.log;
    var path := RolePath(d.backend, d.roleName);
    var data := UpdateFields(d.State(), d.changed, map[], true);
    MergeIntoEmpty(CreatePayload(old(d.State())));
    var writeErr := c.Write(path, data, writeRole);
    if writeErr.Some? {
      return Some(WriteFailed(path));
    }
    d.SetId(path);
    var writesRoleId := GetOk(d.State(), KeyRoleId);
    ghost var finish := FinishSpec(d.State(), c.store, writesRoleId, RoleIdWriteFailed(path), writeRoleId, readRole, readRoleId);
    err := Finish(d, c, writesRoleId, RoleIdWriteFailed(path), writeRoleId, readRole, readRoleId);
    AppendAssoc(log0, [WriteCall(path, data)], finish.calls);
  }

  /** The specification of Update for local attributes `s`, the set of
      attributes changed in the configuration, against `store`. */
  function UpdateSpec(s: RoleState, changed: set<string>, store: Store, writeRole: Outcome,
                      writeRoleId: Outcome, readRole: Outcome, readRoleId: Outcome): Effect {
    var first := WriteCall(s.id, UpdatePayload(s, changed));
    if writeRole != Ok then Effect(s, Some(UpdateFailed(s.id)), store, [first])
    else
      After(first, FinishSpec(s, store[s.id := UpdatePayload(s, changed)], KeyRoleId in changed,
                              RoleIdUpdateFailed(s.id), writeRoleId, readRole, readRoleId))
  }

  /** `approleAuthBackendRoleUpdate`: write the changed fields, keep the id,
      write the role id when it changed, then Read. */
  method Update(d: RoleData, c: FakeClient, writeRole: Outcome, writeRoleId: Outcome,
                readRole: Outcome, readRoleId: Outcome)
    returns (err: Option<RoleError>)
    modifies d, c
    ensures var e := UpdateSpec(old(d.State()), d.changed, old(c.store), writeRole, writeRoleId, readRole, readRoleId);
      d.State() == e.state && err == e.err && c.store == e.store && c.log == old(c.log) + e.calls
  {
    ghost var log0 := c.log;
    var path := d.id;
    var data := UpdateFields(d.State(), d.changed, map[], false);
    MergeIntoEmpty(UpdatePayload(old(d.State()), d.changed));
    var writeErr := c.Write(path, data, writeRole);
    d.SetId(path);
    if writeErr.Some? {
      return Some(UpdateFailed(path));
    }
    ghost var finish := FinishSpec(d.State(), c.store, KeyRoleId in d.changed, RoleIdUpdateFailed(path), writeRoleId, readRole, readRoleId);
    err := Finish(d, c, KeyRoleId in d.changed, RoleIdUpdateFailed(path), writeRoleId, readRole, readRoleId);
    AppendAssoc(log0, [WriteCall(path, data)], finish.calls);
  }

  /** `approleAuthBackendRoleDelete`: a 404 clears the id and succeeds, any
      other error is returned with the id kept. */
  method Delete(d: RoleData, c: FakeClient, outcome: Outcome) returns (err: Option<RoleError>)
    modifies d, c
    ensures c.store == Deleted(old(c.store), old(d.id), outcome)
    ensures c.log == old(c.log) + [DeleteCall(old(d.id))]
    ensures outcome == Ok ==> err == None && d.State() == old(d.State())
    ensures outcome == NotFound ==> err == None && d.State() == old(d.State()).(id := "")
    ensures outcome == Failed ==> err == Some(DeleteFailed(old(d.id))) && d.State() == old(d.State())
  {
    var path := d.id;
    var deleteErr := c.Delete(path, outcome);
    if deleteErr.Some? && deleteErr.value != Status404 {
      return Some(DeleteFailed(path));
    } else if deleteErr.Some? {
      d.SetId("");
      return None;
    }
    return None;
  }

  /** `approleAuthBackendRoleExists`: whether the primary read returns a
      response; `true` together with the error when the read fails. */
  method Exists(d: RoleData, c: FakeClient, outcome: Outcome) returns (found: bool, err: Option<RoleError>)
    modifies c`log
    ensures c.log == old(c.log) + [ReadCall(d.id)]
    ensures ReplyOf(c.store, d.id, outcome).ReadError? ==> found && err == Some(ExistsFailed(d.id))
    ensures !ReplyOf(c.store, d.id, outcome).ReadError? ==>
      err == None && (found <==> ReplyOf(c.store, d.id, outcome).Data?)
  {
    var path := d.id;
    var reply := c.Read(path, outcome);
    if reply.ReadError? {
      return true, Some(ExistsFailed(path));
    }
    return reply.Data?, None;
  }

  /** Passthrough import: the framework takes the given path verbatim as the
      id, the importer adds nothing, and the framework then reads the role. */
  method Import(d: RoleData, c: FakeClient, rawPath: string, readRole: Outcome, readRoleId: Outcome)
    returns (err: Option<RoleError>)
    modifies d, c`log
    ensures var r := ReadSpec(old(d.State()).(id := rawPath), c.store, readRole, readRoleId);
      d.State() == r.state && err == r.err && c.log == old(c.log) + r.calls
  {
    d.SetId(rawPath);
    err := Read(d, c, readRole, readRoleId);
  }

  /** A role removed from the store behind the resource's back: Exists on
      its path answers `false` without error, and the Delete that follows
      gets a 404, succeeds and clears the id, leaving the store as it was. */
  method ExistsThenDeleteAbsent(d: RoleData, c: FakeClient)
    returns (found: bool, existsErr: Option<RoleError>, deleteErr: Option<RoleError>)
    requires d.id !in c.store
    modifies d, c
    ensures !found && existsErr == None
    ensures deleteErr == None && d.id == "" && c.store == old(c.store)
    ensures c.log == old(c.log) + [ReadCall(old(d.id)), DeleteCall(old(d.id))]
  {
    found, existsErr := Exists(d, c, Ok);
    deleteErr := Delete(d, c, NotFound);
  }
}
