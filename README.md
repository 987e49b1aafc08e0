# AppRole auth backend role — a verified model

This project models the Terraform resource that manages an AppRole role in
HashiCorp Vault (`vault/resource_approle_auth_backend_role.go`). It covers four
parts of that file:

- **Path codec.** `approleAuthBackendRolePath` builds
  `auth/<trimmed mount>/role/<trimmed name>`. The two decoders give back the
  mount and the name through the regular expressions `^auth/(.+)/role/.+$`
  and `^auth/.+/role/(.+)$`. Here those expressions become an explicit split
  at the last `/role/` that has at least one character on either side, with
  no newline anywhere in the path (`Paths`, `PathLemmas`).
- **The payload projector** `approleAuthBackendRoleUpdateFields`. On create
  it sends `bind_secret_id` whenever it is present, and each other field only
  when it is non-zero or non-empty. On update it sends exactly the fields
  marked as changed (`Payload`).
- **Read reconciliation.** A response map refreshes the local attributes, and
  one rule decides each deprecated/current pair: `bound_cidr_list` /
  `secret_id_bound_cidrs`, `policies` / `token_policies` and `period` /
  `token_period` (`Reconcile`).
- **The lifecycle.** Create, Read, Update, Delete, Exists and the passthrough
  importer. Each is a fixed sequence of calls to the secret store between
  changes to the resource data (`Controller`, `Lifecycle`).

The resource data is the class `State.RoleData`. Its fields are the attributes
the code touches, plus the set of attribute names the configuration changed
(`HasChange`). `d.GetOk`, `d.GetOkExists`, `d.Get` and `d.Set` become
`State.GetOk`, an `Option<bool>` for `bind_secret_id`, `State.Get` and
`State.WithField`. The secret store is the class `Client.FakeClient`. It holds
a map from path to field map and a log of the calls made. The outcome of each
call is a parameter: it succeeds, the store answers "not found", or it fails
otherwise. Each lifecycle method is proved against a specification function:
`ReadSpec`, `CreateSpec`, `UpdateSpec` and `FinishSpec`. The lemmas in
`Lifecycle` then state what those functions promise.

Three consequences of the code's use of `GetOk` are easy to miss, and the
model keeps them:

- `secret_id_num_uses = 0` is omitted on create, because line 126 tests it
  with `GetOk`. The same holds for every other zero or empty field except
  `bind_secret_id`, which line 122 tests with `GetOkExists`
  (`Payload.CreatePayloadFields`).
- When the deprecated field of a pair is in use, the CIDR branch (lines
  248-258) leaves `secret_id_bound_cidrs` as it is. By contrast,
  `token_policies` and `token_period` are cleared (lines 264-266, 276-278).
- An empty deprecated set or a zero `period` counts as "not in use" (lines
  248, 261, 273).

## Model

| member | source | states |
|---|---|---|
| Paths.TrimLeft | vault/resource_approle_auth_backend_role.go:370 | the result is a suffix of the input; only `/` characters are dropped; the result does not start with `/` |
| Paths.TrimRight | vault/resource_approle_auth_backend_role.go:370 | the result is a prefix of the input; only `/` characters are dropped; the result does not end with `/` |
| Paths.Trim | vault/resource_approle_auth_backend_role.go:370 | `strings.Trim(s, "/")`: no `/` at either end of the result, never longer than the input, and a string with no `/` at either end is returned unchanged |
| Paths.TrimSlice | vault/resource_approle_auth_backend_role.go:370 | the trimmed string is the slice of the input between a run of leading and a run of trailing `/` |
| Paths.RolePath | vault/resource_approle_auth_backend_role.go:369-371 | the encoder `approleAuthBackendRolePath`: `auth/` + trimmed mount + `/role/` + trimmed name; no contract of its own, its promises are `PathLemmas.DecodeEncode` and `PathLemmas.EncodeDecoded` |
| Paths.LastSplitFrom | vault/resource_approle_auth_backend_role.go:15-16 | the greedy `(.+)` group: the largest split point at or below the bound, or none when no such point exists |
| Paths.SplitPath | vault/resource_approle_auth_backend_role.go:15-16 | matches exactly when the regular expressions do; then the path is `auth/` + mount + `/role/` + name, both parts non-empty, split at the last separator |
| Paths.BackendFromPath | vault/resource_approle_auth_backend_role.go:384-393 | succeeds exactly when the path matches; otherwise fails with "no backend found" |
| Paths.NameFromPath | vault/resource_approle_auth_backend_role.go:373-382 | succeeds exactly when the path matches; otherwise fails with "no role found" |
| PathLemmas.DecodersAgree | vault/resource_approle_auth_backend_role.go:373-393 | the two decoders succeed on the same paths; on success the path is the mount and the name joined by the last `/role/`, and the `len(res) != 2` branches cannot be reached |
| PathLemmas.DecodeAcceptsEverySplit | vault/resource_approle_auth_backend_role.go:15-16 | any `auth/<b>/role/<r>` with non-empty parts and no newline is accepted, with a mount at least as long as `b` |
| PathLemmas.DecodeEncode | vault/resource_approle_auth_backend_role.go:369-393 | decoding the encoded path gives back the trimmed mount and name when both are non-empty, have no newline, and `/` + name holds no `/role/` |
| PathLemmas.SplitJoined | vault/resource_approle_auth_backend_role.go:15-16 | `auth/<b>/role/<r>` splits into `(b, r)` when `/` + `r` holds no separator |
| PathLemmas.EncodeDecoded | vault/resource_approle_auth_backend_role.go:369-371 | re-encoding a decoded path reproduces it exactly when both parts are already trimmed |
| PathLemmas.DecodeRejects | vault/resource_approle_auth_backend_role.go:373-393 | `auth/role/bar`, `auth/b/role/`, `auth//role/r`, a path with a newline and a path without the `auth/` prefix all fail to decode |
| PathLemmas.DecodeSplitsAtLastSeparator | vault/resource_approle_auth_backend_role.go:15-16 | `auth/a/role/b/role/c` decodes to `("a/role/b", "c")`, and `auth/a/role/b/role/` decodes to `("a", "b/role/")` |
| PathLemmas.RoleNamePrefixMovesIntoMount | vault/resource_approle_auth_backend_role.go:369-393 | a role name starting with `role/` does not round-trip: its leading `role` moves into the decoded mount |
| State.SetThenGet | vault/resource_approle_auth_backend_role.go:242-243 | setting an attribute and reading it back gives the stored value; setting it to nil makes `GetOk` false |
| State.RoleData.SetId | vault/resource_approle_auth_backend_role.go:199 | `d.SetId` changes the id and nothing else |
| State.RoleData.Set | vault/resource_approle_auth_backend_role.go:242 | `d.Set` changes one attribute as `WithField` says and nothing else |
| Payload.UpdateFields | vault/resource_approle_auth_backend_role.go:118-180 | the filled map is the given map overlaid with the create payload or the update payload |
| Payload.FillForCreate | vault/resource_approle_auth_backend_role.go:121-149 | key by key, the create branch adds exactly the create payload |
| Payload.FillForUpdate | vault/resource_approle_auth_backend_role.go:150-179 | key by key, the update branch adds exactly the update payload |
| Payload.CreatePayloadFields | vault/resource_approle_auth_backend_role.go:121-149 | `bind_secret_id` is present, even as false, exactly when it is set; the three numbers are present exactly when non-zero and the three sets exactly when non-empty; each value is the attribute's; `role_id` never appears |
| Payload.UpdatePayloadFields | vault/resource_approle_auth_backend_role.go:150-179 | the keys are exactly the changed ones among the seven, each carrying its current value even when zero, false or empty |
| Payload.CreateDistinguishesFalseFromAbsent | vault/resource_approle_auth_backend_role.go:122-124 | an explicit `false` is sent as `false`, while an unset `bind_secret_id` is omitted |
| Reconcile.ResolveCidrs | vault/resource_approle_auth_backend_role.go:246-258 | the CIDR pair rule on the attributes; no contract of its own, its effect is stated by `Reconcile.CidrResolution` |
| Reconcile.ResolveLegacy | vault/resource_approle_auth_backend_role.go:260-282 | the rule shared by the policies and period pairs; no contract of its own, its effect is stated by `Reconcile.PoliciesResolution` and `Reconcile.PeriodResolution` |
| Reconcile.Reconciled | vault/resource_approle_auth_backend_role.go:242-288 | the attributes after a found response; no contract of its own, its effect is stated by `Reconcile.ReconciledFields` |
| Reconcile.CidrResolution | vault/resource_approle_auth_backend_role.go:246-258 | with `bound_cidr_list` in use it is refreshed from `bound_cidr_list`, or else from `secret_id_bound_cidrs`; otherwise only `secret_id_bound_cidrs` is refreshed, when present; nothing else changes |
| Reconcile.PoliciesResolution | vault/resource_approle_auth_backend_role.go:260-270 | with `policies` in use, `token_policies` ends empty and `policies` is refreshed when present; otherwise nothing changes |
| Reconcile.PeriodResolution | vault/resource_approle_auth_backend_role.go:272-282 | with `period` in use, `token_period` ends zero and `period` is refreshed when present; otherwise nothing changes |
| Reconcile.ReconciledFields | vault/resource_approle_auth_backend_role.go:242-288 | after a response: mount and name from the path, the three scalars from the response (nil gives "unset"), each pair by its rule, id and role id untouched |
| Reconcile.ScalarsSet | vault/resource_approle_auth_backend_role.go:284-288 | the loop over the three scalar keys sets exactly those three attributes |
| Client.FakeClient.Write | vault/resource_approle_auth_backend_role.go:195-198 | a successful write replaces the field map at the path; the call is logged and the outcome's error returned |
| Client.FakeClient.Read | vault/resource_approle_auth_backend_role.go:231-234 | a read returns the stored map, nil for a missing path or "not found", or an error; only the log changes |
| Client.FakeClient.Delete | vault/resource_approle_auth_backend_role.go:341-348 | a successful delete removes the path; "not found" is the 404 error |
| Controller.Read | vault/resource_approle_auth_backend_role.go:216-301 | the attributes, the error and the calls are exactly those of `ReadSpec` |
| Controller.Refresh | vault/resource_approle_auth_backend_role.go:242-288 | the `d.Set` steps after a found response produce exactly `Reconciled` |
| Controller.ResolveCidrLists | vault/resource_approle_auth_backend_role.go:246-258 | the CIDR block produces exactly `ResolveCidrs` |
| Controller.ResolveDeprecated | vault/resource_approle_auth_backend_role.go:260-282 | each policies/period block produces exactly `ResolveLegacy` |
| Controller.Finish | vault/resource_approle_auth_backend_role.go:202-213 | the optional role-id write and the closing Read produce exactly `FinishSpec` |
| Controller.Create | vault/resource_approle_auth_backend_role.go:182-214 | attributes, error, store and calls are exactly those of `CreateSpec` |
| Controller.Update | vault/resource_approle_auth_backend_role.go:303-334 | attributes, error, store and calls are exactly those of `UpdateSpec` |
| Controller.Delete | vault/resource_approle_auth_backend_role.go:336-352 | success keeps the id; a 404 clears the id and succeeds; any other error is returned with the id kept |
| Controller.Exists | vault/resource_approle_auth_backend_role.go:354-367 | a read error answers `true` with the error; otherwise the answer is whether the read returned a response |
| Controller.Import | vault/resource_approle_auth_backend_role.go:111-113 | passthrough import takes the given id verbatim and then behaves as Read |
| Controller.ExistsThenDeleteAbsent | vault/resource_approle_auth_backend_role.go:336-366 | for a role path missing from the store, Exists with a successful read answers `false` without error; the Delete that follows gets a 404, succeeds, clears the id and leaves the store as it was |
| Lifecycle.ReadOnlyReads | vault/resource_approle_auth_backend_role.go:216-301 | Read issues only read calls |
| Lifecycle.ReadRejectsUndecodable | vault/resource_approle_auth_backend_role.go:220-228 | an id that does not decode fails with "no backend found", before any call and before any change |
| Lifecycle.ReadStopsOnReadError | vault/resource_approle_auth_backend_role.go:231-234 | a failing primary read is returned after one call, with nothing changed |
| Lifecycle.ReadClearsIdWhenMissing | vault/resource_approle_auth_backend_role.go:236-240 | a nil response clears the id, succeeds and changes nothing else |
| Lifecycle.ReadRefreshes | vault/resource_approle_auth_backend_role.go:242-298 | a found role: mount and name from the path, scalars from the response, pairs by their rules; the role id comes from a non-nil role-id response and is otherwise kept; the role-id read error is returned |
| Lifecycle.CreateStopsOnWriteFailure | vault/resource_approle_auth_backend_role.go:195-198 | a failing primary write is returned at once; id and store unchanged; no role-id write |
| Lifecycle.CreateRoleIdWrite | vault/resource_approle_auth_backend_role.go:199-211 | after the write the payload is stored; the role-id write happens exactly when a role id is given; its failure is returned with the id already set |
| Lifecycle.FinishCalls | vault/resource_approle_auth_backend_role.go:202-211 | the shared tail of Create and Update makes the role-id write exactly when it is due, adds at most the role id to the store, and a failed role-id write ends the operation with only that call and the attributes unchanged |
| Lifecycle.CreateEndsWithRead | vault/resource_approle_auth_backend_role.go:213 | unless a write failed, Create ends with the Read of the new path against the store it wrote |
| Lifecycle.CreateThenReadRestores | vault/resource_approle_auth_backend_role.go:182-301 | when everything succeeds, Create and its Read give back the configuration: the id is the canonical path, mount and name come back trimmed, each field comes back, and a deprecated field in use clears its current counterpart |
| Lifecycle.ReadBackCreated | vault/resource_approle_auth_backend_role.go:216-298 | Read of a freshly created role against its stored payload gives `Restored` |
| Lifecycle.ReconciledCreated | vault/resource_approle_auth_backend_role.go:242-288 | applying the create payload as the response gives `Restored` |
| Lifecycle.PairsRestored | vault/resource_approle_auth_backend_role.go:246-282 | resolving the pairs against the create payload gives back the pairs as configured, with the current field of a deprecated field in use cleared |
| Lifecycle.UpdateStopsOnWriteFailure | vault/resource_approle_auth_backend_role.go:312-318 | a failing primary write is returned at once with the id kept and nothing else called |
| Lifecycle.UpdateRoleIdWrite | vault/resource_approle_auth_backend_role.go:321-330 | after the write the changed fields are stored; the role-id write happens exactly when `role_id` changed; its failure is returned with nothing changed |
| Lifecycle.UpdateEndsWithRead | vault/resource_approle_auth_backend_role.go:332 | unless a write failed, Update ends with the Read of its id against the store it wrote |

## Left out

- The schema map (lines 19-116) is framework configuration. The model keeps
  only the default `true` of `bind_secret_id`. The default mount `approle` and
  `ConflictsWith` checks are the framework's; the model accepts both fields
  of a pair being set.
- The token-field helpers `updateTokenFields` (line 119) and `readTokenFields`
  (line 244) live in files that are not part of this model. They are treated
  as doing nothing. Comments mark where they run: in Read, before the
  deprecation logic.
- The HTTP transport, the API client, `util.Is404` and the SDK's
  `ResourceData` are replaced by the fake store, the outcome parameter and
  the `RoleData` class.
- Go's regular-expression engine is replaced by the structural split.
- Log messages and the exact wording of error messages are left out. Errors
  are a datatype naming the path and the failed step.
- Client.FakeClient.Write: a write replaces the field map at the path. Any
  merge a real server performs is not modelled. As a result, the read-back
  after an Update sees only the updated fields.
- Lifecycle.CreateThenReadRestores: the round trip holds for the fake store's
  replacing writes. It does not model a server that adds fields of its own,
  such as a generated role id.
- Controller.Read: the `d.Set` type errors at line 285 are not modelled, so
  `d.Set` never fails. A value of the wrong type, or nil, stores the zero
  value. The exception is `bind_secret_id`, which is left unset and so reads
  back as its schema default `true`.
- Controller.Read: "not found" and a missing path both give a nil response,
  as the API client's read does. A real server's other ways of answering nil
  are not distinguished.
- `(*schema.Set).List()` turns a set into a list in some order. The payload
  carries the set itself, so that order is not modelled.
- The `len(res) != 2` branches of the decoders (lines 378-380, 389-391) are
  unreachable and have no counterpart. `PathLemmas.DecodersAgree` shows that
  once the mount decodes, the name decodes too, so Read's second decode
  cannot fail.
- Concurrent reconciliation of the same path is not modelled.
