/** What the credential handlers share: the exceptions they can end in, the
    services they call, record keys, the issuer of a credential, and the two
    read-only handlers `get_credential` and `get_status_list_credential`. */
module Credentials {
  import opened Json
  import opened Text

  /** The ways a handler ends without producing its response. The first four
      are the Python exceptions raised by a dictionary lookup or method call on
      request data; the rest are the handlers' own failures. */
  datatype Failure =
    | KeyError(key: string)          // a lookup or `pop` of an absent key
    | TypeError(key: string)         // subscripting by `key` a value that is not a dict
    | AttributeError(name: string)   // `append` on a value that is not a list
    | ValueError(field: string)      // a date `fromisoformat` rejects
    | InvalidIssuer                  // the 400 "Invalid issuer" response
    | NotFound(key: string)          // the store holds no record under `key`

  /** The services the handlers call, whose behaviour this model does not
      define: the status-list module, the agent, the clock-free date parser,
      and Python's `str()` of a value that is not a string. */
  datatype Foreign = Foreign(
    createEntry: (string, string) -> Value,      // status_list.create_entry(label, list type)
    credentialStatus: (Value, Value) -> Value,   // status_list.get_credential_status(vc, status type)
    changeStatus: (Value, Value, string) -> Value, // status_list.change_credential_status(vc, bit, label)
    verkeyOf: string -> string,                  // agent.get_verkey(did)
    sign: (Value, Value, string) -> Value,       // agent.sign_json_ld(document, options, verkey)
    verify: Value -> Value,                      // agent.verify_credential(vc)
    fromIsoFormat: Value -> Option<int>,         // datetime.fromisoformat, None when it raises
    pyStr: Value -> string                       // str(value) for a value that is not a string
  )

  /** `v[key]` in Python: the field of a dict, `KeyError` when the dict lacks
      it, `TypeError` when `v` is not a dict. */
  function Get(v: Value, key: string): (r: Result<Value, Failure>)
    ensures r.Ok? <==> v.Obj? && key in v.fields
    ensures r.Ok? ==> r.value == v.fields[key]
    ensures r.Err? ==> r.error == (if v.Obj? then KeyError(key) else TypeError(key))
  {
    if !v.Obj? then Err(TypeError(key))
    else if key !in v.fields then Err(KeyError(key))
    else Ok(v.fields[key])
  }

  /** How an f-string renders `v`: a string as itself, anything else by `str()`. */
  function Format(v: Value, env: Foreign): string
  {
    if v.Str? then v.s else env.pyStr(v)
  }

  /** The `did:web` DID of the tenant whose label is `tenant`. */
  function TenantDid(didWebBase: string, tenant: string): string
  {
    didWebBase + ":organization:" + tenant
  }

  /** Under one DID base, distinct tenants have distinct DIDs, so no tenant can
      issue as another. */
  lemma TenantDidInjective(didWebBase: string, tenant1: string, tenant2: string)
    requires TenantDid(didWebBase, tenant1) == TenantDid(didWebBase, tenant2)
    ensures tenant1 == tenant2
  {
    var prefix := didWebBase + ":organization:";
    assert tenant1 == TenantDid(didWebBase, tenant1)[|prefix|..];
    assert tenant2 == TenantDid(didWebBase, tenant2)[|prefix|..];
  }

  /** The two maps agree on every key outside `touched`. */
  ghost predicate SameOutside(a: map<string, Value>, b: map<string, Value>, touched: set<string>)
  {
    forall k :: k !in touched ==> (k in a <==> k in b) && (k in a && k in b ==> a[k] == b[k])
  }

  /** The issuer DID of a credential: `issuer` itself when it is a string
      (a URI), otherwise the `id` of the issuer object. */
  function IssuerDid(credential: map<string, Value>): (r: Result<Value, Failure>)
    ensures r.Ok? <==>
      "issuer" in credential &&
      (credential["issuer"].Str? || (credential["issuer"].Obj? && "id" in credential["issuer"].fields))
    ensures r.Ok? && credential["issuer"].Str? ==> r.value == credential["issuer"]
    ensures r.Ok? && !credential["issuer"].Str? ==> r.value == credential["issuer"].fields["id"]
    ensures "issuer" !in credential ==> r == Err(KeyError("issuer"))
  {
    if "issuer" !in credential then Err(KeyError("issuer"))
    else if credential["issuer"].Str? then Ok(credential["issuer"])
    else Get(credential["issuer"], "id")
  }

  /** The key of the stored credential `id` of the tenant `tenant`, as issuance
      stores it and the status update fetches it: the lower-case form of
      `tenant:credentials:id`. */
  function CredentialKey(tenant: string, id: string): (k: string)
    ensures IsLowerCase(k)
    ensures k == Lower(tenant) + ":credentials:" + Lower(id)
  {
    LowerAround(tenant, ":credentials:", id);
    Lower(tenant + ":credentials:" + id)
  }

  /** How a handler ends: with a value returned, with an exception raised
      (which FastAPI turns into an HTTP error), or by returning an exception
      object as if it were a result. */
  datatype Outcome =
    | Returned(value: Value)
    | Raised(status: int, message: string)
    | ReturnedException(status: int, message: string)

  /** `get_credential` as written: it looks the credential up under
      `tenant:credentials:id` without lower-casing, and answers 404 when the
      store holds nothing there. */
  function GetCredential(entries: map<string, Value>, tenant: string, credentialId: string): (o: Outcome)
    ensures o.Returned? <==> tenant + ":credentials:" + credentialId in entries
    ensures o.Returned? ==> o.value == entries[tenant + ":credentials:" + credentialId]
    ensures !o.Returned? ==> o == Raised(404, "credential " + credentialId + " not found")
  {
    var key := tenant + ":credentials:" + credentialId;
    if key in entries then Returned(entries[key])
    else Raised(404, "credential " + credentialId + " not found")
  }

  /** A credential issued under an id with an upper-case letter is stored
      under a lower-cased key, so `get_credential` with that same id does not
      find it. */
  lemma GetCredentialMissesMixedCaseId(tenant: string, id: string, i: nat, credential: Value)
    requires i < |id| && IsUpper(id[i])
    ensures GetCredential(map[CredentialKey(tenant, id) := credential], tenant, id)
         == Raised(404, "credential " + id + " not found")
  {
    var asked := tenant + ":credentials:" + id;
    assert asked[|tenant| + 13 + i] == id[i];
    assert !IsLowerCase(asked);
  }

  /** `get_credential` looking up the key issuance stores under. */
  function GetCredentialCorrected(entries: map<string, Value>, tenant: string, credentialId: string): (o: Outcome)
    ensures o.Returned? <==> CredentialKey(tenant, credentialId) in entries
    ensures o.Returned? ==> o.value == entries[CredentialKey(tenant, credentialId)]
    ensures !o.Returned? ==> o == Raised(404, "credential " + credentialId + " not found")
  {
    var key := CredentialKey(tenant, credentialId);
    if key in entries then Returned(entries[key])
    else Raised(404, "credential " + credentialId + " not found")
  }

  /** The corrected lookup finds a stored credential under its id written in
      any mix of cases. */
  lemma GetCorrectedFindsStored(entries: map<string, Value>, tenant: string, id: string, asked: string, credential: Value)
    requires Lower(asked) == Lower(id)
    ensures GetCredentialCorrected(entries[CredentialKey(tenant, id) := credential], tenant, asked) == Returned(credential)
  {
    assert CredentialKey(tenant, asked) == CredentialKey(tenant, id);
  }

  /** The key a status list credential of type `listType` is served from. */
  function ServedStatusListKey(tenant: string, listType: string): string
  {
    tenant + ":status_lists:" + listType
  }

  /** Each list type of a tenant is served from its own record. */
  lemma ServedStatusListKeyPerType(tenant: string, listType1: string, listType2: string)
    requires ServedStatusListKey(tenant, listType1) == ServedStatusListKey(tenant, listType2)
    ensures listType1 == listType2
  {
    var prefix := tenant + ":status_lists:";
    assert listType1 == ServedStatusListKey(tenant, listType1)[|prefix|..];
    assert listType2 == ServedStatusListKey(tenant, listType2)[|prefix|..];
  }

  /** `get_status_list_credential` as written: when the list is missing it
      returns the 404 exception object instead of raising it. */
  function GetStatusListCredential(entries: map<string, Value>, tenant: string, listType: string): (o: Outcome)
    ensures o.Returned? <==> ServedStatusListKey(tenant, listType) in entries
    ensures o.Returned? ==> o.value == entries[ServedStatusListKey(tenant, listType)]
    ensures !o.Returned? ==> o == ReturnedException(404, "Status list not found")
  {
    var key := ServedStatusListKey(tenant, listType);
    if key in entries then Returned(entries[key])
    else ReturnedException(404, "Status list not found")
  }

  /** `get_status_list_credential` raising its 404. */
  function GetStatusListCredentialCorrected(entries: map<string, Value>, tenant: string, listType: string): (o: Outcome)
    ensures o.Raised? <==> ServedStatusListKey(tenant, listType) !in entries
    ensures o.Raised? ==> o == Raised(404, "Status list not found")
    ensures !o.Raised? ==> o == Returned(entries[ServedStatusListKey(tenant, listType)])
  {
    var key := ServedStatusListKey(tenant, listType);
    if key in entries then Returned(entries[key])
    else Raised(404, "Status list not found")
  }

  /** The handler as written and the corrected one answer alike when the list
      is stored; when it is missing, the one returns the 404 exception that
      the other raises. */
  lemma StatusListHandlersDifferWhenMissing(entries: map<string, Value>, tenant: string, listType: string)
    ensures ServedStatusListKey(tenant, listType) in entries <==>
      GetStatusListCredential(entries, tenant, listType) == GetStatusListCredentialCorrected(entries, tenant, listType)
    ensures ServedStatusListKey(tenant, listType) !in entries ==>
      var o := GetStatusListCredentialCorrected(entries, tenant, listType);
      GetStatusListCredential(entries, tenant, listType) == ReturnedException(o.status, o.message)
  {
  }
}
