/** `issue_credential`: how a JSON-LD credential and its proof options are
    rewritten before signing, which requests are refused, and what is stored. */
module Issuance {
  import opened Json
  import opened Text
  import opened Credentials
  import opened Storage

  const StatusList2021Context := "https://w3id.org/vc/status-list/2021/v1"
  const RevocationList2020Context := "https://w3id.org/vc-revocation-list-2020/v1"

  /** A status list kind: the list type handed to `create_entry` and the
      context URL the credential gains. */
  datatype StatusList = StatusList(listType: string, context: string)

  /** The status list a requested `credentialStatus.type` selects; none for
      any other type. */
  function StatusListFor(statusType: Value): (r: Option<StatusList>)
    ensures r.Some? <==> statusType in {Str("StatusList2021Entry"), Str("RevocationList2020Status")}
    ensures statusType == Str("StatusList2021Entry") ==>
      r == Some(StatusList("StatusList2021", "https://w3id.org/vc/status-list/2021/v1"))
    ensures statusType == Str("RevocationList2020Status") ==>
      r == Some(StatusList("RevocationList2020", "https://w3id.org/vc-revocation-list-2020/v1"))
  {
    if statusType == Str("StatusList2021Entry") then Some(StatusList("StatusList2021", StatusList2021Context))
    else if statusType == Str("RevocationList2020Status") then Some(StatusList("RevocationList2020", RevocationList2020Context))
    else None
  }

  /** The status list selected by the options' `credentialStatus.type`. */
  function RequestedList(options: map<string, Value>): Option<StatusList>
    requires "credentialStatus" in options && Get(options["credentialStatus"], "type").Ok?
  {
    StatusListFor(Get(options["credentialStatus"], "type").value)
  }

  /** Every step before the issuer check goes through: the credential has a
      `context`, the options have a `credentialStatus` whose `type` can be
      read, and the context is a list when a URL must be appended to it. */
  predicate ReachesIssuerCheck(credential: map<string, Value>, options: map<string, Value>)
  {
    && "context" in credential
    && "credentialStatus" in options
    && Get(options["credentialStatus"], "type").Ok?
    && (RequestedList(options).Some? ==> credential["context"].Arr?)
  }

  /** A request ready to be signed and stored. */
  datatype Prepared = Prepared(credential: map<string, Value>, options: map<string, Value>, did: string, key: string)

  /** The credential rewriting at the start of `issue_credential`: `context`
      becomes `@context`, a missing `id` is generated, and a requested status
      list adds its context URL and a fresh status entry. `entryFor` is the
      status list an entry was taken from, if one was. */
  method FillCredential(
    tenant: string, uuid: string, credential: map<string, Value>, options: map<string, Value>, env: Foreign)
    returns (r: Result<map<string, Value>, Failure>, entryFor: Option<string>)
    ensures "context" !in credential ==> r == Err(KeyError("context"))
    ensures r.Ok? <==>
      && "context" in credential
      && ("credentialStatus" in options ==>
            Get(options["credentialStatus"], "type").Ok? &&
            (RequestedList(options).Some? ==> credential["context"].Arr?))
    ensures r.Err? ==> entryFor == None && (r.error.KeyError? || r.error.TypeError? || r.error.AttributeError?)
    ensures r.Ok? ==>
      (entryFor.Some? <==> "credentialStatus" in options && RequestedList(options).Some?) &&
      (entryFor.Some? ==> entryFor.value == RequestedList(options).value.listType)
    ensures r.Ok? ==> "context" !in r.value && "@context" in r.value && "id" in r.value
    ensures r.Ok? && entryFor.None? ==>
      r.value["@context"] == credential["context"] &&
      SameOutside(credential, r.value, {"context", "@context", "id"})
    ensures r.Ok? && entryFor.Some? ==>
      var list := RequestedList(options).value;
      && r.value["@context"] == Arr(credential["context"].items + [Str(list.context)])
      && "credentialStatus" in r.value
      && r.value["credentialStatus"] == env.createEntry(tenant, list.listType)
    ensures r.Ok? && "id" in credential ==> r.value["id"] == credential["id"]
    ensures r.Ok? && "id" !in credential ==> r.value["id"] == Str("urn:uuid:" + uuid)
    ensures r.Ok? ==> SameOutside(credential, r.value, {"context", "@context", "id", "credentialStatus"})
  {
    entryFor := None;
    if "context" !in credential {
      return Err(KeyError("context")), None;
    }
    var cred := (credential - {"context"})["@context" := credential["context"]];
    if "id" !in cred {
      cred := cred["id" := Str("urn:uuid:" + uuid)];
    }
    if "credentialStatus" in options {
      var statusType := Get(options["credentialStatus"], "type");
      if statusType.Err? {
        return Err(statusType.error), None;
      }
      var list := StatusListFor(statusType.value);
      if list.Some? {
        var context := cred["@context"];
        if !context.Arr? {
          return Err(AttributeError("append")), None;
        }
        cred := cred["@context" := Arr(context.items + [Str(list.value.context)])];
        cred := cred["credentialStatus" := env.createEntry(tenant, list.value.listType)];
        entryFor := Some(list.value.listType);
      }
    }
    r := Ok(cred);
  }

  /** A status entry is taken exactly when the request reaches the issuer
      check with a status type that names a list, and it is taken from that
      list, even if the issuer is then refused. */
  predicate EntryTaken(credential: map<string, Value>, options: map<string, Value>, entryFor: Option<string>)
  {
    && (!ReachesIssuerCheck(credential, options) ==> entryFor == None)
    && (ReachesIssuerCheck(credential, options) ==>
          (entryFor.Some? <==> RequestedList(options).Some?) &&
          (entryFor.Some? ==> entryFor.value == RequestedList(options).value.listType))
  }

  /** `p` is the request `issue_credential` signs and stores for `credential`
      and `options`: `@context` is the caller's `context`, extended by the
      requested list's context URL; the id is kept or generated; the status
      entry is the one created; nothing else in the credential changes; the
      options lose `created` and `credentialStatus` and sign for the tenant's
      `#verkey` with purpose `assertionMethod`; the key is the credential's
      lower-case record key. */
  ghost predicate PreparedFrom(
    tenant: string, didWebBase: string, uuid: string,
    credential: map<string, Value>, options: map<string, Value>, env: Foreign, p: Prepared)
  {
    && ReachesIssuerCheck(credential, options)
    // The prepared credential
    && p.did == TenantDid(didWebBase, tenant)
    && "context" !in p.credential && "@context" in p.credential
    && (RequestedList(options).None? ==>
          && p.credential["@context"] == credential["context"]
          && SameOutside(credential, p.credential, {"context", "@context", "id"}))
    && (RequestedList(options).Some? ==>
          && p.credential["@context"] == Arr(credential["context"].items + [Str(RequestedList(options).value.context)])
          && "credentialStatus" in p.credential
          && p.credential["credentialStatus"] == env.createEntry(tenant, RequestedList(options).value.listType))
    && "id" in p.credential
    && ("id" in credential ==> p.credential["id"] == credential["id"])
    && ("id" !in credential ==> p.credential["id"] == Str("urn:uuid:" + uuid))
    && SameOutside(credential, p.credential, {"context", "@context", "id", "credentialStatus"})
    && IssuerDid(p.credential) == Ok(Str(p.did))
    // The prepared options
    && "created" !in p.options && "credentialStatus" !in p.options
    && "proofPurpose" in p.options && p.options["proofPurpose"] == Str("assertionMethod")
    && "verificationMethod" in p.options && p.options["verificationMethod"] == Str(p.did + "#verkey")
    && SameOutside(options, p.options, {"created", "credentialStatus", "proofPurpose", "verificationMethod"})
    // The storage key
    && p.key == CredentialKey(tenant, Format(p.credential["id"], env))
    && IsLowerCase(p.key)
  }

  /** The rewriting `issue_credential` performs before it signs: the
      credential is filled in, the status request leaves the options, the
      issuer must be the tenant's own DID, and the proof options are set for
      that DID. `entryFor` is the status list a status entry was taken from,
      if one was. */
  method PrepareIssuance(
    tenant: string, didWebBase: string, uuid: string,
    credential: map<string, Value>, options: map<string, Value>, env: Foreign)
    returns (r: Result<Prepared, Failure>, entryFor: Option<string>)
    // Which requests fail, and how
    ensures "context" !in credential ==> r == Err(KeyError("context")) && entryFor == None
    ensures "credentialStatus" !in options ==> r.Err?
    ensures r.Ok? <==>
      ReachesIssuerCheck(credential, options) && IssuerDid(credential) == Ok(Str(TenantDid(didWebBase, tenant)))
    ensures r == Err(InvalidIssuer) <==>
      ReachesIssuerCheck(credential, options) && IssuerDid(credential).Ok? &&
      IssuerDid(credential).value != Str(TenantDid(didWebBase, tenant))
    ensures EntryTaken(credential, options, entryFor)
    // What succeeds
    ensures r.Ok? ==> PreparedFrom(tenant, didWebBase, uuid, credential, options, env, r.value)
  {
    var filled;
    filled, entryFor := FillCredential(tenant, uuid, credential, options, env);
    if filled.Err? {
      return Err(filled.error), entryFor;
    }
    var cred := filled.value;
    if "credentialStatus" !in options {
      return Err(KeyError("credentialStatus")), entryFor;
    }
    var opts := options - {"credentialStatus"};
    assert cred - {"context", "@context", "id", "credentialStatus"} == credential - {"context", "@context", "id", "credentialStatus"};
    var issuer := IssuerDid(cred);
    assert issuer == IssuerDid(credential);
    if issuer.Err? {
      return Err(issuer.error), entryFor;
    }
    var did := TenantDid(didWebBase, tenant);
    if issuer.value != Str(did) {
      return Err(InvalidIssuer), entryFor;
    }
    opts := opts["verificationMethod" := Str(did + "#verkey")];
    if "created" in opts {
      opts := opts - {"created"};
    }
    opts := opts["proofPurpose" := Str("assertionMethod")];
    var key := CredentialKey(tenant, Format(cred["id"], env));
    r := Ok(Prepared(cred, opts, did, key));
  }

  /** What a successful issuance produced: the prepared request and the
      signed credential returned to the caller with status 201. */
  datatype Issued = Issued(prepared: Prepared, signed: Value)

  /** `issue_credential`: prepare the request, sign it with the tenant's
      verification key, and store the unsigned credential under its key. */
  method IssueCredential(
    store: Store, tenant: string, didWebBase: string, uuid: string,
    credential: map<string, Value>, options: map<string, Value>, env: Foreign)
    returns (r: Result<Issued, Failure>, entryFor: Option<string>)
    modifies store
    ensures "context" !in credential ==> r == Err(KeyError("context")) && entryFor == None
    ensures "credentialStatus" !in options ==> r.Err?
    ensures r.Ok? <==>
      ReachesIssuerCheck(credential, options) && IssuerDid(credential) == Ok(Str(TenantDid(didWebBase, tenant)))
    ensures r == Err(InvalidIssuer) <==>
      ReachesIssuerCheck(credential, options) && IssuerDid(credential).Ok? &&
      IssuerDid(credential).value != Str(TenantDid(didWebBase, tenant))
    ensures EntryTaken(credential, options, entryFor)
    ensures r.Err? ==> store.entries == old(store.entries) && store.writes == old(store.writes)
    ensures r.Ok? ==>
      var p := r.value.prepared;
      && PreparedFrom(tenant, didWebBase, uuid, credential, options, env, p)
      && r.value.signed == env.sign(Obj(p.credential), Obj(p.options), env.verkeyOf(p.did))
      && store.entries == old(store.entries)[p.key := Obj(p.credential)]
      && store.writes == old(store.writes) + [Write(Insert, p.key, Obj(p.credential))]
  {
    var prepared;
    prepared, entryFor := PrepareIssuance(tenant, didWebBase, uuid, credential, options, env);
    if prepared.Err? {
      return Err(prepared.error), entryFor;
    }
    var p := prepared.value;
    var verkey := env.verkeyOf(p.did);
    var signed := env.sign(Obj(p.credential), Obj(p.options), verkey);
    store.StoreData(p.key, Obj(p.credential));
    r := Ok(Issued(p, signed));
  }
}
