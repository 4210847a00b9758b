/** `update_credential_status`: for each requested status, the status list
    credential is changed, re-signed with the issuer's key and written back. */
module StatusUpdate {
  import opened Json
  import opened Credentials
  import opened Storage
  import opened Issuance

  /** The record the signed status list credential is written to. */
  function StatusListKey(tenant: string): string
  {
    tenant + ":status_list"
  }

  /** Each tenant's status updates go to a record of its own. */
  lemma StatusListKeyPerTenant(tenant1: string, tenant2: string)
    requires StatusListKey(tenant1) == StatusListKey(tenant2)
    ensures tenant1 == tenant2
  {
    assert tenant1 == StatusListKey(tenant1)[..|StatusListKey(tenant1)| - |":status_list"|];
    assert tenant2 == StatusListKey(tenant2)[..|StatusListKey(tenant2)| - |":status_list"|];
  }

  /** The status-list record the update writes is never the one
      `get_status_list_credential` serves. */
  lemma StatusListKeyNotServed(tenant: string, listType: string)
    ensures StatusListKey(tenant) != ServedStatusListKey(tenant, listType)
  {
    assert |StatusListKey(tenant)| < |ServedStatusListKey(tenant, listType)|;
  }

  /** The proof options used to re-sign a status list credential. */
  function SigningOptions(did: string): (options: map<string, Value>)
    ensures options.Keys == {"verificationMethod", "proofPurpose"}
    ensures options["verificationMethod"] == Str(did + "#verkey")
    ensures options["proofPurpose"] == Str("AssertionMethod")
  {
    map["verificationMethod" := Str(did + "#verkey"), "proofPurpose" := Str("AssertionMethod")]
  }

  /** A status list is signed for the same verification method as the
      credentials its tenant issues, but with a proof purpose spelled
      differently from issuance's. */
  lemma StatusListSignedUnlikeIssuance(
    tenant: string, didWebBase: string, uuid: string,
    credential: map<string, Value>, options: map<string, Value>, env: Foreign, p: Prepared)
    requires PreparedFrom(tenant, didWebBase, uuid, credential, options, env, p)
    ensures SigningOptions(p.did)["verificationMethod"] == p.options["verificationMethod"]
    ensures SigningOptions(p.did)["proofPurpose"] != p.options["proofPurpose"]
  {
  }

  /** `status["status"]` of one requested status. */
  function StatusBit(status: Value): Result<Value, Failure>
  {
    Get(status, "status")
  }

  /** How many leading statuses the loop gets through before one without a
      readable `status` raises. */
  function Processed(statuses: seq<Value>): (n: nat)
    ensures n <= |statuses|
    ensures forall i :: 0 <= i < n ==> StatusBit(statuses[i]).Ok?
    ensures n < |statuses| ==> StatusBit(statuses[n]).Err?
  {
    if statuses == [] || StatusBit(statuses[0]).Err? then 0
    else 1 + Processed(statuses[1..])
  }

  /** The write made for status bit `bit`: the status list credential after
      the change, signed with the issuer's key, replacing the tenant's list. */
  function StatusWrite(tenant: string, vc: Value, did: string, bit: Value, env: Foreign): (w: Write)
    ensures w.kind == Replace && w.key == StatusListKey(tenant)
    ensures w.value == env.sign(env.changeStatus(vc, bit, tenant), Obj(SigningOptions(did)), env.verkeyOf(did))
  {
    var changed := env.changeStatus(vc, bit, tenant);
    Write(Replace, StatusListKey(tenant), env.sign(changed, Obj(SigningOptions(did)), env.verkeyOf(did)))
  }

  /** The writes the loop makes for `statuses`, stopping at the first status
      that raises. */
  function StatusWrites(tenant: string, vc: Value, did: string, statuses: seq<Value>, env: Foreign): (ws: seq<Write>)
    ensures |ws| == Processed(statuses)
    ensures forall i :: 0 <= i < |ws| ==>
      ws[i] == StatusWrite(tenant, vc, did, StatusBit(statuses[i]).value, env)
  {
    if statuses == [] then []
    else match StatusBit(statuses[0])
         case Err(_) => []
         case Ok(bit) => [StatusWrite(tenant, vc, did, bit, env)] + StatusWrites(tenant, vc, did, statuses[1..], env)
  }

  /** Every write of a status update replaces the tenant's status list,
      signed for the issuer's `#verkey` with purpose `AssertionMethod`. */
  lemma StatusWritesTargetStatusList(tenant: string, vc: Value, did: string, statuses: seq<Value>, env: Foreign)
    ensures forall w :: w in StatusWrites(tenant, vc, did, statuses, env) ==>
      w.kind == Replace && w.key == StatusListKey(tenant)
  {
    var ws := StatusWrites(tenant, vc, did, statuses, env);
    forall w | w in ws ensures w.kind == Replace && w.key == StatusListKey(tenant) {
      var i :| 0 <= i < |ws| && ws[i] == w;
    }
  }

  /** After a status update the tenant's status list holds the credential
      signed for the last processed status, and no other record changes. */
  lemma StatusUpdateKeepsLastList(entries: map<string, Value>, tenant: string, vc: Value, did: string, statuses: seq<Value>, env: Foreign)
    ensures Processed(statuses) == 0 ==> Applied(entries, StatusWrites(tenant, vc, did, statuses, env)) == entries
    ensures Processed(statuses) > 0 ==>
      var last := StatusWrite(tenant, vc, did, StatusBit(statuses[Processed(statuses) - 1]).value, env);
      Applied(entries, StatusWrites(tenant, vc, did, statuses, env)) == entries[StatusListKey(tenant) := last.value]
  {
    AppliedToOneKey(entries, StatusWrites(tenant, vc, did, statuses, env), StatusListKey(tenant));
  }

  /** When every status has a readable bit, the loop gets through all of them. */
  lemma {:induction false} ProcessedAll(statuses: seq<Value>)
    requires forall i :: 0 <= i < |statuses| ==> StatusBit(statuses[i]).Ok?
    ensures Processed(statuses) == |statuses|
  {
    if statuses != [] {
      assert StatusBit(statuses[0]).Ok?;
      ProcessedAll(statuses[1..]);
    }
  }

  /** Appending a status with a readable bit to statuses that are processed
      whole appends its write. */
  lemma {:induction false} StatusWritesSnoc(tenant: string, vc: Value, did: string, statuses: seq<Value>, status: Value, env: Foreign)
    requires Processed(statuses) == |statuses| && StatusBit(status).Ok?
    ensures StatusWrites(tenant, vc, did, statuses + [status], env) ==
      StatusWrites(tenant, vc, did, statuses, env) + [StatusWrite(tenant, vc, did, StatusBit(status).value, env)]
  {
    if statuses != [] {
      assert (statuses + [status])[1..] == statuses[1..] + [status];
      StatusWritesSnoc(tenant, vc, did, statuses[1..], status, env);
    }
  }

  /** The writes for a prefix that is processed whole, extended by one more
      processed status. */
  lemma StatusWritesExtend(tenant: string, vc: Value, did: string, statuses: seq<Value>, n: nat, env: Foreign)
    requires n < Processed(statuses)
    ensures StatusWrites(tenant, vc, did, statuses[..n + 1], env) ==
      StatusWrites(tenant, vc, did, statuses[..n], env) + [StatusWrite(tenant, vc, did, StatusBit(statuses[n]).value, env)]
  {
    var shorter := statuses[..n];
    assert forall i :: 0 <= i < |shorter| ==> shorter[i] == statuses[i];
    ProcessedAll(shorter);
    assert statuses[..n + 1] == shorter + [statuses[n]];
    StatusWritesSnoc(tenant, vc, did, shorter, statuses[n], env);
  }

  /** The writes stop where processing stops: after a run of readable bits
      that reaches the end or a status whose bit cannot be read. */
  lemma StatusWritesStop(tenant: string, vc: Value, did: string, statuses: seq<Value>, n: nat, env: Foreign)
    requires n <= Processed(statuses)
    requires n == |statuses| || StatusBit(statuses[n]).Err?
    ensures Processed(statuses) == n
    ensures StatusWrites(tenant, vc, did, statuses, env) == StatusWrites(tenant, vc, did, statuses[..n], env)
  {
    var prefix := statuses[..n];
    ProcessedAll(prefix);
    var a := StatusWrites(tenant, vc, did, statuses, env);
    var b := StatusWrites(tenant, vc, did, prefix, env);
    assert |a| == |b|;
    forall i | 0 <= i < |a| ensures a[i] == b[i] {
      assert prefix[i] == statuses[i];
    }
  }

  /** The stored credential `update_credential_status` works on and the
      issuer DID it signs with, or why it cannot get them. */
  function SigningSubject(entries: map<string, Value>, tenant: string, credentialId: string, env: Foreign)
    : (r: Result<(Value, string), Failure>)
    ensures CredentialKey(tenant, credentialId) !in entries ==> r == Err(NotFound(CredentialKey(tenant, credentialId)))
    ensures r.Ok? <==>
      && CredentialKey(tenant, credentialId) in entries
      && entries[CredentialKey(tenant, credentialId)].Obj?
      && IssuerDid(entries[CredentialKey(tenant, credentialId)].fields).Ok?
    ensures r.Ok? ==>
      var vc := entries[CredentialKey(tenant, credentialId)];
      && CredentialKey(tenant, credentialId) in entries
      && r.value.0 == vc
      && vc.Obj? && IssuerDid(vc.fields).Ok?
      && r.value.1 == Format(IssuerDid(vc.fields).value, env)
  {
    var key := CredentialKey(tenant, credentialId);
    if key !in entries then Err(NotFound(key))
    else
      var vc := entries[key];
      if !vc.Obj? then Err(TypeError("issuer"))
      else match IssuerDid(vc.fields)
           case Err(e) => Err(e)
           case Ok(did) => Ok((vc, Format(did, env)))
  }

  /** One pass of the loop of `update_credential_status`, for a status whose
      bit is readable: change the status list, re-sign it with the issuer's
      key and replace the tenant's list, extending the writes made so far. */
  method WriteStatus(store: Store, tenant: string, vc: Value, did: string, statuses: seq<Value>, i: nat, env: Foreign,
                     ghost entries: map<string, Value>, ghost writes: seq<Write>)
    requires i < Processed(statuses)
    requires store.writes == writes + StatusWrites(tenant, vc, did, statuses[..i], env)
    requires store.entries == Applied(entries, StatusWrites(tenant, vc, did, statuses[..i], env))
    modifies store
    ensures store.writes == writes + StatusWrites(tenant, vc, did, statuses[..i + 1], env)
    ensures store.entries == Applied(entries, StatusWrites(tenant, vc, did, statuses[..i + 1], env))
  {
    var bit := StatusBit(statuses[i]).value;
    var changed := env.changeStatus(vc, bit, tenant);
    var signed := env.sign(changed, Obj(SigningOptions(did)), env.verkeyOf(did));
    ghost var done := StatusWrites(tenant, vc, did, statuses[..i], env);
    ghost var w := StatusWrite(tenant, vc, did, bit, env);
    StatusWritesExtend(tenant, vc, did, statuses, i, env);
    AppliedSnoc(entries, done, w);
    store.UpdateData(StatusListKey(tenant), signed);
    assert store.writes == writes + (done + [w]);
  }

  /** What the loop of `update_credential_status` answers: "Status updated"
      when every requested status has a readable bit, otherwise the error
      raised reading the first one that does not. */
  function StatusOutcome(statuses: seq<Value>): (r: Result<string, Failure>)
    ensures r.Ok? <==> forall i :: 0 <= i < |statuses| ==> StatusBit(statuses[i]).Ok?
    ensures r.Ok? ==> r.value == "Status updated"
    ensures r.Err? ==>
      exists i :: 0 <= i < |statuses| && StatusBit(statuses[i]) == Err(r.error) &&
        forall j :: 0 <= j < i ==> StatusBit(statuses[j]).Ok?
  {
    var n := Processed(statuses);
    if n == |statuses| then Ok("Status updated") else Err(StatusBit(statuses[n]).error)
  }

  /** The loop of `update_credential_status`: one signed status-list write
      per requested status, in order, until a status without a readable
      `status` field raises. */
  method WriteStatuses(store: Store, tenant: string, vc: Value, did: string, statuses: seq<Value>, env: Foreign)
    returns (r: Result<string, Failure>)
    modifies store
    ensures r == StatusOutcome(statuses)
    ensures store.writes == old(store.writes) + StatusWrites(tenant, vc, did, statuses, env)
    ensures store.entries == Applied(old(store.entries), StatusWrites(tenant, vc, did, statuses, env))
  {
    var i := 0;
    while i < |statuses|
      invariant i <= Processed(statuses) <= |statuses|
      invariant store.writes == old(store.writes) + StatusWrites(tenant, vc, did, statuses[..i], env)
      invariant store.entries == Applied(old(store.entries), StatusWrites(tenant, vc, did, statuses[..i], env))
    {
      var bit := StatusBit(statuses[i]);
      if bit.Err? {
        StatusWritesStop(tenant, vc, did, statuses, i, env);
        return Err(bit.error);
      }
      WriteStatus(store, tenant, vc, did, statuses, i, env, old(store.entries), old(store.writes));
      i := i + 1;
    }
    StatusWritesStop(tenant, vc, did, statuses, i, env);
    r := Ok("Status updated");
  }

  /** `update_credential_status`: fetch the stored credential, take its
      issuer DID, and make the status-list writes for the requested statuses. */
  method UpdateCredentialStatus(store: Store, tenant: string, credentialId: string, statuses: seq<Value>, env: Foreign)
    returns (r: Result<string, Failure>)
    modifies store
    ensures SigningSubject(old(store.entries), tenant, credentialId, env).Err? ==>
      && r == Err(SigningSubject(old(store.entries), tenant, credentialId, env).error)
      && store.entries == old(store.entries) && store.writes == old(store.writes)
    ensures SigningSubject(old(store.entries), tenant, credentialId, env).Ok? ==>
      var subject := SigningSubject(old(store.entries), tenant, credentialId, env).value;
      && store.writes == old(store.writes) + StatusWrites(tenant, subject.0, subject.1, statuses, env)
      && store.entries == Applied(old(store.entries), StatusWrites(tenant, subject.0, subject.1, statuses, env))
      && r == StatusOutcome(statuses)
  {
    var key := CredentialKey(tenant, credentialId);
    var fetched := store.Fetch(key);
    if fetched.None? {
      return Err(NotFound(key));
    }
    var vc := fetched.value;
    if !vc.Obj? {
      return Err(TypeError("issuer"));
    }
    var did := IssuerDid(vc.fields);
    if did.Err? {
      return Err(did.error);
    }
    r := WriteStatuses(store, tenant, vc, Format(did.value, env), statuses, env);
  }

  /** Issuing a credential and then updating its status by the id it was
      issued with: the update finds the stored credential and signs every
      status list with the tenant's own DID, and the records end as the
      insert followed by the status writes leave them. */
  method IssueThenUpdateStatus(
    store: Store, tenant: string, didWebBase: string, uuid: string,
    credential: map<string, Value>, options: map<string, Value>, statuses: seq<Value>, env: Foreign)
    returns (issued: Result<Issued, Failure>, updated: Option<Result<string, Failure>>)
    modifies store
    ensures issued.Ok? <==>
      ReachesIssuerCheck(credential, options) && IssuerDid(credential) == Ok(Str(TenantDid(didWebBase, tenant)))
    ensures issued.Err? ==>
      updated.None? && store.entries == old(store.entries) && store.writes == old(store.writes)
    ensures issued.Ok? ==>
      var p := issued.value.prepared;
      && PreparedFrom(tenant, didWebBase, uuid, credential, options, env, p)
      && updated.Some?
      && store.writes == old(store.writes) + [Write(Insert, p.key, Obj(p.credential))] +
           StatusWrites(tenant, Obj(p.credential), TenantDid(didWebBase, tenant), statuses, env)
      && store.entries == Applied(old(store.entries)[p.key := Obj(p.credential)],
           StatusWrites(tenant, Obj(p.credential), TenantDid(didWebBase, tenant), statuses, env))
      && updated.value == StatusOutcome(statuses)
  {
    var entryFor;
    issued, entryFor := IssueCredential(store, tenant, didWebBase, uuid, credential, options, env);
    if issued.Err? {
      return issued, None;
    }
    var p := issued.value.prepared;
    var id := Format(p.credential["id"], env);
    assert SigningSubject(store.entries, tenant, id, env) == Ok((Obj(p.credential), p.did));
    var u := UpdateCredentialStatus(store, tenant, id, statuses, env);
    updated := Some(u);
  }
}
