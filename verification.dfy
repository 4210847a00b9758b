/** `verify_credential`: the `checks`, `errors` and `verified` fields of the
    verification report, built from the credential's status, its expiration
    date and the agent's proof check. */
module Verification {
  import opened Json
  import opened Credentials

  /** The verification report (`CredentialVerificationResponse`). */
  datatype VerificationReport = VerificationReport(
    checks: seq<string>,
    errors: seq<string>,
    warnings: seq<string>,
    verifications: seq<Value>,
    verified: bool)

  /** The entry that records a failed revocation check. */
  const RevocationBad := Obj(map["title" := Str("Revocation"), "status" := Str("bad")])

  /** What the three checks found. `revoked` is None when the credential has
      no `credentialStatus`, `expired` None when it has no `expirationDate`,
      and `proof` None when the agent's reply has no readable `verified`. */
  datatype Observations = Observations(revoked: Option<bool>, expired: Option<bool>, proof: Option<bool>)

  /** The credential as sent to the status list and the agent: `context`
      renamed to `@context`. */
  function Renamed(vc: map<string, Value>): (doc: map<string, Value>)
    requires "context" in vc
    ensures "context" !in doc && "@context" in doc && doc["@context"] == vc["context"]
    ensures SameOutside(vc, doc, {"context", "@context"})
  {
    (vc - {"context"})["@context" := vc["context"]]
  }

  /** The status check: None when the credential has no `credentialStatus`,
      otherwise whether the status list reports it (truthy means revoked). */
  function StatusCheck(doc: map<string, Value>, env: Foreign): (r: Result<Option<bool>, Failure>)
    ensures r.Err? <==> "credentialStatus" in doc && Get(doc["credentialStatus"], "type").Err?
    ensures r.Err? ==> r.error == Get(doc["credentialStatus"], "type").error
    ensures r.Ok? ==> (r.value.Some? <==> "credentialStatus" in doc)
    ensures r.Ok? && r.value.Some? ==>
      r.value.value == Truthy(env.credentialStatus(Obj(doc), doc["credentialStatus"].fields["type"]))
  {
    if "credentialStatus" !in doc then Ok(None)
    else match Get(doc["credentialStatus"], "type")
         case Err(e) => Err(e)
         case Ok(statusType) => Ok(Some(Truthy(env.credentialStatus(Obj(doc), statusType))))
  }

  /** The expiry check: None when the credential has no `expirationDate`,
      otherwise whether that date is strictly before `now`. */
  function ExpiryCheck(doc: map<string, Value>, env: Foreign, now: int): (r: Result<Option<bool>, Failure>)
    ensures r.Ok? ==> (r.value.Some? <==> "expirationDate" in doc)
    ensures r.Ok? && r.value.Some? ==>
      env.fromIsoFormat(doc["expirationDate"]).Some? &&
      (r.value.value <==> env.fromIsoFormat(doc["expirationDate"]).value < now)
    ensures r.Err? <==> "expirationDate" in doc && env.fromIsoFormat(doc["expirationDate"]).None?
    ensures r.Err? ==> r.error == ValueError("expirationDate")
  {
    if "expirationDate" !in doc then Ok(None)
    else match env.fromIsoFormat(doc["expirationDate"])
         case None => Err(ValueError("expirationDate"))
         case Some(expiration) => Ok(Some(expiration < now))
  }

  /** The proof check: the truth of the agent's `verified` field, or None
      when its reply has no such field to read. */
  function ProofCheck(doc: map<string, Value>, env: Foreign): (r: Option<bool>)
    ensures r.Some? <==> env.verify(Obj(doc)).Obj? && "verified" in env.verify(Obj(doc)).fields
    ensures r.Some? ==> r.value == Truthy(env.verify(Obj(doc)).fields["verified"])
  {
    var reply := Get(env.verify(Obj(doc)), "verified");
    if reply.Ok? then Some(Truthy(reply.value)) else None
  }

  /** The status, expiry and proof checks of a credential, or the exception
      that ends the handler before all of them are made. */
  function Observe(vc: map<string, Value>, env: Foreign, now: int): (r: Result<Observations, Failure>)
    ensures "context" !in vc ==> r == Err(KeyError("context"))
    ensures r.Ok? ==> (r.value.revoked.Some? <==> "credentialStatus" in vc)
    ensures r.Ok? ==> (r.value.expired.Some? <==> "expirationDate" in vc)
    ensures "context" in vc ==>
      var doc := Renamed(vc);
      && (r.Err? <==> StatusCheck(doc, env).Err? || ExpiryCheck(doc, env, now).Err?)
      && (r.Err? ==>
            r.error == if StatusCheck(doc, env).Err? then StatusCheck(doc, env).error else ValueError("expirationDate"))
      && (r.Ok? ==>
            && r.value.revoked == StatusCheck(doc, env).value
            && r.value.expired == ExpiryCheck(doc, env, now).value
            && r.value.proof == ProofCheck(doc, env))
  {
    if "context" !in vc then Err(KeyError("context"))
    else
      var doc := Renamed(vc);
      match StatusCheck(doc, env)
      case Err(e) => Err(e)
      case Ok(revoked) =>
        match ExpiryCheck(doc, env, now)
        case Err(e) => Err(e)
        case Ok(expired) => Ok(Observations(revoked, expired, ProofCheck(doc, env)))
  }

  /** The error the status check adds. */
  function StatusErrors(revoked: Option<bool>): seq<string>
  {
    if revoked == Some(true) then ["revoked"] else []
  }

  /** The error the expiry check adds. */
  function ExpiryErrors(expired: Option<bool>): seq<string>
  {
    if expired == Some(true) then ["expired"] else []
  }

  /** The error the proof check adds. */
  function ProofErrors(proof: Option<bool>): seq<string>
  {
    match proof
    case None => ["verifier error"]
    case Some(ok) => if ok then [] else ["invalid proof"]
  }

  /** The errors the checks add to the report, in the order they are made. */
  function NewErrors(o: Observations): (e: seq<string>)
    ensures 1 <= |e| <==> !(o.revoked != Some(true) && o.expired != Some(true) && o.proof == Some(true))
    ensures |e| <= 3
  {
    StatusErrors(o.revoked) + ExpiryErrors(o.expired) + ProofErrors(o.proof)
  }

  /** Each error message stands for exactly one failed check: the status
      list reports the credential, the expiration date has passed, the agent
      rejects the proof, or the agent's reply cannot be read. */
  lemma NewErrorsNameFailedChecks(o: Observations)
    ensures "revoked" in NewErrors(o) <==> o.revoked == Some(true)
    ensures "expired" in NewErrors(o) <==> o.expired == Some(true)
    ensures "invalid proof" in NewErrors(o) <==> o.proof == Some(false)
    ensures "verifier error" in NewErrors(o) <==> o.proof.None?
  {
  }

  /** The report after the status check: "status" is checked, and a
      credential the status list reports gains "revoked" and the Revocation
      entry. */
  function AfterStatus(v: VerificationReport, revoked: Option<bool>): (w: VerificationReport)
    ensures w.checks == v.checks + (if revoked.Some? then ["status"] else [])
    ensures w.errors == v.errors + StatusErrors(revoked)
    ensures w.warnings == v.warnings
    ensures w.verifications == if revoked == Some(true) then [RevocationBad] else v.verifications
  {
    if revoked.None? then v
    else
      var checked := v.(checks := v.checks + ["status"]);
      if revoked.value then checked.(errors := checked.errors + ["revoked"], verifications := [RevocationBad])
      else checked
  }

  /** The report after the expiry check: "expiry" is checked, and an expired
      credential gains "expired". */
  function AfterExpiry(v: VerificationReport, expired: Option<bool>): (w: VerificationReport)
    ensures w.checks == v.checks + (if expired.Some? then ["expiry"] else [])
    ensures w.errors == v.errors + ExpiryErrors(expired)
    ensures w.warnings == v.warnings && w.verifications == v.verifications
  {
    if expired.None? then v
    else
      var checked := v.(checks := v.checks + ["expiry"]);
      if expired.value then checked.(errors := checked.errors + ["expired"]) else checked
  }

  /** The report after the proof check and the verdict. */
  function AfterProof(v: VerificationReport, proof: Option<bool>): (w: VerificationReport)
    ensures w.checks == v.checks + ["proof"]
    ensures w.errors == v.errors + ProofErrors(proof)
    ensures w.warnings == v.warnings && w.verifications == v.verifications
    ensures w.verified <==> w.errors == [] && w.warnings == []
  {
    var checked := v.(checks := v.checks + ["proof"]);
    match proof
    case Some(ok) =>
      var judged := if ok then checked else checked.(errors := checked.errors + ["invalid proof"]);
      judged.(verified := |judged.errors| == 0 && |judged.warnings| == 0)
    case None =>
      checked.(verified := false, errors := checked.errors + ["verifier error"])
  }

  /** The report built from `init` (the response's defaults) and the checks'
      findings. */
  function Report(init: VerificationReport, o: Observations): (v: VerificationReport)
    ensures v.checks ==
      init.checks + (if o.revoked.Some? then ["status"] else []) +
      (if o.expired.Some? then ["expiry"] else []) + ["proof"]
    ensures v.warnings == init.warnings
    ensures v.errors == init.errors + NewErrors(o)
    ensures v.verified <==> v.errors == [] && v.warnings == []
    ensures v.verifications == if o.revoked == Some(true) then [RevocationBad] else init.verifications
  {
    AfterProof(AfterExpiry(AfterStatus(init, o.revoked), o.expired), o.proof)
  }

  /** The report `verify_credential` computes for `vc`. */
  function Verify(vc: map<string, Value>, init: VerificationReport, env: Foreign, now: int): (r: Result<VerificationReport, Failure>)
    ensures r.Ok? <==> Observe(vc, env, now).Ok?
    ensures r.Err? ==> r.error == Observe(vc, env, now).error
    ensures r.Ok? ==>
      var o := Observe(vc, env, now).value;
      && r.value.errors == init.errors + NewErrors(o)
      && r.value.warnings == init.warnings
      && (r.value.verified <==> r.value.errors == [] && r.value.warnings == [])
      && r.value.checks == init.checks + (if "credentialStatus" in vc then ["status"] else []) +
           (if "expirationDate" in vc then ["expiry"] else []) + ["proof"]
  {
    match Observe(vc, env, now)
    case Err(e) => Err(e)
    case Ok(o) => Ok(Report(init, o))
  }

  /** Starting from clean defaults, a report is verified exactly when the
      credential is not revoked, not expired, and its proof checks out. */
  lemma VerifiedIffAllChecksPass(init: VerificationReport, o: Observations)
    requires init.errors == [] && init.warnings == []
    ensures Report(init, o).verified <==>
      o.revoked != Some(true) && o.expired != Some(true) && o.proof == Some(true)
  {
    assert Report(init, o).errors == NewErrors(o);
  }

  /** The status block of `verify_credential`. */
  method CheckStatus(doc: map<string, Value>, env: Foreign, verification: VerificationReport)
    returns (r: Result<VerificationReport, Failure>)
    ensures StatusCheck(doc, env).Err? ==> r == Err(StatusCheck(doc, env).error)
    ensures StatusCheck(doc, env).Ok? ==> r == Ok(AfterStatus(verification, StatusCheck(doc, env).value))
  {
    r := Ok(verification);
    if "credentialStatus" in doc {
      var statusType := Get(doc["credentialStatus"], "type");
      if statusType.Err? {
        return Err(statusType.error);
      }
      var v := verification.(checks := verification.checks + ["status"]);
      var status := env.credentialStatus(Obj(doc), statusType.value);
      if Truthy(status) {
        v := v.(errors := v.errors + ["revoked"]);
        v := v.(verifications := [RevocationBad]);
      }
      r := Ok(v);
    }
  }

  /** The expiration block of `verify_credential`. */
  method CheckExpiry(doc: map<string, Value>, env: Foreign, now: int, verification: VerificationReport)
    returns (r: Result<VerificationReport, Failure>)
    ensures ExpiryCheck(doc, env, now).Err? ==> r == Err(ExpiryCheck(doc, env, now).error)
    ensures ExpiryCheck(doc, env, now).Ok? ==> r == Ok(AfterExpiry(verification, ExpiryCheck(doc, env, now).value))
  {
    r := Ok(verification);
    if "expirationDate" in doc {
      var v := verification.(checks := verification.checks + ["expiry"]);
      var expiration := env.fromIsoFormat(doc["expirationDate"]);
      if expiration.None? {
        return Err(ValueError("expirationDate"));
      }
      if expiration.value < now {
        v := v.(errors := v.errors + ["expired"]);
      }
      r := Ok(v);
    }
  }

  /** The proof block of `verify_credential` and its verdict. */
  method CheckProof(doc: map<string, Value>, env: Foreign, verification: VerificationReport)
    returns (v: VerificationReport)
    ensures v == AfterProof(verification, ProofCheck(doc, env))
  {
    var verified := env.verify(Obj(doc));
    v := verification.(checks := verification.checks + ["proof"]);
    var field := Get(verified, "verified");
    if field.Ok? {
      if !Truthy(field.value) {
        v := v.(errors := v.errors + ["invalid proof"]);
      }
      v := v.(verified := |v.errors| == 0 && |v.warnings| == 0);
    } else {
      v := v.(verified := false);
      v := v.(errors := v.errors + ["verifier error"]);
    }
  }

  /** The steps of `verify_credential`, updating the report as it goes. */
  method AggregateVerification(vc: map<string, Value>, init: VerificationReport, env: Foreign, now: int)
    returns (r: Result<VerificationReport, Failure>)
    ensures r == Verify(vc, init, env, now)
  {
    if "context" !in vc {
      return Err(KeyError("context"));
    }
    var doc := (vc - {"context"})["@context" := vc["context"]];
    assert doc == Renamed(vc);
    var verification := init;
    var afterStatus := CheckStatus(doc, env, verification);
    if afterStatus.Err? {
      return Err(afterStatus.error);
    }
    verification := afterStatus.value;
    var afterExpiry := CheckExpiry(doc, env, now, verification);
    if afterExpiry.Err? {
      return Err(afterExpiry.error);
    }
    verification := afterExpiry.value;
    verification := CheckProof(doc, env, verification);
    r := Ok(verification);
  }

  /** The body `verify_credential` answers with, as written: the agent's
      reply, whatever the report says. */
  function VerifyResponse(vc: map<string, Value>, init: VerificationReport, env: Foreign, now: int): (r: Result<Value, Failure>)
    ensures r.Ok? <==> Verify(vc, init, env, now).Ok?
    ensures r.Ok? ==> "context" in vc && r.value == env.verify(Obj(Renamed(vc)))
  {
    match Verify(vc, init, env, now)
    case Err(e) => Err(e)
    case Ok(_) => Ok(env.verify(Obj(Renamed(vc))))
  }

  /** An expired credential whose proof the agent accepts is answered with
      `verified: true`, although the report says it is not verified. */
  lemma ExpiredCredentialAnsweredVerified()
    ensures
      var env := Foreign(
        (tenant, listType) => Null, (vc, statusType) => Null, (vc, bit, tenant) => Null,
        did => "", (doc, options, verkey) => Null,
        vc => Obj(map["verified" := Bool(true)]),
        date => Some(0), v => "");
      var vc := map["context" := Arr([]), "expirationDate" := Str("2020-01-01T00:00:00")];
      var init := VerificationReport([], [], [], [], false);
      && Verify(vc, init, env, 1).Ok?
      && !Verify(vc, init, env, 1).value.verified
      && VerifyResponse(vc, init, env, 1) == Ok(Obj(map["verified" := Bool(true)]))
  {
  }

  /** `verify_credential` answering with its report. */
  function VerifyResponseCorrected(vc: map<string, Value>, init: VerificationReport, env: Foreign, now: int): (r: Result<VerificationReport, Failure>)
    ensures r.Ok? <==> Observe(vc, env, now).Ok?
    ensures r.Ok? && r.value.verified ==>
      var o := Observe(vc, env, now).value;
      o.revoked != Some(true) && o.expired != Some(true) && o.proof == Some(true)
    ensures r.Ok? && init.errors == [] && init.warnings == [] ==>
      var o := Observe(vc, env, now).value;
      (r.value.verified <==> o.revoked != Some(true) && o.expired != Some(true) && o.proof == Some(true))
  {
    var v := Verify(vc, init, env, now);
    if v.Ok? && init.errors == [] && init.warnings == [] then
      VerifiedIffAllChecksPass(init, Observe(vc, env, now).value);
      v
    else v
  }
}
