# Credential handlers of the traceability controller, in Dafny

This project models the credentials router of the traceability controller
(`app/routers/credentials.py`). The router is the HTTP surface through which a
tenant (an organization identified by its label) issues, verifies and
revokes W3C Verifiable Credentials. The signing, proof checking and status
bitstrings live in the Aries agent and in a status-list module. The router
decides how a request is rewritten, which requests are refused, which
records are written and in what order, and what a verification report says.
The model covers those decisions:

- **Issuance** (`Issuance`): `PrepareIssuance` follows `issue_credential` step by step.
  - It renames `context` to `@context` and generates `urn:uuid:` ids.
  - It appends the status-list context and entry for `StatusList2021Entry`
    and `RevocationList2020Status`.
  - It extracts the issuer DID. The issuer is a URI or an object with an
    `id`, as in section 4.5 of the W3C Verifiable Credentials Data Model 1.1.
  - It refuses any issuer other than the tenant's `did:web` DID.
  - It rewrites the proof options and builds the lower-case storage key.

  `IssueCredential` signs the credential and stores the unsigned credential.
- **Verification** (`Verification`): `AggregateVerification` builds the
  report's `checks`, `errors`, `verifications` and `verified` fields from
  three checks:
  - the status-list lookup when `credentialStatus` is present (section 4.9 of
    the Data Model);
  - the expiry when `expirationDate` is present (section 4.8);
  - the agent's proof result.

  Its result is proved equal to `Verify`, which builds the report (`Report`)
  from what the three checks observe (`Observe`).
- **Status update** (`StatusUpdate`): `UpdateCredentialStatus` fetches the
  stored credential under its lower-case key and takes its issuer DID. Then,
  for each requested status in order, it makes one signed `update_data` write
  to `label:status_list`. It stops at the first status without a readable
  `status` field.
- **Lookups** (`Credentials`): `get_credential` and
  `get_status_list_credential`, plus the parts the handlers share: the issuer
  DID, record keys and the exceptions request data can raise.

The store is the class `Storage.Store`: a map of records plus a log of every
write in order. The agent, the status-list module, the date parser and
Python's `str()` of non-string values are the function-typed fields of
`Credentials.Foreign`, and they stay uninterpreted. A Python exception raised
by a lookup on request data becomes a `Credentials.Failure` value. So do the
handlers' own refusals.

Behaviours the model makes explicit:
- A request whose status type names a status list has its entry created
  before the issuer is checked. A request refused with "Invalid issuer"
  therefore still takes a status entry (`PrepareIssuance`, ensures on
  `entryFor`).
- `options.pop("credentialStatus")` has no default. Issuance without
  `credentialStatus` in the options therefore always fails.
- Status lists are re-signed with the proof purpose `AssertionMethod`.
  Issuance signs with `assertionMethod` (`StatusUpdate.StatusListSignedUnlikeIssuance`).
- The status update writes `label:status_list`. `get_status_list_credential`
  reads `label:status_lists:<type>` (`StatusUpdate.StatusListKeyNotServed`).
  Whether the status-list module also writes that second key is outside this
  model.

The repository's deployment configuration (Helm values, Kubernetes
templates) describes none of these handlers. The model follows the handler
code.

## Model

| member | source | states |
|---|---|---|
| Json.Truthy | app/routers/credentials.py:128 | a value is falsy exactly when it is None, False, 0, the empty string, the empty list or the empty dict, as Python's `if status:` and `if not verified["verified"]:` (line 144) test it |
| Text.Lower | app/routers/credentials.py:99 | the lower-case form of a key has the same length, replaces each upper-case letter by its lower-case letter, keeps every other character, and contains no upper-case letter |
| Text.LowerConcat | app/routers/credentials.py:99 | lower-casing `label:credentials:id` lower-cases each part separately |
| Text.LowerAround | app/routers/credentials.py:99 | lower-casing `label` + ":credentials:" + `id` keeps the lower-case separator and lower-cases the label and the id on either side of it |
| Text.LowerFixesLowerCase | app/routers/credentials.py:171 | a key that is already lower case is unchanged by lower-casing |
| Text.LowerIdempotent | app/routers/credentials.py:171 | lower-casing a key twice gives the same key as once |
| Storage.Store.Fetch | app/routers/credentials.py:172 | a fetch finds a record exactly when one is stored under the key, and returns that record |
| Storage.Store.StoreData | app/routers/credentials.py:100 | storing records the value under the key and appends one insert to the write log |
| Storage.Store.UpdateData | app/routers/credentials.py:187 | updating replaces the value under the key and appends one replace to the write log |
| Storage.AppliedKeys | app/routers/credentials.py:180-187 | the records after a sequence of writes have exactly the old keys plus the written keys |
| Storage.AppliedSnoc | app/routers/credentials.py:187 | one more write sets its key to its value on top of the records the earlier writes left |
| Storage.AppliedToOneKey | app/routers/credentials.py:180-187 | writes that all target one key leave it holding the last value written and every other record unchanged |
| Credentials.Get | app/routers/credentials.py:61 | `v[key]` succeeds exactly on a dict holding the key, with that field; it raises KeyError on a dict without it and TypeError on any other value |
| Credentials.IssuerDid | app/routers/credentials.py:73-77 | the issuer DID is `issuer` when it is a string, else `issuer["id"]`; it fails when `issuer` is absent, when it is an object without `id`, or when it is neither string nor object |
| Credentials.TenantDidInjective | app/routers/credentials.py:78 | the tenant DID `DID_WEB_BASE:organization:label` determines the label: distinct tenants under one base have distinct DIDs |
| Credentials.CredentialKey | app/routers/credentials.py:99 | the credential record key is lower case and equals lower(label) + ":credentials:" + lower(id) |
| Credentials.GetCredential | app/routers/credentials.py:27-37 | `get_credential` returns the record under the unlowered `label:credentials:id` when there is one, and otherwise raises 404 "credential <id> not found" |
| Credentials.GetCredentialMissesMixedCaseId | app/routers/credentials.py:30 | a credential stored under an id containing an upper-case letter is not found by `get_credential` with that same id |
| Credentials.GetCredentialCorrected | app/routers/credentials.py:30 | the corrected lookup returns exactly the record under the issuance key, and raises 404 otherwise |
| Credentials.GetCorrectedFindsStored | app/routers/credentials.py:30 | the corrected lookup finds a stored credential under its id written in any case |
| Credentials.GetStatusListCredential | app/routers/credentials.py:197-207 | the served status list is the record under `label:status_lists:<type>`; when it is missing the 404 exception is returned, not raised |
| Credentials.ServedStatusListKeyPerType | app/routers/credentials.py:200 | the served record `label:status_lists:<type>` determines the list type: each type of a tenant is served from its own record |
| Credentials.StatusListHandlersDifferWhenMissing | app/routers/credentials.py:199-207 | the handler as written and the corrected one answer alike exactly when the list is stored; when it is missing, the one returns the very 404 exception the other raises |
| Credentials.GetStatusListCredentialCorrected | app/routers/credentials.py:202-206 | the corrected handler raises 404 "Status list not found" exactly when the list is missing, and otherwise returns it |
| Issuance.StatusListFor | app/routers/credentials.py:60-70 | a status type selects a list exactly when it is StatusList2021Entry (list StatusList2021, context https://w3id.org/vc/status-list/2021/v1) or RevocationList2020Status (list RevocationList2020, context https://w3id.org/vc-revocation-list-2020/v1) |
| Issuance.FillCredential | app/routers/credentials.py:52-69 | the rewrite fails exactly when `context` is missing, a requested status's `type` cannot be read, or a status list is requested and `@context` is not a list; on success `@context` holds the caller's context (with the list's context URL appended when a list is requested), a given id is kept and a missing one becomes `urn:uuid:<uuid>`, a status entry is created exactly when a list is requested, and no other field changes |
| Issuance.PrepareIssuance | app/routers/credentials.py:49-99 | issuance succeeds iff every step before the issuer check goes through and the issuer DID equals DID_WEB_BASE:organization:label. It fails with "Invalid issuer" iff those steps go through and the issuer DID is readable but different. Without `context`, or without `credentialStatus` in the options, it fails. A status entry is taken iff the type names a list, even when the issuer is then refused. On success: `@context` is the caller's `context`, with the list's context URL appended for StatusList2021Entry and RevocationList2020Status and unchanged otherwise; a given id is kept, a missing one becomes `urn:uuid:<uuid>`; the credential gets the created status entry; no other credential key changes; the options lose `created` and `credentialStatus`, get proofPurpose "assertionMethod" and verificationMethod did#verkey, and keep every other key; the key is the lower-case credential key of the id |
| Issuance.IssueCredential | app/routers/credentials.py:46-102 | issuance fails exactly as preparing it does: KeyError without `context`, a failure without `credentialStatus` in the options, "Invalid issuer" iff the readable issuer DID is not the tenant's; a status entry is taken iff the status type names a list, even when the issuer is refused; a failed issuance writes nothing. On success the prepared credential and options are those derived from the request (as for PrepareIssuance), the answer is their signature with the tenant DID's verkey, and exactly one insert stores the prepared credential under its lower-case key |
| Verification.Renamed | app/routers/credentials.py:118 | the credential sent on has `@context` set to the caller's `context`, no `context`, and every other field unchanged |
| Verification.StatusCheck | app/routers/credentials.py:122-130 | the status is checked iff `credentialStatus` is present; the check raises exactly when its `type` cannot be read, with that lookup's exception; otherwise the credential counts as revoked iff `get_credential_status(doc, type)` is truthy |
| Verification.ExpiryCheck | app/routers/credentials.py:132-139 | expiry is checked iff `expirationDate` is present; the check raises ValueError exactly when that date is present and cannot be parsed; otherwise the credential counts as expired iff the parsed date is strictly before now |
| Verification.ProofCheck | app/routers/credentials.py:141-145 | the agent's reply has a readable result exactly when it is a dict with a `verified` field, and then the proof counts as accepted iff that field is truthy |
| Verification.Observe | app/routers/credentials.py:116-144 | a credential without `context` raises KeyError; otherwise the handler raises exactly when the status type cannot be read (that exception first) or the expiration date cannot be parsed (ValueError), and the findings are exactly the status, expiry and proof checks' answers on the renamed credential, present exactly when their fields are |
| Verification.NewErrors | app/routers/credentials.py:128-153 | the checks add between one and three errors exactly when some check fails (revoked, expired, proof rejected or unreadable), and none otherwise |
| Verification.NewErrorsNameFailedChecks | app/routers/credentials.py:128-153 | "revoked" is added iff the status lookup is truthy; "expired" iff the expiration is before now; "invalid proof" iff the agent's verified field is falsy; "verifier error" iff that field cannot be read |
| Verification.AfterStatus | app/routers/credentials.py:122-130 | a status check appends "status" to the checks; a revoked credential also gets "revoked" in its errors and the single Revocation/bad verification; warnings stay as they were |
| Verification.AfterExpiry | app/routers/credentials.py:132-139 | an expiry check appends "expiry" to the checks and, for an expired credential, "expired" to the errors; warnings and verifications stay as they were |
| Verification.AfterProof | app/routers/credentials.py:141-154 | the proof check appends "proof" to the checks and "invalid proof" or "verifier error" to the errors when the proof is rejected or unreadable; the report is verified iff its errors and warnings are both empty |
| Verification.Report | app/routers/credentials.py:119-153 | checks are the defaults, then "status" if checked, then "expiry" if checked, then always "proof"; warnings are unchanged; errors are the defaults followed by the new errors; verifications become the single Revocation/bad entry iff revoked; verified iff errors and warnings are both empty |
| Verification.Verify | app/routers/credentials.py:116-153 | the report is built exactly when the checks can all be made, and otherwise the handler raises their exception; its checks are the defaults, then "status" iff `credentialStatus` is present, "expiry" iff `expirationDate` is present, then "proof"; its errors are the defaults followed by one per failed check; warnings are unchanged; verified iff errors and warnings are empty |
| Verification.VerifiedIffAllChecksPass | app/routers/credentials.py:146-149 | from empty defaults, the report is verified iff the credential is not revoked, not expired and its proof is accepted |
| Verification.CheckStatus | app/routers/credentials.py:122-130 | the status block raises exactly the status check's exception, and otherwise updates the report as the status check specifies |
| Verification.CheckExpiry | app/routers/credentials.py:132-139 | the expiry block raises ValueError exactly when the expiration date cannot be parsed, and otherwise updates the report as the expiry check specifies |
| Verification.CheckProof | app/routers/credentials.py:141-154 | the proof block updates the report as the proof check specifies for the agent's reply |
| Verification.AggregateVerification | app/routers/credentials.py:116-153 | the step-by-step updates of the report produce exactly the specified report, or the exception the specification names |
| Verification.VerifyResponse | app/routers/credentials.py:141-154 | the handler answers exactly when the report is built, and its answer is the agent's reply, not the report |
| Verification.ExpiredCredentialAnsweredVerified | app/routers/credentials.py:138-150 | an expired credential whose proof the agent accepts gets an unverified report but an answer saying verified: true |
| Verification.VerifyResponseCorrected | app/routers/credentials.py:141-154 | answering with the report: a verified answer implies not revoked, not expired and proof accepted, and from empty defaults the converse holds |
| StatusUpdate.StatusListKeyNotServed | app/routers/credentials.py:186 | the status-list record the update writes is never the record `get_status_list_credential` reads |
| StatusUpdate.StatusListKeyPerTenant | app/routers/credentials.py:186 | the record `label:status_list` determines the label: each tenant's updates go to a record of its own |
| StatusUpdate.SigningOptions | app/routers/credentials.py:176-179 | the status list is signed with exactly two options: verificationMethod did#verkey and proofPurpose "AssertionMethod" |
| StatusUpdate.StatusListSignedUnlikeIssuance | app/routers/credentials.py:176-179 | for any request issuance prepares, the status list is signed for the same verificationMethod as the issued credential but with a different proofPurpose ("AssertionMethod" against issuance's "assertionMethod", line 90) |
| StatusUpdate.Processed | app/routers/credentials.py:180-181 | the loop gets through exactly the longest prefix of statuses whose `status` field can be read |
| StatusUpdate.ProcessedAll | app/routers/credentials.py:180-181 | when every status has a readable `status`, every status is processed |
| StatusUpdate.StatusWrite | app/routers/credentials.py:182-187 | each pass replaces `label:status_list` with the list `change_credential_status` returns for the stored credential and the bit, signed with the issuer's verkey and the signing options |
| StatusUpdate.StatusWrites | app/routers/credentials.py:180-187 | the update makes exactly one write per processed status, in list order, each the status list changed for that status's bit and signed with the issuer's verkey |
| StatusUpdate.StatusWritesExtend | app/routers/credentials.py:180-187 | one more processed status appends exactly its signed status-list write to the writes made so far |
| StatusUpdate.StatusWritesStop | app/routers/credentials.py:180-181 | when the loop reaches the end or a status without a readable bit, the writes made so far are all the update makes |
| StatusUpdate.StatusWritesTargetStatusList | app/routers/credentials.py:186-187 | every status-update write is an `update_data` of `label:status_list` |
| StatusUpdate.StatusUpdateKeepsLastList | app/routers/credentials.py:180-187 | after the update, `label:status_list` holds the list signed for the last processed status, and no other record changes |
| StatusUpdate.SigningSubject | app/routers/credentials.py:171-174 | the update gets its subject exactly when a record is stored under the lower-case credential key, is a dict, and has a readable issuer; it then works on that record and signs with its issuer DID; a missing record fails with NotFound |
| StatusUpdate.StatusOutcome | app/routers/credentials.py:180-189 | the update answers "Status updated" iff every requested status has a readable `status`; otherwise it fails with the exception of the first status whose bit cannot be read |
| StatusUpdate.WriteStatus | app/routers/credentials.py:181-187 | one pass of the loop appends exactly the signed status-list write for the current status to the log, and applies it to the records |
| StatusUpdate.WriteStatuses | app/routers/credentials.py:175-189 | the loop's writes are exactly the specified status writes, in order, and the store ends as those writes leave it; its answer is the specified outcome |
| StatusUpdate.UpdateCredentialStatus | app/routers/credentials.py:163-189 | the credential is fetched from the store under its lower-case key; when it or its issuer cannot be read, nothing is written; otherwise the writes and the final records are those of the status loop |
| StatusUpdate.IssueThenUpdateStatus | app/routers/credentials.py:171-174 | issuance succeeds exactly when it does on its own, and then prepares the credential and options derived from the request; updating the status of that credential by the id it was issued with finds the stored credential and signs every status list with the tenant's own DID; the write log is the single issuance insert followed by the status writes, and the records end as those writes leave them; a failed issuance changes nothing |

## Left out

- FastAPI routing, `JWTBearer`, `is_authorized` and `format_label`: framework and authorization code whose implementation is not part of this model. The tenant label is taken as already normalised.
- The pydantic request schemas and `.dict(exclude_none=True)`: the credential, options and statuses are taken as they are after that conversion.
- Askar storage: modelled as a map of records and a write log. `fetch_data` of an absent key is taken to raise, as the handlers' `except` clauses expect. `store_data` and `update_data` both overwrite the record.
- Agent calls (`get_verkey`, `sign_json_ld`, `verify_credential`) and the status-list module (`create_entry`, `get_credential_status`, `change_credential_status`): uninterpreted functions. Their own failures, and the status-list module's internal state (such as the index `create_entry` allocates), are not modelled.
- `uuid.uuid4()` and `datetime.now()`: the UUID and the current time are parameters, and times are integers. Time zones are not modelled.
- `print` calls, the `JSONResponse` wrapping, and the HTTP status FastAPI sends for an unhandled exception: a `Failure` value stands for the exception.
- Python dict key order: maps are unordered, so the model does not say where `@context` or generated fields fall in the serialised credential.
- JSON numbers are integers; floating point is not modelled.
- Concurrency between the `await` points of the async handlers is not modelled.
- Text.Lower: only ASCII letters A–Z are lowered, while Python's `str.lower()` lowers every Unicode cased letter.
- StatusUpdate.SigningSubject: the issuer DID is rendered with `str()` before it is passed to `get_verkey`, while line 175 passes the raw value; the two differ only for a stored credential whose issuer `id` is not a string, and issuance never stores one, since it requires the issuer DID to equal the tenant's DID string.
- Verification.StatusCheck: the result of `get_credential_status` is taken as the value it returns; line 127 calls it without `await`, and if it is a coroutine function its truthiness is that of the coroutine object, which this model does not single out.
- Verification.ExpiryCheck: a TypeError from `fromisoformat` on a non-string `expirationDate` is reported as the same ValueError as an unparsable string.
- Verification.VerifyResponse: the bare `except` at line 151 is modelled only for the lookup of the agent's `verified` field, the one statement in that block that can raise on JSON data.
- The Helm/Kubernetes deployment configuration: declarative configuration, not logic.

## Findings

| source | as written | input that shows it | evidently intended | confidence | as-written member | corrected member |
|---|---|---|---|---|---|---|
| app/routers/credentials.py:150 | `verify_credential` builds the report `verification` and then answers with the agent's reply `verified` (also at line 154) | a credential whose `expirationDate` is before now, with the agent replying `{"verified": true}`: the report says verified false with error "expired", but the answer says verified true | answer with the report, whose `verified` accounts for revocation and expiry | medium, not executed | Verification.VerifyResponse, Verification.ExpiredCredentialAnsweredVerified | Verification.VerifyResponseCorrected |
| app/routers/credentials.py:30 | `get_credential` looks up `label:credentials:id` without lower-casing, while issuance stores under the lower-cased key (line 99) | tenant `acme` issues a credential with id `urn:example:ABC`; `GET .../credentials/urn:example:ABC` looks up a key holding `ABC` and answers 404 | look up `CredentialKey`, the lower-case key used at lines 99 and 171 | medium, not executed | Credentials.GetCredential, Credentials.GetCredentialMissesMixedCaseId | Credentials.GetCredentialCorrected |
| app/routers/credentials.py:203 | `get_status_list_credential` returns the `ValidationException` instead of raising it | any list type for which no status list is stored | raise the 404 "Status list not found" | medium, not executed | Credentials.GetStatusListCredential, Credentials.StatusListHandlersDifferWhenMissing | Credentials.GetStatusListCredentialCorrected |
