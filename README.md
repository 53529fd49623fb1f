# Forestry backend Cloud Functions — a Dafny model

This project models the server side of the multi-tenant forestry data-collection
app: the five Firebase Cloud Functions of `functions/index.js`.

- `updateUserLicenseClaim` is a Firestore trigger on `clientes/{licenseId}`. It
  keeps each user's custom Auth claims `{licenseId, cargo}` in step with the
  license's `usuariosPermitidos` map.
- `adicionarMembroEquipe` lets a manager (`cargo == "gerente"`) create an Auth
  user. In one batch it adds the user to the license's `usuariosPermitidos` map,
  adds the uid to the `uidsPermitidos` array and writes a `users/{uid}` profile.
- `deletarProjeto` soft-deletes one of the manager's projects by setting its
  `status` to `deletado`.
- `delegarProjeto` issues a pending delegation key for one project.
- `vincularProjetoDelegado` lets a caller from another license redeem a pending
  key. The key becomes `ativa` and records the caller's license and a display name.

Files:

- `model.dfy` (module `Model`) holds the documents, the Auth records, the
  callable context and its request payloads, the error codes, JavaScript
  truthiness (`Truthy`) and JavaScript string length (`Utf16Length`).
- `claim_sync.dfy` (module `ClaimSync`) holds the claim diff. `ClaimDiff` is the
  pure specification. `ComputeClaimIssues` is the loop that collects the
  `setCustomUserClaims` calls. `ApplyClaimIssues` is their combined effect.
- `tenant.dfy` (module `Tenant`) holds the pure rules: the manager guard, input
  validation, `arrayUnion` and the map/array invariant, the license fallback,
  the display-name fallback chain and when a key can be redeemed.
- `handlers.dfy` (module `Handlers`) holds the class `Backend`. Its fields are
  the Firestore collections (`clientes`, `projetos`, `chaves`, `users`) and the
  Auth state (`accounts`, `claims`). It has one method per function. Two client
  scenarios come at the end.

Each callable handler takes its `data` payload as an `Option` of a request
record and returns `Ok(payload)` or `Err(e)`. Here `e` is the `HttpsError` code
it throws, or `internal` for any other exception. A missing payload (`data` is
null) makes the destructuring of `data` throw, so it gives `internal`. Every
state-changing method states its whole new state in terms of the old one.

Behaviours of the code worth knowing:

- Deletion is only the soft status flip of line 131. Nothing else is removed.
- When the caller's license document does not exist, the display name is
  `"Nome não encontrado"`, not the email (lines 217-220).
- An empty `chave` is rejected `invalid-argument` after the license is resolved
  (lines 190-193).
- The batch `update` of onboarding fails when the manager's license document is
  missing. The Auth user is then already created (the orphan-account gap).
- The password length is JavaScript's `length`, in UTF-16 code units, so three
  characters outside the Basic Multilingual Plane already pass (line 60).

## Model

| member | source | states |
|---|---|---|
| ClaimSync.ClaimFor | functions/index.js:28-43 | For one uid: it is cleared to `{null, null}` exactly when it was a member and is not one now. Any other write gives this license and the member's truthy `cargo`. A member now gets a write exactly when its `cargo` is truthy. A uid that is a member in neither map is skipped. |
| ClaimSync.ClaimDiff | functions/index.js:25-43 | Only uids of the before/after maps get claims. A member afterwards with a truthy `cargo` gets `{licenseId, cargo}`. A member afterwards without a `cargo` gets nothing. A member before who is absent or null afterwards gets `{null, null}`. No other uid gets anything. |
| ClaimSync.ComputeClaimIssues | functions/index.js:25-44 | The loop over `allUids` collects one call per uid. The calls are exactly the entries of `ClaimDiff`: no uid twice, none missing, none extra. |
| ClaimSync.ApplyClaimIssues | functions/index.js:45 | Once all collected calls have taken effect, the claims equal the old claims overridden by the diff. |
| ClaimSync.ResyncChangesNothing | functions/index.js:18-45 | After one invocation's claims are written, an invocation on a write that leaves `usuariosPermitidos` unchanged writes no different claim. |
| ClaimSync.GrantThenRevokeScenario | functions/index.js:28-43 | Writing `{u1: gerente}` to license T issues `{T, gerente}` for u1. Emptying the map then issues `{null, null}` for u1. |
| Handlers.Backend.SyncClaims | functions/index.js:18-47 | The trigger sets `claims` to the old claims overridden by `ClaimDiff` of the before/after snapshots. A missing snapshot counts as an empty map. Firestore is not written. |
| Tenant.IsManager | functions/index.js:55 | A manager always carries a truthy `licenseId`. Any `cargo` other than exactly `gerente` is refused. An authenticated token with a license and `cargo == "gerente"` passes. |
| Model.Utf16Length | functions/index.js:60 | `password.length` counts UTF-16 code units: at least one per character and at most two. Only the empty string has length 0. |
| Model.Utf16LengthOfBmp | functions/index.js:60 | For characters inside the Basic Multilingual Plane the length is the character count. |
| Model.Utf16LengthAppend | functions/index.js:60 | The length of a concatenation is the sum of the lengths. |
| Tenant.ValidMemberInput | functions/index.js:60 | A valid request has truthy email, name and role, and a password of at least three characters. Truthy fields with a password of six or more characters are always valid. |
| Tenant.PasswordLengthScenario | functions/index.js:60 | A password of three astral-plane characters passes the check. `"12345"` does not. |
| Tenant.CreateError | functions/index.js:105-110 | A `createUser` failure with code `auth/email-already-exists` gives `already-exists`. Every other code gives `internal`. |
| Tenant.ArrayUnion | functions/index.js:88 | `arrayUnion(uid)` keeps the old array as a prefix and contains uid. Its elements are the old ones plus uid. |
| Tenant.ArrayUnionOnce | functions/index.js:88 | If uid occurred at most once before, it occurs exactly once after `arrayUnion`. |
| Tenant.AddMember | functions/index.js:81-89 | The onboarding update maps uid to the new member and adds uid to `uidsPermitidos`. It keeps every other entry and every previous array element in place. |
| Tenant.AddMemberKeepsConsistent | functions/index.js:81-89 | If the map's keys and the array's elements agree and the array has no repeats, this still holds after the update, and the new uid is listed exactly once. |
| Handlers.Backend.AddTeamMember | functions/index.js:54-111 | Not a manager: `permission-denied`. No payload: `internal`. Missing field or password shorter than 6 UTF-16 code units: `invalid-argument`. Either way nothing changes and no account is created. A failed creation maps through `CreateError` and changes nothing. Otherwise the account is created. A missing license document then gives `internal` with Firestore unchanged. Else the license document gets `AddMember` and `users[uid]` gets `{email, licenseId}`. |
| Handlers.Backend.CommitMemberBatch | functions/index.js:77-99 | The batch writes the license update and the `users` profile together. It keeps the map/array invariant and lists the new uid once. |
| Handlers.Backend.DeleteProject | functions/index.js:119-137 | Not a manager: `permission-denied`. No payload: `internal`. Empty `projetoId`: `invalid-argument`. Missing project document: `internal`. Otherwise only that project's `status` becomes `deletado`. No other record changes. |
| Handlers.Backend.DelegateProject | functions/index.js:145-162 | Same guards, and an empty `projetoId` or `nomeProjeto` gives `invalid-argument`. On success it returns the key. The only change is a new record under the manager's license: status `pendente`, no invited license, one project id and one project name. |
| Tenant.ResolveLicense | functions/index.js:178-188 | The token's truthy `licenseId` wins. Otherwise the `users` profile's truthy `licenseId` is used. Otherwise there is none. A resolved id is never empty. |
| Tenant.EmailOrDefault | functions/index.js:228 | The token email if truthy, else `"Email não disponível"`. Never empty. |
| Tenant.ContractorName | functions/index.js:217-235 | `"Nome não encontrado"` when the caller's license document is missing. Otherwise the member's truthy `nome`, else `EmailOrDefault`. Never empty. |
| Handlers.Backend.LookUpContractorName | functions/index.js:216-235 | The step-by-step reassignment of `contractorName` yields `ContractorName`. |
| Tenant.KeyOf | functions/index.js:196-205 | The collection-group lookup by `chave` finds a record that exists and carries that `chave`. It finds none exactly when no record carries it, and with unique key ids it finds the only one. |
| Tenant.Redeemable | functions/index.js:207-212 | A key can be redeemed by a license exactly when the lookup finds a record of another license and that record is `pendente`. A redeemable key is pending. |
| Tenant.Redeemed | functions/index.js:239-244 | The redeemed record is `ativa` and records the caller's license and the display name. It keeps the key and its project lists. |
| Tenant.RedeemSpendsKey | functions/index.js:210-212 | After a redemption no record with that `chave` is pending, and key ids stay unique. |
| Handlers.Backend.LinkDelegatedProject | functions/index.js:171-248 | The checks run in this order. No auth, or no license from token or profile: `unauthenticated`. No payload: `internal`. Empty key: `invalid-argument`. Unknown key: `not-found`. Key of the caller's own license: `invalid-argument`. Key not `pendente`: `already-exists`. Otherwise only that record becomes `Redeemed`. Success holds exactly when another license's key is pending. Afterwards the key cannot be redeemed again. A key that is no longer pending never changes. |
| Handlers.DelegationScenario | functions/index.js:143-248 | T1 issues key k1 for P1. T2 redeems it. T1 redeeming it gets `invalid-argument`. T2 redeeming it again gets `already-exists`. |
| Handlers.OnboardingScenario | functions/index.js:54-62 | A 5-character password gets `invalid-argument` and a non-manager gets `permission-denied`. No account is created. |

## Left out

- Firebase initialisation, the region, App Check and `console` logging carry no logic.
- The concurrency of `Promise.all` is left out. The model applies the claim calls one after another, and none of them fails.
- The race between concurrent redemptions of one key is left out. Handlers run one at a time.
- `uuidv4()` is left out: the key id is a parameter that no existing key uses.
- `serverTimestamp()` fields (`adicionadoEm`, `dataCriacao`, `dataVinculo`) are omitted.
- The collection-group query is a lookup over all licenses' key records.
- Transient Firestore or Auth failures are left out. Only the failures the code's own data can cause are modelled: a batch on a missing license document and an update of a missing project.
- Handlers.Backend.LinkDelegatedProject: a failed read of the caller's license document (the `catch` at lines 231-235) is not modelled separately. Its result, the email fallback, is the one already given when the member has no `nome`.
- Passwords are not stored in the Auth accounts. Only email and display name are kept.
- The ID token a caller presents is an input. The model does not tie it to the `claims` the trigger writes.
- Request fields are optional strings. Non-string values, such as a numeric `projetoId` passed through `toString()`, are not modelled.
- `android/app/build.gradle.kts` is build configuration with no logic to verify.
