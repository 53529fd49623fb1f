/** The pure rules behind the callable handlers of functions/index.js: the
    manager guard, input validation, the `arrayUnion` write of onboarding and
    the membership invariant it keeps, license resolution and the display-name
    fallback of redemption, and when a delegation key can be redeemed. */
module Tenant {
  import opened Model

  // ---------------------------------------------------------------- guards

  /** `context.auth && context.auth.token.licenseId && context.auth.token.cargo === 'gerente'`. */
  predicate IsManager(auth: Option<Caller>)
    // a manager always carries the license the gated handlers then use
    ensures IsManager(auth) ==> auth.Some? && Truthy(auth.value.token.licenseId)
    // any other role, or none, is refused; the comparison is exact
    ensures auth.Some? && auth.value.token.cargo != Some(Manager) ==> !IsManager(auth)
    // an authenticated manager token with a license passes
    ensures auth.Some? && Truthy(auth.value.token.licenseId) && auth.value.token.cargo == Some(Manager) ==>
              IsManager(auth)
  {
    auth.Some? && Truthy(auth.value.token.licenseId) && auth.value.token.cargo == Some(Manager)
  }

  /** The input check of onboarding: all four fields truthy and a password
      whose JavaScript `length` (UTF-16 code units) is at least six. */
  predicate ValidMemberInput(req: MemberRequest)
    ensures ValidMemberInput(req) ==> Truthy(req.email) && Truthy(req.name) && Truthy(req.cargo)
    // six code units are at least three characters ...
    ensures ValidMemberInput(req) ==> req.password.Some? && |req.password.value| >= 3
    // ... and six characters always make six code units
    ensures (&& Truthy(req.email) && Truthy(req.name) && Truthy(req.cargo)
             && req.password.Some? && |req.password.value| >= 6) ==> ValidMemberInput(req)
  {
    && Truthy(req.email) && Truthy(req.password) && Truthy(req.name) && Truthy(req.cargo)
    && Utf16Length(req.password.value) >= 6
  }

  /** Three characters outside the Basic Multilingual Plane are six UTF-16
      code units, so such a password passes the length check, while five
      ordinary characters do not. */
  lemma PasswordLengthScenario()
    ensures ValidMemberInput(MemberRequest(Some("a@example.com"), Some("\U{1F332}\U{1F332}\U{1F332}"),
                                           Some("Ana"), Some("operador")))
    ensures !ValidMemberInput(MemberRequest(Some("a@example.com"), Some("12345"), Some("Ana"), Some("operador")))
  {
    Utf16LengthOfBmp("12345");
  }

  /** The error code a failed `createUser` maps to. */
  function CreateError(code: string): (e: Error)
    ensures e == AlreadyExists <==> code == "auth/email-already-exists"
    ensures e != AlreadyExists ==> e == Internal
  {
    if code == "auth/email-already-exists" then AlreadyExists else Internal
  }

  // ----------------------------------------------------- membership arrays

  /** How many times `x` occurs in `s`. */
  function Occurrences(s: seq<string>, x: string): nat
  {
    if s == [] then 0 else (if s[0] == x then 1 else 0) + Occurrences(s[1..], x)
  }

  lemma {:induction false} OccurrencesAppend(s: seq<string>, t: seq<string>, x: string)
    ensures Occurrences(s + t, x) == Occurrences(s, x) + Occurrences(t, x)
  {
    if s == [] {
      assert s + t == t;
    } else {
      assert (s + t)[1..] == s[1..] + t;
      OccurrencesAppend(s[1..], t, x);
    }
  }

  lemma {:induction false} OccurrencesZero(s: seq<string>, x: string)
    ensures Occurrences(s, x) == 0 <==> x !in s
  {
    if s != [] {
      OccurrencesZero(s[1..], x);
      assert s == [s[0]] + s[1..];
    }
  }

  /** Firestore's `arrayUnion(x)` on an array field: append `x` unless already present. */
  function ArrayUnion(s: seq<string>, x: string): (r: seq<string>)
    ensures x in r
    ensures |s| <= |r| && r[..|s|] == s
    ensures forall y :: y in r <==> y in s || y == x
  {
    if x in s then s else s + [x]
  }

  /** After `arrayUnion(x)`, `x` is in the array exactly once, provided it was
      not there twice already. */
  lemma ArrayUnionOnce(s: seq<string>, x: string)
    requires Occurrences(s, x) <= 1
    ensures Occurrences(ArrayUnion(s, x), x) == 1
  {
    if x in s {
      OccurrencesZero(s, x);
    } else {
      OccurrencesZero(s, x);
      OccurrencesAppend(s, [x], x);
      assert Occurrences([x], x) == 1 by {
        assert [x][1..] == [];
      }
    }
  }

  /** No element of the array repeats. */
  predicate NoDuplicates(s: seq<string>)
  {
    forall i, j :: 0 <= i < j < |s| ==> s[i] != s[j]
  }

  /** The license-document invariant: the uids of `usuariosPermitidos` are
      exactly the elements of `uidsPermitidos`, each listed once. */
  ghost predicate Consistent(doc: LicenseDoc)
  {
    && (forall u :: u in doc.usuariosPermitidos <==> u in doc.uidsPermitidos)
    && NoDuplicates(doc.uidsPermitidos)
  }

  /** The `batch.update` of onboarding on the manager's license document. */
  function AddMember(doc: LicenseDoc, uid: string, m: Member): (r: LicenseDoc)
    ensures uid in r.usuariosPermitidos && r.usuariosPermitidos[uid] == Some(m)
    ensures uid in r.uidsPermitidos
    ensures forall u :: u != uid ==> (u in r.usuariosPermitidos <==> u in doc.usuariosPermitidos)
    ensures forall u :: u != uid && u in doc.usuariosPermitidos ==>
              r.usuariosPermitidos[u] == doc.usuariosPermitidos[u]
    ensures |doc.uidsPermitidos| <= |r.uidsPermitidos| && r.uidsPermitidos[..|doc.uidsPermitidos|] == doc.uidsPermitidos
  {
    LicenseDoc(doc.usuariosPermitidos[uid := Some(m)], ArrayUnion(doc.uidsPermitidos, uid))
  }

  /** An array without repeats lists any value at most once. */
  lemma NoDuplicatesOccursOnce(s: seq<string>, x: string)
    requires NoDuplicates(s)
    ensures Occurrences(s, x) <= 1
  {
    if s != [] {
      assert NoDuplicates(s[1..]) by {
        forall i, j | 0 <= i < j < |s[1..]| ensures s[1..][i] != s[1..][j] {
          assert s[1..][i] == s[i + 1] && s[1..][j] == s[j + 1];
        }
      }
      NoDuplicatesOccursOnce(s[1..], x);
      if s[0] == x {
        assert x !in s[1..] by {
          forall k | 0 <= k < |s[1..]| ensures s[1..][k] != x {
            assert s[1..][k] == s[k + 1];
          }
        }
        OccurrencesZero(s[1..], x);
      }
    }
  }

  /** Onboarding keeps the map and the array in step, and lists the new uid
      exactly once. */
  lemma AddMemberKeepsConsistent(doc: LicenseDoc, uid: string, m: Member)
    requires Consistent(doc)
    ensures Consistent(AddMember(doc, uid, m))
    ensures Occurrences(AddMember(doc, uid, m).uidsPermitidos, uid) == 1
  {
    var s := doc.uidsPermitidos;
    var r := ArrayUnion(s, uid);
    if uid !in s {
      assert r == s + [uid];
      forall i, j | 0 <= i < j < |r| ensures r[i] != r[j] {
        if j == |s| {
          assert r[i] == s[i];
        }
      }
    }
    NoDuplicatesOccursOnce(s, uid);
    ArrayUnionOnce(s, uid);
  }

  // --------------------------------------------------------- redemption

  /** The license the redeeming caller acts for: the token's `licenseId`, or
      else the `licenseId` of their `users` profile; None when neither is set. */
  function ResolveLicense(caller: Caller, users: map<string, UserProfile>): (r: Option<string>)
    ensures r.Some? ==> r.value != ""
    ensures Truthy(caller.token.licenseId) ==> r == caller.token.licenseId
    ensures !Truthy(caller.token.licenseId) ==>
              (r.Some? <==> caller.uid in users && Truthy(users[caller.uid].licenseId))
    ensures r.Some? && !Truthy(caller.token.licenseId) ==> r == users[caller.uid].licenseId
  {
    if Truthy(caller.token.licenseId) then caller.token.licenseId
    else if caller.uid in users && Truthy(users[caller.uid].licenseId) then users[caller.uid].licenseId
    else None
  }

  const NameNotFound := "Nome não encontrado"
  const EmailUnavailable := "Email não disponível"

  /** `context.auth.token.email || "Email não disponível"`. */
  function EmailOrDefault(email: Option<string>): (r: string)
    ensures r != ""
    ensures Truthy(email) ==> r == email.value
    ensures !Truthy(email) ==> r == EmailUnavailable
  {
    if Truthy(email) then email.value else EmailUnavailable
  }

  /** The display name stamped on a redeemed key: the member's `nome` in the
      caller's license, else the token email, else a fixed text; and a fixed
      "not found" text when the caller's license document does not exist. */
  function ContractorName(clientes: map<string, LicenseDoc>, license: string, caller: Caller): (r: string)
    ensures r != ""
    ensures license !in clientes ==> r == NameNotFound
    ensures license in clientes ==>
              var users := clientes[license].usuariosPermitidos;
              if caller.uid in users && users[caller.uid].Some? && Truthy(users[caller.uid].value.nome)
              then r == users[caller.uid].value.nome.value
              else r == EmailOrDefault(caller.token.email)
  {
    if license !in clientes then NameNotFound
    else
      var users := clientes[license].usuariosPermitidos;
      if caller.uid in users && users[caller.uid].Some? && Truthy(users[caller.uid].value.nome)
      then users[caller.uid].value.nome.value
      else EmailOrDefault(caller.token.email)
  }

  /** Every key record sits under its own `chave` as document id, and no two
      licenses hold a key with the same id. */
  predicate KeysIndexed(chaves: map<KeyPath, DelegationKey>)
  {
    && (forall p :: p in chaves ==> chaves[p].chave == p.id)
    && (forall p, q :: p in chaves && q in chaves && p.id == q.id ==> p == q)
  }

  /** The record the collection-group query on `chave` finds, if any; with
      the keys indexed there is at most one. */
  ghost function KeyOf(chaves: map<KeyPath, DelegationKey>, chave: string): (r: Option<KeyPath>)
    requires KeysIndexed(chaves)
    ensures r.Some? ==> r.value in chaves && chaves[r.value].chave == chave
    ensures r.None? ==> forall p :: p in chaves ==> chaves[p].chave != chave
    ensures forall p :: p in chaves && chaves[p].chave == chave ==> r == Some(p)
  {
    if exists p :: p in chaves && chaves[p].chave == chave then
      var p :| p in chaves && chaves[p].chave == chave; Some(p)
    else
      None
  }

  /** Some key record with this `chave` is still pending. */
  ghost predicate HasPendingKey(chaves: map<KeyPath, DelegationKey>, chave: string)
  {
    exists p :: p in chaves && chaves[p].chave == chave && chaves[p].status == Pending
  }

  /** A key that the license `contractor` can still redeem: it exists, it is
      pending, and it belongs to another license. */
  ghost predicate Redeemable(chaves: map<KeyPath, DelegationKey>, chave: string, contractor: string)
    ensures Redeemable(chaves, chave, contractor) ==> HasPendingKey(chaves, chave)
    // with the keys indexed, it is the outcome of the lookup and the two checks
    ensures KeysIndexed(chaves) ==>
              (Redeemable(chaves, chave, contractor) <==>
                 var found := KeyOf(chaves, chave);
                 found.Some? && found.value.license != contractor && chaves[found.value].status == Pending)
  {
    exists p :: p in chaves && chaves[p].chave == chave && chaves[p].status == Pending && p.license != contractor
  }

  /** The record a successful redemption writes. */
  function Redeemed(k: DelegationKey, contractor: string, name: string): (r: DelegationKey)
    ensures r.status == Active && r.licenseIdConvidada == Some(contractor) && r.empresaConvidada == name
    ensures r.chave == k.chave && r.projetosPermitidos == k.projetosPermitidos && r.nomesProjetos == k.nomesProjetos
  {
    k.(status := Active, licenseIdConvidada := Some(contractor), empresaConvidada := name)
  }

  /** Once redeemed, a key is spent: no record with its `chave` is pending
      any more, so no license can redeem it again. */
  lemma RedeemSpendsKey(chaves: map<KeyPath, DelegationKey>, p: KeyPath, contractor: string, name: string)
    requires KeysIndexed(chaves) && p in chaves
    ensures KeysIndexed(chaves[p := Redeemed(chaves[p], contractor, name)])
    ensures !HasPendingKey(chaves[p := Redeemed(chaves[p], contractor, name)], chaves[p].chave)
  {
  }
}
