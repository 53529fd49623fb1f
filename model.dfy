/** Data model of the forestry backend's Cloud Functions (functions/index.js):
    the documents they read and write in Firestore, the Auth state they touch,
    the callable context they receive and the typed errors they raise. */
module Model {

  datatype Option<+T> = None | Some(value: T)

  /** The HttpsError codes the handlers raise. */
  datatype Error =
    | Unauthenticated
    | PermissionDenied
    | InvalidArgument
    | NotFound
    | AlreadyExists
    | Internal

  /** Either the handler's return payload or the one error it throws. */
  datatype Result<+T> = Ok(value: T) | Err(error: Error)

  /** JavaScript truthiness of an optional string field: absent, null and ""
      are falsy, every other string is truthy. */
  predicate Truthy(o: Option<string>)
  {
    o.Some? && o.value != ""
  }

  /** An entry of a license's `usuariosPermitidos` map (its `adicionadoEm`
      server timestamp is not modelled). */
  datatype Member = Member(cargo: Option<string>, email: Option<string>, nome: Option<string>)

  /** A `clientes/{licenseId}` document. A key of `usuariosPermitidos` may hold
      null, hence the `Option<Member>` values; a missing map is the empty map. */
  datatype LicenseDoc = LicenseDoc(
    usuariosPermitidos: map<string, Option<Member>>,
    uidsPermitidos: seq<string>)

  /** Path of `clientes/{license}/projetos/{id}`. */
  datatype ProjectPath = ProjectPath(license: string, id: string)

  /** A project document: its `status` field and the rest of its fields. */
  datatype ProjectDoc = ProjectDoc(status: Option<string>, fields: map<string, string>)

  /** Path of `clientes/{license}/chavesDeDelegacao/{id}`. */
  datatype KeyPath = KeyPath(license: string, id: string)

  /** A delegation key record (timestamps `dataCriacao`/`dataVinculo` omitted). */
  datatype DelegationKey = DelegationKey(
    chave: string,
    status: string,
    licenseIdConvidada: Option<string>,
    empresaConvidada: string,
    projetosPermitidos: seq<string>,
    nomesProjetos: seq<string>)

  /** A `users/{uid}` profile document. */
  datatype UserProfile = UserProfile(email: Option<string>, licenseId: Option<string>)

  /** An Auth user record. */
  datatype Account = Account(email: string, displayName: string)

  /** Custom claims attached to an Auth user. */
  datatype Claims = Claims(licenseId: Option<string>, cargo: Option<string>)

  /** The claims written when a user leaves a license. */
  const Cleared := Claims(None, None)

  /** The decoded ID token of a callable request (`context.auth.token`). */
  datatype Token = Token(licenseId: Option<string>, cargo: Option<string>, email: Option<string>)

  /** `context.auth` when present. */
  datatype Caller = Caller(uid: string, token: Token)

  /** The `data` payloads of the callable handlers. A handler receives
      `Option<...>` of one of these: None when the client sent no payload
      (`data` is null), which makes the destructuring of `data` throw. */
  datatype MemberRequest = MemberRequest(email: Option<string>, password: Option<string>,
                                         name: Option<string>, cargo: Option<string>)
  datatype ProjectRequest = ProjectRequest(projetoId: Option<string>)
  datatype DelegationRequest = DelegationRequest(projetoId: Option<string>, nomeProjeto: Option<string>)
  datatype LinkRequest = LinkRequest(chave: Option<string>)

  /** JavaScript's `s.length`: the number of UTF-16 code units, so a
      character outside the Basic Multilingual Plane counts twice. */
  function Utf16Length(s: string): (n: nat)
    ensures |s| <= n <= 2 * |s|
    ensures s == [] <==> n == 0
  {
    if s == [] then 0
    else (if s[|s| - 1] as int >= 0x10000 then 2 else 1) + Utf16Length(s[..|s| - 1])
  }

  /** A string of Basic Multilingual Plane characters has one code unit per
      character. */
  lemma {:induction false} Utf16LengthOfBmp(s: string)
    requires forall i :: 0 <= i < |s| ==> s[i] as int < 0x10000
    ensures Utf16Length(s) == |s|
  {
    if s != [] {
      Utf16LengthOfBmp(s[..|s| - 1]);
    }
  }

  /** The code units of a concatenation are those of its parts. */
  lemma {:induction false} Utf16LengthAppend(s: string, t: string)
    ensures Utf16Length(s + t) == Utf16Length(s) + Utf16Length(t)
  {
    if t != [] {
      assert (s + t)[..|s + t| - 1] == s + t[..|t| - 1];
      Utf16LengthAppend(s, t[..|t| - 1]);
    } else {
      assert s + t == s;
    }
  }

  /** What `admin.auth().createUser` answers: a new uid, or an error code. */
  datatype CreateOutcome = Created(uid: string) | CreateFailed(code: string)

  /** The role that the gated handlers demand. */
  const Manager := "gerente"

  /** Key statuses. */
  const Pending := "pendente"
  const Active := "ativa"
}
