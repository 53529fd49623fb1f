/** The five Cloud Functions of functions/index.js as methods of one object
    that holds the Firestore collections and the Auth state they touch. Each
    callable handler returns its payload or the one typed error it throws. */
module Handlers {
  import opened Model
  import opened ClaimSync
  import opened Tenant

  class Backend {
    // Firestore
    var clientes: map<string, LicenseDoc>
    var projetos: map<ProjectPath, ProjectDoc>
    var chaves: map<KeyPath, DelegationKey>
    var users: map<string, UserProfile>
    // Firebase Auth
    var accounts: map<string, Account>
    var claims: map<string, Claims>

    /** The store invariant: every delegation key is filed under its own id. */
    ghost predicate Valid()
      reads this
    {
      KeysIndexed(chaves)
    }

    constructor (clientes0: map<string, LicenseDoc>, projetos0: map<ProjectPath, ProjectDoc>,
                 chaves0: map<KeyPath, DelegationKey>, users0: map<string, UserProfile>,
                 accounts0: map<string, Account>)
      requires KeysIndexed(chaves0)
      ensures Valid()
      ensures clientes == clientes0 && projetos == projetos0 && chaves == chaves0
      ensures users == users0 && accounts == accounts0 && claims == map[]
    {
      clientes, projetos, chaves, users := clientes0, projetos0, chaves0, users0;
      accounts, claims := accounts0, map[];
    }

    /** `updateUserLicenseClaim`: the trigger on a write to `clientes/{licenseId}`
        sets or clears the custom claims of every uid the write concerns. */
    method SyncClaims(licenseId: string, before: Option<LicenseDoc>, after: Option<LicenseDoc>)
      requires Valid()
      modifies this
      ensures Valid()
      ensures claims == old(claims) + ClaimDiff(licenseId, UsersOf(before), UsersOf(after))
      ensures clientes == old(clientes) && projetos == old(projetos) && chaves == old(chaves)
      ensures users == old(users) && accounts == old(accounts)
    {
      var issues := ComputeClaimIssues(licenseId, before, after);
      claims := ApplyClaimIssues(claims, issues, ClaimDiff(licenseId, UsersOf(before), UsersOf(after)));
    }

    /** `adicionarMembroEquipe`: a manager creates an Auth user and registers it
        in their license, in one batch with its `users` profile. */
    method AddTeamMember(auth: Option<Caller>, data: Option<MemberRequest>, create: CreateOutcome)
      returns (r: Result<string>)
      requires Valid()
      requires create.Created? ==> create.uid !in accounts
      modifies this
      ensures Valid()
      ensures projetos == old(projetos) && chaves == old(chaves) && claims == old(claims)
      // the checks come first and leave everything unchanged
      ensures !IsManager(auth) ==> r == Err(PermissionDenied)
      ensures IsManager(auth) && data.None? ==> r == Err(Internal)
      ensures IsManager(auth) && data.Some? && !ValidMemberInput(data.value) ==> r == Err(InvalidArgument)
      ensures !IsManager(auth) || data.None? || !ValidMemberInput(data.value) ==>
                clientes == old(clientes) && users == old(users) && accounts == old(accounts)
      // a failed account creation changes nothing and maps its error code
      ensures IsManager(auth) && data.Some? && ValidMemberInput(data.value) && create.CreateFailed? ==>
                && r == Err(CreateError(create.code))
                && clientes == old(clientes) && users == old(users) && accounts == old(accounts)
      // otherwise the account is created, then the batch is committed
      ensures IsManager(auth) && data.Some? && ValidMemberInput(data.value) && create.Created? ==>
                var lid := auth.value.token.licenseId.value;
                var req := data.value;
                && accounts == old(accounts)[create.uid := Account(req.email.value, req.name.value)]
                && (lid !in old(clientes) ==> r == Err(Internal) && clientes == old(clientes) && users == old(users))
                && (lid in old(clientes) ==>
                      && r == Ok(AddedMessage(req.name.value))
                      && clientes == old(clientes)[lid := AddMember(old(clientes)[lid], create.uid,
                                                                    Member(req.cargo, req.email, req.name))]
                      && users == old(users)[create.uid := UserProfile(req.email, Some(lid))])
    {
      if !IsManager(auth) {
        return Err(PermissionDenied);
      }
      if data.None? {
        // destructuring a null `data` throws
        return Err(Internal);
      }
      var email, password, name, cargo := data.value.email, data.value.password, data.value.name, data.value.cargo;
      if !Truthy(email) || !Truthy(password) || !Truthy(name) || !Truthy(cargo) || Utf16Length(password.value) < 6 {
        return Err(InvalidArgument);
      }
      var managerLicenseId := auth.value.token.licenseId.value;
      // step 1: create the Auth user
      match create {
        case CreateFailed(code) =>
          if code == "auth/email-already-exists" {
            return Err(AlreadyExists);
          }
          return Err(Internal);
        case Created(uid) =>
          accounts := accounts[uid := Account(email.value, name.value)];
          // steps 2-5: one batch; its update of a missing document fails the commit
          if managerLicenseId !in clientes {
            return Err(Internal);
          }
          CommitMemberBatch(managerLicenseId, uid, Member(cargo, email, name), email);
          return Ok(AddedMessage(name.value));
      }
    }

    /** The onboarding batch: the new entry of `usuariosPermitidos`, the
        `arrayUnion` on `uidsPermitidos` and the new `users` profile, written
        together. The license document keeps its map and array in step, and
        the new uid is listed once. */
    method CommitMemberBatch(license: string, uid: string, member: Member, email: Option<string>)
      requires license in clientes
      modifies this`clientes, this`users
      ensures clientes == old(clientes)[license := AddMember(old(clientes)[license], uid, member)]
      ensures users == old(users)[uid := UserProfile(email, Some(license))]
      ensures Consistent(old(clientes)[license]) ==>
                Consistent(clientes[license]) && Occurrences(clientes[license].uidsPermitidos, uid) == 1
      ensures Occurrences(old(clientes)[license].uidsPermitidos, uid) <= 1 ==>
                Occurrences(clientes[license].uidsPermitidos, uid) == 1
    {
      var doc := clientes[license];
      if Consistent(doc) {
        AddMemberKeepsConsistent(doc, uid, member);
      }
      if Occurrences(doc.uidsPermitidos, uid) <= 1 {
        ArrayUnionOnce(doc.uidsPermitidos, uid);
      }
      clientes := clientes[license := AddMember(doc, uid, member)];
      users := users[uid := UserProfile(email, Some(license))];
    }

    /** `deletarProjeto`: a manager moves one of their license's projects to
        the bin by setting its `status` to `deletado`. */
    method DeleteProject(auth: Option<Caller>, data: Option<ProjectRequest>) returns (r: Result<string>)
      requires Valid()
      modifies this
      ensures Valid()
      ensures clientes == old(clientes) && chaves == old(chaves) && users == old(users)
      ensures accounts == old(accounts) && claims == old(claims)
      ensures r.Err? ==> projetos == old(projetos)
      ensures !IsManager(auth) ==> r == Err(PermissionDenied)
      ensures IsManager(auth) && data.None? ==> r == Err(Internal)
      ensures IsManager(auth) && data.Some? && !Truthy(data.value.projetoId) ==> r == Err(InvalidArgument)
      ensures IsManager(auth) && data.Some? && Truthy(data.value.projetoId) ==>
                var path := ProjectPath(auth.value.token.licenseId.value, data.value.projetoId.value);
                if path in old(projetos) then
                  && r == Ok("Projeto movido para a lixeira com sucesso.")
                  && projetos == old(projetos)[path := old(projetos)[path].(status := Some("deletado"))]
                else
                  r == Err(Internal)
    {
      if !IsManager(auth) {
        return Err(PermissionDenied);
      }
      if data.None? {
        return Err(Internal);
      }
      var projetoId := data.value.projetoId;
      if !Truthy(projetoId) {
        return Err(InvalidArgument);
      }
      var licenseId := auth.value.token.licenseId.value;
      var projetoRef := ProjectPath(licenseId, projetoId.value);
      // `update` of a missing document fails
      if projetoRef !in projetos {
        return Err(Internal);
      }
      projetos := projetos[projetoRef := projetos[projetoRef].(status := Some("deletado"))];
      return Ok("Projeto movido para a lixeira com sucesso.");
    }

    /** `delegarProjeto`: a manager issues a pending delegation key for one of
        their projects; `chaveId` is the fresh identifier `uuidv4()` yields. */
    method DelegateProject(auth: Option<Caller>, data: Option<DelegationRequest>, chaveId: string)
      returns (r: Result<string>)
      requires Valid()
      requires forall p :: p in chaves ==> p.id != chaveId
      modifies this
      ensures Valid()
      ensures clientes == old(clientes) && projetos == old(projetos) && users == old(users)
      ensures accounts == old(accounts) && claims == old(claims)
      ensures r.Err? ==> chaves == old(chaves)
      ensures !IsManager(auth) ==> r == Err(PermissionDenied)
      ensures IsManager(auth) && data.None? ==> r == Err(Internal)
      ensures IsManager(auth) && data.Some? && !(Truthy(data.value.projetoId) && Truthy(data.value.nomeProjeto)) ==>
                r == Err(InvalidArgument)
      ensures r.Ok? <==> IsManager(auth) && data.Some? && Truthy(data.value.projetoId) && Truthy(data.value.nomeProjeto)
      ensures r.Ok? ==>
                && r.value == chaveId
                && chaves == old(chaves)[KeyPath(auth.value.token.licenseId.value, chaveId) :=
                     DelegationKey(chaveId, Pending, None, "Aguardando Vínculo",
                                   [data.value.projetoId.value], [data.value.nomeProjeto.value])]
    {
      if !IsManager(auth) {
        return Err(PermissionDenied);
      }
      if data.None? {
        return Err(Internal);
      }
      var projetoId, nomeProjeto := data.value.projetoId, data.value.nomeProjeto;
      if !Truthy(projetoId) || !Truthy(nomeProjeto) {
        return Err(InvalidArgument);
      }
      var managerLicenseId := auth.value.token.licenseId.value;
      var chaveRef := KeyPath(managerLicenseId, chaveId);
      chaves := chaves[chaveRef := DelegationKey(chaveId, Pending, None, "Aguardando Vínculo",
                                                 [projetoId.value], [nomeProjeto.value])];
      return Ok(chaveId);
    }

    /** `vincularProjetoDelegado`: a caller from another license redeems a
        pending key, which becomes active and records the caller's license. */
    method LinkDelegatedProject(auth: Option<Caller>, data: Option<LinkRequest>) returns (r: Result<string>)
      requires Valid()
      modifies this
      ensures Valid()
      ensures clientes == old(clientes) && projetos == old(projetos) && users == old(users)
      ensures accounts == old(accounts) && claims == old(claims)
      ensures r.Err? ==> chaves == old(chaves)
      // the license checks
      ensures auth.None? ==> r == Err(Unauthenticated)
      ensures auth.Some? && ResolveLicense(auth.value, old(users)).None? ==> r == Err(Unauthenticated)
      ensures auth.Some? && ResolveLicense(auth.value, old(users)).Some? && data.None? ==> r == Err(Internal)
      ensures auth.Some? && ResolveLicense(auth.value, old(users)).Some? && data.Some? && !Truthy(data.value.chave) ==>
                r == Err(InvalidArgument)
      // the key checks, then the transition
      ensures auth.Some? && ResolveLicense(auth.value, old(users)).Some? && data.Some? && Truthy(data.value.chave) ==>
                var contractor := ResolveLicense(auth.value, old(users)).value;
                var found := KeyOf(old(chaves), data.value.chave.value);
                if found.None? then r == Err(NotFound)
                else if found.value.license == contractor then r == Err(InvalidArgument)
                else if old(chaves)[found.value].status != Pending then r == Err(AlreadyExists)
                else
                  && r == Ok(LinkedMessage)
                  && chaves == old(chaves)[found.value := Redeemed(old(chaves)[found.value], contractor,
                                                                   ContractorName(old(clientes), contractor, auth.value))]
      // success exactly when some other license's key with that `chave` is pending
      ensures r.Ok? <==> auth.Some? && ResolveLicense(auth.value, old(users)).Some? &&
                         data.Some? && Truthy(data.value.chave) &&
                         Redeemable(old(chaves), data.value.chave.value, ResolveLicense(auth.value, old(users)).value)
      // a key is redeemed once: afterwards no record with that `chave` is pending
      ensures r.Ok? ==> data.Some? && !HasPendingKey(chaves, data.value.chave.value)
      // and a key that is no longer pending never changes again
      ensures forall p :: p in old(chaves) && old(chaves)[p].status != Pending ==>
                p in chaves && chaves[p] == old(chaves)[p]
    {
      if auth.None? {
        return Err(Unauthenticated);
      }
      var caller := auth.value;
      var contractorLicenseId := caller.token.licenseId;
      if !Truthy(contractorLicenseId) {
        // fall back to the `users` profile
        if caller.uid in users {
          contractorLicenseId := users[caller.uid].licenseId;
        }
      }
      if !Truthy(contractorLicenseId) {
        return Err(Unauthenticated);
      }
      if data.None? {
        return Err(Internal);
      }
      var chave := data.value.chave;
      if !Truthy(chave) {
        return Err(InvalidArgument);
      }
      // the collection-group query on `chave`
      if !(exists p :: p in chaves && chaves[p].chave == chave.value) {
        return Err(NotFound);
      }
      var doc :| doc in chaves && chaves[doc].chave == chave.value;
      var managerLicenseId := doc.license;
      if managerLicenseId == contractorLicenseId.value {
        return Err(InvalidArgument);
      }
      if chaves[doc].status != Pending {
        return Err(AlreadyExists);
      }
      var contractorName := LookUpContractorName(contractorLicenseId.value, caller);
      RedeemSpendsKey(chaves, doc, contractorLicenseId.value, contractorName);
      chaves := chaves[doc := chaves[doc].(status := Active, licenseIdConvidada := contractorLicenseId,
                                           empresaConvidada := contractorName)];
      return Ok(LinkedMessage);
    }

    /** The display-name lookup of redemption, on the caller's license document. */
    method LookUpContractorName(license: string, caller: Caller) returns (contractorName: string)
      ensures contractorName == ContractorName(clientes, license, caller)
    {
      contractorName := NameNotFound;
      if license in clientes {
        var contractorUsers := clientes[license].usuariosPermitidos;
        if caller.uid in contractorUsers && contractorUsers[caller.uid].Some? &&
           Truthy(contractorUsers[caller.uid].value.nome) {
          contractorName := contractorUsers[caller.uid].value.nome.value;
        } else {
          // fall back to the token's email
          contractorName := EmailOrDefault(caller.token.email);
        }
      }
    }
  }

  /** The confirmation onboarding returns. */
  function AddedMessage(name: string): string
  {
    "Usuário '" + name + "' adicionado com sucesso!"
  }

  const LinkedMessage := "Projeto vinculado com sucesso! Sincronize seus dados para começar."

  /** A key issued by license T1 for project P1 is redeemed by license T2;
      T1 cannot redeem its own key, and a second redemption by T2 fails. */
  method DelegationScenario() returns (issued: Result<string>, first: Result<string>,
                                       own: Result<string>, again: Result<string>)
    ensures issued == Ok("k1")
    ensures first == Ok(LinkedMessage)
    ensures own == Err(InvalidArgument)
    ensures again == Err(AlreadyExists)
  {
    var b := new Backend(map[], map[], map[], map[], map[]);
    var manager := Some(Caller("m1", Token(Some("T1"), Some(Manager), None)));
    var partner := Some(Caller("c1", Token(Some("T2"), Some("operador"), Some("c1@example.com"))));
    issued := b.DelegateProject(manager, Some(DelegationRequest(Some("P1"), Some("Proj One"))), "k1");
    assert b.chaves[KeyPath("T1", "k1")].status == Pending;
    assert b.chaves[KeyPath("T1", "k1")].projetosPermitidos == ["P1"];
    first := b.LinkDelegatedProject(partner, Some(LinkRequest(Some("k1"))));
    assert b.chaves[KeyPath("T1", "k1")].status == Active;
    assert b.chaves[KeyPath("T1", "k1")].licenseIdConvidada == Some("T2");
    own := b.LinkDelegatedProject(manager, Some(LinkRequest(Some("k1"))));
    again := b.LinkDelegatedProject(partner, Some(LinkRequest(Some("k1"))));
  }

  /** A manager's request with a five-character password is refused before
      any Auth user is created, and a non-manager's request is refused first. */
  method OnboardingScenario() returns (short: Result<string>, denied: Result<string>, accountsAfter: map<string, Account>)
    ensures short == Err(InvalidArgument)
    ensures denied == Err(PermissionDenied)
    ensures accountsAfter == map[]
  {
    var b := new Backend(map["T1" := LicenseDoc(map[], [])], map[], map[], map[], map[]);
    var manager := Some(Caller("m1", Token(Some("T1"), Some(Manager), None)));
    var worker := Some(Caller("w1", Token(Some("T1"), Some("operador"), None)));
    Utf16LengthOfBmp("12345");
    short := b.AddTeamMember(manager, Some(MemberRequest(Some("a@example.com"), Some("12345"), Some("Ana"), Some("operador"))), Created("u9"));
    denied := b.AddTeamMember(worker, Some(MemberRequest(Some("a@example.com"), Some("123456"), Some("Ana"), Some("operador"))), Created("u9"));
    accountsAfter := b.accounts;
  }
}
