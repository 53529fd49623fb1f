/** The claim reconciliation of `updateUserLicenseClaim`: given the
    `usuariosPermitidos` maps before and after a write to `clientes/{licenseId}`,
    decide, for every uid in the union of their keys, whether to set its custom
    claims, clear them, or skip it. */
module ClaimSync {
  import opened Model

  /** One `setCustomUserClaims(uid, claims)` call. */
  datatype ClaimIssue = ClaimIssue(uid: string, claims: Claims)

  /** The user map a snapshot yields: empty for a missing document. */
  function UsersOf(snapshot: Option<LicenseDoc>): map<string, Option<Member>>
  {
    if snapshot.Some? then snapshot.value.usuariosPermitidos else map[]
  }

  /** `users[uid] != null`: the key is present and not null. */
  predicate IsMember(users: map<string, Option<Member>>, uid: string)
  {
    uid in users && users[uid].Some?
  }

  /** The role recorded for a member. */
  function CargoOf(users: map<string, Option<Member>>, uid: string): Option<string>
    requires IsMember(users, uid)
  {
    users[uid].value.cargo
  }

  /** The per-uid decision: the claims to write, or None to skip the uid. */
  function ClaimFor(licenseId: string, before: map<string, Option<Member>>,
                    after: map<string, Option<Member>>, uid: string): (r: Option<Claims>)
    // a uid is cleared exactly when it stops being a member
    ensures r == Some(Cleared) <==> IsMember(before, uid) && !IsMember(after, uid)
    // any other write grants this license and the member's role, which is truthy
    ensures r.Some? && r != Some(Cleared) ==>
              IsMember(after, uid) && Truthy(CargoOf(after, uid)) && r.value == Claims(Some(licenseId), CargoOf(after, uid))
    // a member afterwards always gets its role unless it has none
    ensures IsMember(after, uid) ==> (r.Some? <==> Truthy(CargoOf(after, uid)))
    // a uid that is a member in neither map is skipped
    ensures !IsMember(after, uid) && !IsMember(before, uid) ==> r.None?
  {
    if IsMember(after, uid) then
      if Truthy(CargoOf(after, uid)) then Some(Claims(Some(licenseId), CargoOf(after, uid))) else None
    else if IsMember(before, uid) then
      Some(Cleared)
    else
      None
  }

  /** The claims written by one trigger invocation, as a map from uid. */
  function ClaimDiff(licenseId: string, before: map<string, Option<Member>>,
                     after: map<string, Option<Member>>): (d: map<string, Claims>)
    // only uids of the two maps are touched
    ensures d.Keys <= before.Keys + after.Keys
    // a member afterwards with a role gets {licenseId, cargo}
    ensures forall uid :: IsMember(after, uid) && Truthy(CargoOf(after, uid)) ==>
              uid in d && d[uid] == Claims(Some(licenseId), CargoOf(after, uid))
    // a member afterwards without a role gets nothing
    ensures forall uid :: IsMember(after, uid) && !Truthy(CargoOf(after, uid)) ==> uid !in d
    // a member before who is no longer one gets {null, null}
    ensures forall uid :: IsMember(before, uid) && !IsMember(after, uid) ==> uid in d && d[uid] == Cleared
    // and nobody else is touched
    ensures forall uid :: uid in d ==> IsMember(after, uid) || IsMember(before, uid)
  {
    map uid | uid in before.Keys + after.Keys && ClaimFor(licenseId, before, after, uid).Some? ::
      ClaimFor(licenseId, before, after, uid).value
  }

  /** The uids a list of claim calls addresses, each at most once. */
  predicate DistinctUids(issues: seq<ClaimIssue>)
  {
    forall i, j :: 0 <= i < j < |issues| ==> issues[i].uid != issues[j].uid
  }

  /** The calls write exactly the claims of `d`: each call is an entry of `d`,
      and every entry of `d` has a call. */
  ghost predicate Enumerates(issues: seq<ClaimIssue>, d: map<string, Claims>)
  {
    && (forall i :: 0 <= i < |issues| ==> issues[i].uid in d && d[issues[i].uid] == issues[i].claims)
    && (forall uid :: uid in d ==> exists i :: 0 <= i < |issues| && issues[i].uid == uid)
  }

  /** The `for (const uid of allUids)` loop that collects the claim calls of one
      invocation; it issues exactly the claims of ClaimDiff, once per uid. */
  method ComputeClaimIssues(licenseId: string, before: Option<LicenseDoc>, after: Option<LicenseDoc>)
    returns (issues: seq<ClaimIssue>)
    ensures DistinctUids(issues)
    ensures Enumerates(issues, ClaimDiff(licenseId, UsersOf(before), UsersOf(after)))
  {
    var usersAfter := UsersOf(after);
    var usersBefore := UsersOf(before);
    ghost var d := ClaimDiff(licenseId, usersBefore, usersAfter);
    var allUids := usersBefore.Keys + usersAfter.Keys;
    var pending := allUids;
    issues := [];
    while pending != {}
      invariant pending <= allUids
      invariant forall i :: 0 <= i < |issues| ==>
                  issues[i].uid in allUids - pending && issues[i].uid in d && d[issues[i].uid] == issues[i].claims
      invariant DistinctUids(issues)
      invariant forall uid :: uid in d && uid !in pending ==> exists i :: 0 <= i < |issues| && issues[i].uid == uid
      decreases pending
    {
      var uid :| uid in pending;
      ghost var previous := issues;
      var userIsMemberAfter := uid in usersAfter && usersAfter[uid].Some?;
      var userWasMemberBefore := uid in usersBefore && usersBefore[uid].Some?;
      if userIsMemberAfter {
        var cargo := usersAfter[uid].value.cargo;
        if !Truthy(cargo) {
          // the role is missing: skip this uid
          assert uid !in d;
          pending := pending - {uid};
          continue;
        }
        issues := issues + [ClaimIssue(uid, Claims(Some(licenseId), cargo))];
        assert issues[|issues| - 1].uid == uid;
      } else if userWasMemberBefore && !userIsMemberAfter {
        issues := issues + [ClaimIssue(uid, Cleared)];
        assert issues[|issues| - 1].uid == uid;
      }
      assert forall i :: 0 <= i < |previous| ==> issues[i] == previous[i];
      assert uid !in d ==> issues == previous;
      pending := pending - {uid};
    }
  }

  /** `await Promise.all(promises)`: once every collected call has taken
      effect, the claims are the old ones overwritten by `d`. */
  method ApplyClaimIssues(claims: map<string, Claims>, issues: seq<ClaimIssue>, d: map<string, Claims>)
    returns (updated: map<string, Claims>)
    requires Enumerates(issues, d)
    ensures updated == claims + d
  {
    ghost var written: set<string> := {};
    updated := claims;
    var k := 0;
    while k < |issues|
      invariant 0 <= k <= |issues|
      invariant written <= d.Keys
      invariant forall i :: 0 <= i < k ==> issues[i].uid in written
      invariant forall u :: u in written ==> u in updated && updated[u] == d[u]
      invariant forall u :: u !in written ==> (u in updated <==> u in claims)
      invariant forall u :: u !in written && u in updated ==> updated[u] == claims[u]
    {
      updated := updated[issues[k].uid := issues[k].claims];
      written := written + {issues[k].uid};
      k := k + 1;
    }
    assert written == d.Keys;
  }

  /** Once an invocation's claims are written, a later invocation on a write
      that leaves `usuariosPermitidos` as it is changes no claim: the trigger
      firing again on an unchanged document is harmless. */
  lemma ResyncChangesNothing(claims: map<string, Claims>, licenseId: string,
                             before: map<string, Option<Member>>, after: map<string, Option<Member>>)
    ensures var synced := claims + ClaimDiff(licenseId, before, after);
            synced + ClaimDiff(licenseId, after, after) == synced
  {
  }

  /** The worked scenario: granting manager role to u1 in license T issues
      {T, gerente}; emptying the map afterwards clears u1's claims. */
  lemma GrantThenRevokeScenario()
    ensures var granted := map["u1" := Some(Member(Some("gerente"), None, None))];
            ClaimDiff("T", map[], granted) == map["u1" := Claims(Some("T"), Some("gerente"))]
            && ClaimDiff("T", granted, map[]) == map["u1" := Cleared]
  {
  }
}
