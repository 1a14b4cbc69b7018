/** User administration: who may hold which role, and which brand assignments, under whose hand. */
module UserAdmin {
  import opened Common

  type UserId = nat
  type BrandId = nat

  datatype Role = MERCHANT_OWNER | MERCHANT_ADMIN | BRAND_ADMIN | FINANCE_USER | SALES_USER | READ_ONLY
  datatype UserStatus = INVITED | ACTIVE | SUSPENDED

  datatype User = User(email: string, role: Role, status: UserStatus, brands: set<BrandId>)
  type Users = map<UserId, User>

  /** The caller, as the session describes it. */
  datatype Scope = Scope(userId: UserId, role: Role, brands: set<BrandId>)

  datatype Refusal = Forbidden | BadRequest | NotFound | Conflict

  predicate CoversAllBrands(role: Role) {
    role.MERCHANT_OWNER? || role.MERCHANT_ADMIN?
  }

  function Rank(role: Role): nat {
    match role
    case MERCHANT_OWNER => 6
    case MERCHANT_ADMIN => 5
    case BRAND_ADMIN => 4
    case FINANCE_USER => 3
    case SALES_USER => 2
    case READ_ONLY => 1
  }

  predicate MayWriteUsers(role: Role) {
    role.MERCHANT_OWNER? || role.MERCHANT_ADMIN? || role.BRAND_ADMIN?
  }

  predicate MayAssignRole(actor: Role, target: Role) {
    MayWriteUsers(actor) && Rank(actor) >= Rank(target)
  }

  predicate ActiveOwner(user: User) {
    user.role.MERCHANT_OWNER? && !user.status.SUSPENDED?
  }

  function OtherOwners(users: Users, excluding: UserId): set<UserId> {
    set i | i in users && i != excluding && ActiveOwner(users[i])
  }

  predicate Visible(users: Users, scope: Scope, id: UserId) {
    id in users && (CoversAllBrands(scope.role) || id == scope.userId || users[id].brands * scope.brands != {})
  }

  predicate EmailTaken(users: Users, email: string) {
    exists i | i in users :: users[i].email == email
  }

  function ToSet(ids: seq<BrandId>): set<BrandId> {
    set b | b in ids
  }

  // --- What each operation commits ------------------------------------------------------

  function Invite(users: Users, scope: Scope, id: UserId, email: string, role: Role, brandIds: seq<BrandId>)
    : Result<Users, Refusal>
  {
    var brands := if CoversAllBrands(role) then {} else ToSet(brandIds);
    if !MayAssignRole(scope.role, role) then Failure(Forbidden)
    else if !CoversAllBrands(role) && brands == {} then Failure(BadRequest)
    else if !CoversAllBrands(scope.role) && !(brands <= scope.brands) then Failure(Forbidden)
    else if id in users || EmailTaken(users, email) then Failure(Conflict)
    else Success(users[id := User(email, role, INVITED, brands)])
  }

  /** The rows a user holds after a replacement by this actor. */
  function Replaced(scope: Scope, held: set<BrandId>, requested: set<BrandId>): Result<set<BrandId>, Refusal> {
    if CoversAllBrands(scope.role) then
      if requested == {} then Failure(BadRequest) else Success(requested)
    else if !(requested <= scope.brands) then Failure(Forbidden)
    else Success(held - scope.brands + requested)
  }

  function UpdateRole(users: Users, scope: Scope, id: UserId, role: Role, brandIds: Option<seq<BrandId>>)
    : Result<Users, Refusal>
  {
    if id == scope.userId then Failure(Forbidden)
    else if !Visible(users, scope, id) then Failure(NotFound)
    else
      var existing := users[id];
      if !MayAssignRole(scope.role, role) || !MayAssignRole(scope.role, existing.role) then Failure(Forbidden)
      else if existing.role.MERCHANT_OWNER? && !role.MERCHANT_OWNER? && OtherOwners(users, id) == {} then Failure(Conflict)
      else if CoversAllBrands(existing.role) && !CoversAllBrands(role) && (brandIds.None? || brandIds.value == []) then
        Failure(BadRequest)
      else if CoversAllBrands(role) then Success(users[id := existing.(role := role, brands := {})])
      else if brandIds.None? then Success(users[id := existing.(role := role)])
      else
        match Replaced(scope, existing.brands, ToSet(brandIds.value))
        case Failure(e) => Failure(e)
        case Success(brands) => Success(users[id := existing.(role := role, brands := brands)])
  }

  function UpdateBrands(users: Users, scope: Scope, id: UserId, brandIds: seq<BrandId>): Result<Users, Refusal> {
    if id == scope.userId then Failure(Forbidden)
    else if !Visible(users, scope, id) then Failure(NotFound)
    else
      var existing := users[id];
      if !MayAssignRole(scope.role, existing.role) then Failure(Forbidden)
      else if CoversAllBrands(existing.role) then Failure(Forbidden)
      else
        match Replaced(scope, existing.brands, ToSet(brandIds))
        case Failure(e) => Failure(e)
        case Success(brands) => Success(users[id := existing.(brands := brands)])
  }

  function UpdateStatus(users: Users, scope: Scope, id: UserId, status: UserStatus): Result<Users, Refusal> {
    if id == scope.userId then Failure(Forbidden)
    else if !Visible(users, scope, id) then Failure(NotFound)
    else
      var existing := users[id];
      if !MayAssignRole(scope.role, existing.role) then Failure(Forbidden)
      else if status.SUSPENDED? && existing.role.MERCHANT_OWNER? && OtherOwners(users, id) == {} then Failure(Conflict)
      else Success(users[id := existing.(status := status)])
  }

  // --- Runs of requests ------------------------------------------------------------------

  datatype Request =
    | InviteUser(scope: Scope, id: UserId, email: string, role: Role, brandIds: seq<BrandId>)
    | ChangeRole(scope: Scope, id: UserId, role: Role, brands: Option<seq<BrandId>>)
    | ChangeBrands(scope: Scope, id: UserId, brandIds: seq<BrandId>)
    | ChangeStatus(scope: Scope, id: UserId, status: UserStatus)

  function Answer(users: Users, q: Request): Result<Users, Refusal> {
    match q
    case InviteUser(scope, id, email, role, brandIds) => Invite(users, scope, id, email, role, brandIds)
    case ChangeRole(scope, id, role, brands) => UpdateRole(users, scope, id, role, brands)
    case ChangeBrands(scope, id, brandIds) => UpdateBrands(users, scope, id, brandIds)
    case ChangeStatus(scope, id, status) => UpdateStatus(users, scope, id, status)
  }

  function After(users: Users, q: Request): Users {
    match Answer(users, q)
    case Success(after) => after
    case Failure(_) => users
  }

  function Run(users: Users, requests: seq<Request>): Users {
    if requests == [] then users else After(Run(users, requests[..|requests| - 1]), requests[|requests| - 1])
  }

  // --- One step ----------------------------------------------------------------------------

  /** A request writes the row of its target and of no one else, and only for an actor who outranks both roles. */
  lemma StepTouchesOneRow(users: Users, q: Request)
    ensures forall i | i != q.id :: i in users <==> i in After(users, q)
    ensures forall i | i in users && i != q.id :: After(users, q)[i] == users[i]
    ensures q.id in users ==> q.id in After(users, q) && After(users, q)[q.id].email == users[q.id].email
    ensures After(users, q) != users ==>
      && q.id in After(users, q)
      && MayAssignRole(q.scope.role, After(users, q)[q.id].role)
      && (q.id in users ==> q.id != q.scope.userId && MayAssignRole(q.scope.role, users[q.id].role))
  {
  }

  /** What an accepted request changes in its target's row, and that nothing else in the row moves. */
  lemma AcceptedWritesOnlyWhatWasAsked(users: Users, q: Request)
    requires Answer(users, q).Success?
    ensures q.id in After(users, q)
    ensures q.InviteUser? <==> q.id !in users
    ensures var now := After(users, q)[q.id];
      match q
      case InviteUser(_, _, email, role, brandIds) =>
        now.email == email && now.role == role && now.status.INVITED?
        && (now.brands == {} <==> CoversAllBrands(role)) && (forall b | b in now.brands :: b in brandIds)
      case ChangeRole(_, _, role, brands) =>
        now.role == role && now.status == users[q.id].status
        && (brands.None? && !CoversAllBrands(role) ==> now.brands == users[q.id].brands)
      case ChangeBrands(_, _, _) => now.role == users[q.id].role && now.status == users[q.id].status
      case ChangeStatus(_, _, status) => now == users[q.id].(status := status)
  {
  }

  /** Who may appoint or administer whom: owners anyone, admins anyone but owners, brand admins their own level and below. */
  ghost predicate MayAdminister(actor: Role, target: Role) {
    match actor
    case MERCHANT_OWNER => true
    case MERCHANT_ADMIN => !target.MERCHANT_OWNER?
    case BRAND_ADMIN => !target.MERCHANT_OWNER? && !target.MERCHANT_ADMIN?
    case _ => false
  }

  ghost predicate AllBrand(role: Role) {
    role.MERCHANT_OWNER? || role.MERCHANT_ADMIN?
  }

  /** Someone other than the caller, of the caller's merchant or, for a brand-scoped caller, sharing a brand. */
  ghost predicate Reaches(users: Users, scope: Scope, id: UserId) {
    && id in users && id != scope.userId && MayAdminister(scope.role, users[id].role)
    && (AllBrand(scope.role) || exists b :: b in users[id].brands && b in scope.brands)
  }

  ghost predicate AnotherOwner(users: Users, id: UserId) {
    exists i :: i in users && i != id && users[i].role.MERCHANT_OWNER? && !users[i].status.SUSPENDED?
  }

  /** An all-brand caller assigns any brands but at least one, another only brands of their own. */
  ghost predicate MayAssign(scope: Scope, brandIds: seq<BrandId>) {
    if AllBrand(scope.role) then brandIds != [] else forall b | b in brandIds :: b in scope.brands
  }

  /** Exactly which requests are accepted. */
  lemma AcceptedIff(users: Users, q: Request)
    ensures Answer(users, q).Success? <==>
      match q
      case InviteUser(scope, id, email, role, brandIds) =>
        && MayAdminister(scope.role, role) && id !in users && (forall i | i in users :: users[i].email != email)
        && (AllBrand(role) || (brandIds != [] && MayAssign(scope, brandIds)))
      case ChangeRole(scope, id, role, brands) =>
        && Reaches(users, scope, id) && MayAdminister(scope.role, role)
        && (users[id].role.MERCHANT_OWNER? && !role.MERCHANT_OWNER? ==> AnotherOwner(users, id))
        && (AllBrand(role)
            || (brands.None? && !AllBrand(users[id].role))
            || (brands.Some? && MayAssign(scope, brands.value) && (AllBrand(users[id].role) ==> brands.value != [])))
      case ChangeBrands(scope, id, brandIds) =>
        Reaches(users, scope, id) && !AllBrand(users[id].role) && MayAssign(scope, brandIds)
      case ChangeStatus(scope, id, status) =>
        && Reaches(users, scope, id)
        && (status.SUSPENDED? && users[id].role.MERCHANT_OWNER? ==> AnotherOwner(users, id))
  {
    VisibleIff(users, q.scope, q.id);
    OthersIff(users, q.id);
    match q
    case InviteUser(_, _, _, _, brandIds) => SetOf(brandIds, q.scope.brands);
    case ChangeBrands(_, _, brandIds) => SetOf(brandIds, q.scope.brands);
    case ChangeRole(_, _, _, brands) => if brands.Some? { SetOf(brands.value, q.scope.brands); }
    case ChangeStatus(_, _, _) =>
  }

  /** A brand-scoped caller finds themselves and whoever shares a brand with them. */
  lemma VisibleIff(users: Users, scope: Scope, id: UserId)
    ensures Visible(users, scope, id) <==>
      id in users && (AllBrand(scope.role) || id == scope.userId || exists b :: b in users[id].brands && b in scope.brands)
  {
    if id in users {
      assert forall b :: b in users[id].brands * scope.brands <==> b in users[id].brands && b in scope.brands;
    }
  }

  lemma OthersIff(users: Users, id: UserId)
    ensures OtherOwners(users, id) != {} <==> AnotherOwner(users, id)
  {
    assert forall i :: i in OtherOwners(users, id) <==>
      i in users && i != id && users[i].role.MERCHANT_OWNER? && !users[i].status.SUSPENDED?;
  }

  lemma SetOf(ids: seq<BrandId>, brands: set<BrandId>)
    ensures ToSet(ids) == {} <==> ids == []
    ensures ToSet(ids) <= brands <==> forall b | b in ids :: b in brands
  {
    if ids != [] { assert ids[0] in ToSet(ids); }
    if ToSet(ids) <= brands {
      forall b | b in ids ensures b in brands {
        assert b in ToSet(ids);
      }
    }
  }

  ghost predicate OneActiveOwner(users: Users) {
    exists i :: i in users && ActiveOwner(users[i])
  }

  lemma StepKeepsAnOwner(users: Users, q: Request)
    requires OneActiveOwner(users)
    ensures OneActiveOwner(After(users, q))
  {
    StepTouchesOneRow(users, q);
    var i :| i in users && ActiveOwner(users[i]);
    if i == q.id && !ActiveOwner(After(users, q)[i]) {
      var j :| j in OtherOwners(users, q.id);
      assert ActiveOwner(After(users, q)[j]);
    } else {
      assert ActiveOwner(After(users, q)[i]);
    }
  }

  /** The merchant always keeps an owner who is not suspended. */
  lemma {:induction false} AlwaysAnOwner(users: Users, requests: seq<Request>)
    requires OneActiveOwner(users)
    ensures OneActiveOwner(Run(users, requests))
  {
    if requests != [] {
      var before := requests[..|requests| - 1];
      AlwaysAnOwner(users, before);
      StepKeepsAnOwner(Run(users, before), requests[|requests| - 1]);
    }
  }

  /** The request is accepted on this table and takes an active owner away, by demotion or suspension. */
  predicate RemovesOwner(users: Users, q: Request) {
    && Answer(users, q).Success? && q.id in users && ActiveOwner(users[q.id])
    && !(q.id in After(users, q) && ActiveOwner(After(users, q)[q.id]))
  }

  /** Both requests were decided on one table, and each then wrote its own row. */
  function Merged(users: Users, p: Request, q: Request): Users
    requires RemovesOwner(users, p) && RemovesOwner(users, q)
  {
    StepTouchesOneRow(users, p);
    StepTouchesOneRow(users, q);
    users[p.id := After(users, p)[p.id]][q.id := After(users, q)[q.id]]
  }

  /**
   * Two removals of different owners, each counted before the other commits, leave an active owner
   * exactly when there was a third.
   */
  lemma OverlappingRemovalsKeepAnOwnerIff(users: Users, p: Request, q: Request)
    requires RemovesOwner(users, p) && RemovesOwner(users, q) && p.id != q.id
    ensures OneActiveOwner(Merged(users, p, q)) <==> OtherOwners(users, p.id) != {q.id}
  {
    StepTouchesOneRow(users, p);
    StepTouchesOneRow(users, q);
    var merged := Merged(users, p, q);
    assert q.id in OtherOwners(users, p.id);
    assert forall i | i in merged && ActiveOwner(merged[i]) :: i in OtherOwners(users, p.id) - {q.id};
    if OtherOwners(users, p.id) != {q.id} {
      var third :| third in OtherOwners(users, p.id) && third != q.id;
      assert ActiveOwner(merged[third]);
    }
  }

  lemma OwnersButBoth(users: Users, a: UserId, b: UserId)
    ensures OtherOwners(users, b) - {a} == OtherOwners(users, a) - {b}
  {
    forall i | i in OtherOwners(users, b) - {a} ensures i in OtherOwners(users, a) - {b} {
    }
    forall i | i in OtherOwners(users, a) - {b} ensures i in OtherOwners(users, b) - {a} {
    }
  }

  lemma OwnersWithout(users: Users, a: UserId, b: UserId, row: User)
    requires a != b && b in users && !ActiveOwner(row)
    ensures OtherOwners(users[b := row], a) == OtherOwners(users, a) - {b}
  {
    var after := users[b := row];
    forall i | i in OtherOwners(users, a) - {b} ensures i in OtherOwners(after, a) {
    }
    forall i | i in OtherOwners(after, a) ensures i in OtherOwners(users, a) - {b} {
    }
  }

  /** The case arises: the last two owners demote each other at once, where one after the other the second is refused. */
  lemma OverlappingDemotionsLoseEveryOwner(users: Users, a: UserId, b: UserId)
    requires a != b && a in users && b in users && ActiveOwner(users[a]) && OtherOwners(users, a) == {b}
    ensures var p, q := ChangeRole(Scope(a, MERCHANT_OWNER, {}), b, MERCHANT_ADMIN, None), ChangeRole(Scope(b, MERCHANT_OWNER, {}), a, MERCHANT_ADMIN, None);
      && RemovesOwner(users, p) && RemovesOwner(users, q) && !OneActiveOwner(Merged(users, p, q))
      && Answer(After(users, p), q) == Failure(Conflict)
  {
    var p, q := ChangeRole(Scope(a, MERCHANT_OWNER, {}), b, MERCHANT_ADMIN, None), ChangeRole(Scope(b, MERCHANT_OWNER, {}), a, MERCHANT_ADMIN, None);
    assert b in OtherOwners(users, a);
    assert a in OtherOwners(users, b);
    OwnersButBoth(users, a, b);
    assert OtherOwners(users, b) == OtherOwners(users, b) - {a} + {a};
    OverlappingRemovalsKeepAnOwnerIff(users, p, q);
    AcceptedWritesOnlyWhatWasAsked(users, p);
    OwnersWithout(users, a, b, After(users, p)[b]);
  }

  /** All-brand users hold no assignment rows, and no two users share an address. */
  ghost predicate Tidy(users: Users) {
    && (forall i | i in users && CoversAllBrands(users[i].role) :: users[i].brands == {})
    && (forall i, j | i in users && j in users && users[i].email == users[j].email :: i == j)
  }

  lemma StepKeepsTidy(users: Users, q: Request)
    requires Tidy(users)
    ensures Tidy(After(users, q))
  {
    StepTouchesOneRow(users, q);
    var after := After(users, q);
    if q.id in after && q.id !in users {
      assert forall i | i in users :: users[i].email != after[q.id].email;
    }
  }

  lemma {:induction false} AlwaysTidy(users: Users, requests: seq<Request>)
    requires Tidy(users)
    ensures Tidy(Run(users, requests))
  {
    if requests != [] {
      var before := requests[..|requests| - 1];
      AlwaysTidy(users, before);
      StepKeepsTidy(Run(users, before), requests[|requests| - 1]);
    }
  }

  // --- Seniority -----------------------------------------------------------------------------

  /** Callers no more senior than a rank never change a row above it, and never raise anyone above it. */
  lemma {:induction false} NobodyRisesAboveTheActors(users: Users, requests: seq<Request>, ceiling: nat)
    requires forall q | q in requests :: Rank(q.scope.role) <= ceiling
    ensures forall i | i in users && Rank(users[i].role) > ceiling ::
      i in Run(users, requests) && Run(users, requests)[i] == users[i]
    ensures forall i | i in Run(users, requests) && Rank(Run(users, requests)[i].role) > ceiling ::
      i in users && Run(users, requests)[i] == users[i]
  {
    if requests != [] {
      var before, q := requests[..|requests| - 1], requests[|requests| - 1];
      assert forall p | p in before :: p in requests;
      NobodyRisesAboveTheActors(users, before, ceiling);
      assert q in requests;
      StepTouchesOneRow(Run(users, before), q);
    }
  }

  // --- Brand scope -----------------------------------------------------------------------------

  /** An accepted replacement, by updateBrands or inside updateRole. */
  predicate Replaces(users: Users, q: Request) {
    && Answer(users, q).Success?
    && (q.ChangeBrands? || (q.ChangeRole? && q.brands.Some? && !CoversAllBrands(q.role)))
  }

  function Requested(q: Request): set<BrandId>
    requires q.ChangeBrands? || (q.ChangeRole? && q.brands.Some?)
  {
    if q.ChangeBrands? then ToSet(q.brandIds) else ToSet(q.brands.value)
  }

  /** A Brand Admin rewrites exactly their own slice; an all-brand actor rewrites the whole set. */
  lemma ReplacementIsExact(users: Users, q: Request)
    requires Replaces(users, q)
    ensures var was, now, slice := users[q.id].brands, After(users, q)[q.id].brands, q.scope.brands;
      if CoversAllBrands(q.scope.role) then now == Requested(q)
      else now - slice == was - slice && now * slice == Requested(q)
  {
  }

  /** An actor who is not all-brand changes no one outside their brands and adds no brand of their own choosing. */
  lemma BrandAdminStaysInside(users: Users, q: Request)
    requires !CoversAllBrands(q.scope.role)
    ensures forall i | i in users && i != q.scope.userId && users[i].brands * q.scope.brands == {} ::
      After(users, q)[i] == users[i]
    ensures forall i | i in After(users, q) ::
      After(users, q)[i].brands <= (if i in users then users[i].brands else {}) + q.scope.brands
  {
    StepTouchesOneRow(users, q);
    if q.id in users && q.id != q.scope.userId && users[q.id].brands * q.scope.brands == {} {
      assert !Visible(users, q.scope, q.id);
    }
  }

  predicate Brandless(user: User) {
    !CoversAllBrands(user.role) && user.brands == {}
  }

  /** A user loses sight of every brand exactly when a Brand Admin empties a slice that was all they had. */
  lemma BrandlessExactlyWhenSliceWasAll(users: Users, q: Request)
    requires Tidy(users) && (q.id in users ==> !Brandless(users[q.id]))
    ensures q.id in After(users, q) && Brandless(After(users, q)[q.id])
       <==> Replaces(users, q) && !CoversAllBrands(q.scope.role) && Requested(q) == {} && users[q.id].brands <= q.scope.brands
  {
    StepTouchesOneRow(users, q);
    if Replaces(users, q) {
      ReplacementIsExact(users, q);
    }
    if q.ChangeRole? && q.brands.Some? && q.brands.value != [] {
      assert q.brands.value[0] in ToSet(q.brands.value);
    }
  }

  /** With only all-brand actors, no one is ever left without a brand. */
  lemma {:induction false} AllBrandActorsLeaveNoneBrandless(users: Users, requests: seq<Request>)
    requires Tidy(users) && forall i | i in users :: !Brandless(users[i])
    requires forall q | q in requests :: CoversAllBrands(q.scope.role)
    ensures forall i | i in Run(users, requests) :: !Brandless(Run(users, requests)[i])
  {
    if requests != [] {
      var before, q := requests[..|requests| - 1], requests[|requests| - 1];
      assert forall p | p in before :: p in requests;
      AllBrandActorsLeaveNoneBrandless(users, before);
      AlwaysTidy(users, before);
      assert q in requests;
      StepTouchesOneRow(Run(users, before), q);
      BrandlessExactlyWhenSliceWasAll(Run(users, before), q);
    }
  }

  // --- The service --------------------------------------------------------------------------------

  class UsersService {
    var users: Users

    constructor (owner: UserId, email: string)
      ensures users == map[owner := User(email, MERCHANT_OWNER, ACTIVE, {})]
      ensures OneActiveOwner(users) && Tidy(users)
    {
      users := map[owner := User(email, MERCHANT_OWNER, ACTIVE, {})];
      new;
      assert ActiveOwner(users[owner]);
    }

    /** Whether any other owner is still not suspended. */
    method HasOtherOwner(excluding: UserId) returns (found: bool)
      ensures found <==> OtherOwners(users, excluding) != {}
    {
      var remaining := set i | i in users && i != excluding && users[i].role.MERCHANT_OWNER? && !users[i].status.SUSPENDED?;
      assert remaining == OtherOwners(users, excluding);
      found := |remaining| != 0;
    }

    method ReplaceAssignments(scope: Scope, userId: UserId, brandIds: set<BrandId>) returns (refusal: Option<Refusal>)
      requires userId in users
      modifies this
      ensures match Replaced(scope, old(users)[userId].brands, brandIds)
        case Failure(e) => refusal == Some(e) && users == old(users)
        case Success(brands) => refusal.None? && users == old(users)[userId := old(users)[userId].(brands := brands)]
    {
      if CoversAllBrands(scope.role) {
        if brandIds == {} { return Some(BadRequest); }
        users := users[userId := users[userId].(brands := brandIds)];
        return None;
      }
      if !(brandIds <= scope.brands) { return Some(Forbidden); }
      users := users[userId := users[userId].(brands := users[userId].brands - scope.brands)];
      if brandIds != {} {
        users := users[userId := users[userId].(brands := users[userId].brands + brandIds)];
      }
      assert users[userId].brands == old(users)[userId].brands - scope.brands + brandIds;
      return None;
    }

    method InviteUser(scope: Scope, id: UserId, email: string, role: Role, brandIds: seq<BrandId>)
      returns (refusal: Option<Refusal>)
      modifies this
      ensures Commits(Invite(old(users), scope, id, email, role, brandIds), refusal, old(users), users)
    {
      if !MayAssignRole(scope.role, role) { return Some(Forbidden); }
      var brands := if CoversAllBrands(role) then {} else ToSet(brandIds);
      if !CoversAllBrands(role) && brands == {} { return Some(BadRequest); }
      if !CoversAllBrands(scope.role) && exists b | b in brands :: b !in scope.brands { return Some(Forbidden); }
      if id in users || EmailTaken(users, email) { return Some(Conflict); }
      users := users[id := User(email, role, INVITED, brands)];
      return None;
    }

    /** One transaction: a refusal after the role was written takes the role back too. */
    method ChangeRole(scope: Scope, id: UserId, role: Role, brandIds: Option<seq<BrandId>>) returns (refusal: Option<Refusal>)
      modifies this
      ensures Commits(UpdateRole(old(users), scope, id, role, brandIds), refusal, old(users), users)
    {
      if id == scope.userId { return Some(Forbidden); }
      if !Visible(users, scope, id) { return Some(NotFound); }
      var existing := users[id];
      if !MayAssignRole(scope.role, role) || !MayAssignRole(scope.role, existing.role) { return Some(Forbidden); }
      if existing.role.MERCHANT_OWNER? && !role.MERCHANT_OWNER? {
        var other := HasOtherOwner(id);
        if !other { return Some(Conflict); }
      }
      var becomesBrandScoped := CoversAllBrands(existing.role) && !CoversAllBrands(role);
      if becomesBrandScoped && (brandIds.None? || brandIds.value == []) { return Some(BadRequest); }
      var before := users;
      users := users[id := existing.(role := role, brands := if CoversAllBrands(role) then {} else existing.brands)];
      if !CoversAllBrands(role) && brandIds.Some? {
        refusal := ReplaceAssignments(scope, id, ToSet(brandIds.value));
        if refusal.Some? { users := before; }
        return;
      }
      return None;
    }

    method ChangeBrands(scope: Scope, id: UserId, brandIds: seq<BrandId>) returns (refusal: Option<Refusal>)
      modifies this
      ensures Commits(UpdateBrands(old(users), scope, id, brandIds), refusal, old(users), users)
    {
      if id == scope.userId { return Some(Forbidden); }
      if !Visible(users, scope, id) { return Some(NotFound); }
      if !MayAssignRole(scope.role, users[id].role) { return Some(Forbidden); }
      if CoversAllBrands(users[id].role) { return Some(Forbidden); }
      refusal := ReplaceAssignments(scope, id, ToSet(brandIds));
    }

    method ChangeStatus(scope: Scope, id: UserId, status: UserStatus) returns (refusal: Option<Refusal>)
      modifies this
      ensures Commits(UpdateStatus(old(users), scope, id, status), refusal, old(users), users)
    {
      if id == scope.userId { return Some(Forbidden); }
      if !Visible(users, scope, id) { return Some(NotFound); }
      if !MayAssignRole(scope.role, users[id].role) { return Some(Forbidden); }
      if status.SUSPENDED? && users[id].role.MERCHANT_OWNER? {
        var other := HasOtherOwner(id);
        if !other { return Some(Conflict); }
      }
      users := users[id := users[id].(status := status)];
      return None;
    }
  }

  /** The request was answered and committed as specified, or refused with nothing written. */
  predicate Commits(spec: Result<Users, Refusal>, refusal: Option<Refusal>, before: Users, after: Users) {
    match spec
    case Success(users) => refusal.None? && after == users
    case Failure(e) => refusal == Some(e) && after == before
  }
}
