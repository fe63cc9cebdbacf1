/**
 Who may do what with an owned resource: the permission a caller resolves to, the database filter that
 must keep exactly what that permission allows, membership answers remembered for one request, and who may
 hand a resource on.
 */
module Ownership {
  import opened Common

  /** Weakest first; each level includes the ones before it. */
  datatype Permission = Nothing | Read | Contribute | Manage | Own

  datatype Role = OwnerRole | AdminRole | MemberRole

  datatype Owner = UserOwner(id: Id) | GroupOwner(id: Id)

  datatype Resource = Resource(owner: Owner, public: bool)

  /** What the group service answers about one person in one group. */
  datatype Membership = Membership(member: bool, role: Option<Role>)

  /** One of the caller's groups. */
  datatype MyGroup = MyGroup(id: Id, role: Role)

  function Rank(p: Permission): nat {
    match p
    case Nothing => 0
    case Read => 1
    case Contribute => 2
    case Manage => 3
    case Own => 4
  }

  predicate AtLeast(held: Permission, needed: Permission) {
    Rank(held) >= Rank(needed)
  }

  function RolePermission(role: Role): Permission {
    match role
    case OwnerRole => Own
    case AdminRole => Manage
    case MemberRole => Contribute
  }

  function ResolveAccess(resource: Resource, actor: Option<Id>, membership: Option<Membership>): Permission {
    var floor := if resource.public then Read else Nothing;
    if actor == None then floor
    else if resource.owner.UserOwner? then if resource.owner.id == actor.value then Own else floor
    else if membership == None || !membership.value.member || membership.value.role == None then floor
    else RolePermission(membership.value.role.value)
  }

  /** The direct answer: the permission with the service asked about the owning group, if a group owns it. */
  function Direct(resource: Resource, actor: Option<Id>, service: Id -> Membership): Permission {
    ResolveAccess(resource, actor,
      if resource.owner.GroupOwner? then Some(if actor == None then Membership(false, None) else service(resource.owner.id)) else None)
  }

  predicate CanChangeItem(p: Permission, createdBy: Option<Id>, actor: Option<Id>) {
    AtLeast(p, Manage) || (AtLeast(p, Contribute) && actor.Some? && createdBy == actor)
  }

  const LEVELS: seq<Permission> := [Nothing, Read, Contribute, Manage, Own]

  /** Each level includes the ones before it in this list, and no other. */
  lemma LevelsInOrder(i: nat, j: nat)
    requires i < 5 && j < 5
    ensures AtLeast(LEVELS[i], LEVELS[j]) <==> i >= j
  {
  }

  /** The caller owns the resource. */
  predicate Owns(resource: Resource, actor: Option<Id>) {
    actor.Some? && resource.owner == UserOwner(actor.value)
  }

  /** The caller is in the owning group, with this role. */
  predicate Ranks(resource: Resource, actor: Option<Id>, service: Id -> Membership, role: Role) {
    actor.Some? && resource.owner.GroupOwner? && service(resource.owner.id).member && service(resource.owner.id).role == Some(role)
  }

  /**
   What everyone may do: the owner and an owner of the owning group anything; an admin of it manage but not hand it on;
   a member contribute but not manage; anyone else read it if it is public, and nothing if it is not.
   */
  lemma DirectExactly(resource: Resource, actor: Option<Id>, service: Id -> Membership)
    ensures var p := Direct(resource, actor, service);
      var some := Owns(resource, actor) || exists role :: Ranks(resource, actor, service, role);
      && (p == Own <==> Owns(resource, actor) || Ranks(resource, actor, service, OwnerRole))
      && (p == Manage <==> Ranks(resource, actor, service, AdminRole))
      && (p == Contribute <==> Ranks(resource, actor, service, MemberRole))
      && (p == Read <==> !some && resource.public)
      && (p == Nothing <==> !some && !resource.public)
  {
    if resource.owner.GroupOwner? && service(resource.owner.id).role.Some? {
      var role := service(resource.owner.id).role.value;
      assert Ranks(resource, actor, service, role) <==> actor.Some? && service(resource.owner.id).member;
      assert forall other | other != role :: !Ranks(resource, actor, service, other);
    }
  }

  // ---------------------------------------------------------------- the filter

  /** One alternative of the filter; a resource is kept when any alternative accepts it. */
  datatype Clause = IsPublic | OwnedBy(user: Id) | OwnedByGroups(groups: seq<Id>)

  predicate Accepts(clause: Clause, resource: Resource) {
    match clause
    case IsPublic => resource.public
    case OwnedBy(user) => resource.owner == UserOwner(user)
    case OwnedByGroups(groups) => resource.owner.GroupOwner? && resource.owner.id in groups
  }

  predicate Keeps(filter: seq<Clause>, resource: Resource) {
    exists i :: 0 <= i < |filter| && Accepts(filter[i], resource)
  }

  /** The ids of the groups where the caller's role grants this level, in order. */
  function Granting(mine: seq<MyGroup>, min: Permission): (ids: seq<Id>)
    ensures forall id :: id in ids <==> exists i :: 0 <= i < |mine| && mine[i].id == id && AtLeast(RolePermission(mine[i].role), min)
  {
    if mine == [] then []
    else
      var last := mine[|mine| - 1];
      Granting(mine[..|mine| - 1], min) + if AtLeast(RolePermission(last.role), min) then [last.id] else []
  }

  function ReadableOwnerFilter(user: Option<Id>, mine: seq<MyGroup>, min: Permission): seq<Clause> {
    var ids := Granting(mine, min);
    (if min == Read then [IsPublic] else [])
    + (if user.Some? then [OwnedBy(user.value)] else [])
    + if user.Some? && ids != [] then [OwnedByGroups(ids)] else []
  }

  /** The list of the caller's groups says of every group what a question about it would. */
  ghost predicate Consistent(mine: seq<MyGroup>, service: Id -> Membership) {
    && (forall i | 0 <= i < |mine| :: service(mine[i].id) == Membership(true, Some(mine[i].role)))
    && (forall id :: service(id).member && service(id).role.Some? ==> exists i :: 0 <= i < |mine| && mine[i].id == id)
  }

  lemma KeepsExactly(user: Option<Id>, mine: seq<MyGroup>, min: Permission, resource: Resource)
    ensures Keeps(ReadableOwnerFilter(user, mine, min), resource) <==>
      || (min == Read && resource.public)
      || (user.Some? && resource.owner == UserOwner(user.value))
      || (user.Some? && resource.owner.GroupOwner? && resource.owner.id in Granting(mine, min))
  {
    var filter := ReadableOwnerFilter(user, mine, min);
    var a := if min == Read then 1 else 0;
    if min == Read { assert filter[0] == IsPublic; }
    if user.Some? {
      assert filter[a] == OwnedBy(user.value);
      if Granting(mine, min) != [] { assert filter[a + 1] == OwnedByGroups(Granting(mine, min)); }
    }
  }

  /**
   The filter agrees with access: for every caller, resource and level from `read` to `own`, it keeps the
   resource exactly when the caller's permission is at least that level.
   */
  lemma FilterAgreesWithAccess(user: Option<Id>, mine: seq<MyGroup>, service: Id -> Membership, min: Permission, resource: Resource)
    requires Consistent(mine, service) && (user == None ==> mine == []) && min != Nothing
    ensures Keeps(ReadableOwnerFilter(user, mine, min), resource) <==> AtLeast(Direct(resource, user, service), min)
  {
    KeepsExactly(user, mine, min, resource);
    GrantsAsAnswered(mine, service, min, resource.owner.id);
  }

  lemma GrantsAsAnswered(mine: seq<MyGroup>, service: Id -> Membership, min: Permission, id: Id)
    requires Consistent(mine, service)
    ensures id in Granting(mine, min) <==>
      service(id).member && service(id).role.Some? && AtLeast(RolePermission(service(id).role.value), min)
  {
  }

  /** `none` is no level to filter by: such a filter keeps what the caller may contribute to, though everyone has `none`. */
  lemma FilterByNothing(user: Option<Id>, mine: seq<MyGroup>, service: Id -> Membership, resource: Resource)
    requires Consistent(mine, service) && (user == None ==> mine == [])
    ensures AtLeast(Direct(resource, user, service), Nothing)
    ensures Keeps(ReadableOwnerFilter(user, mine, Nothing), resource) <==> AtLeast(Direct(resource, user, service), Contribute)
  {
    KeepsExactly(user, mine, Nothing, resource);
    GrantsAsAnswered(mine, service, Nothing, resource.owner.id);
  }

  /** As when nobody is signed in: everyone has `none` on a private resource, and the filter by `none` leaves it out. */
  lemma FilterByNothingDisagrees(service: Id -> Membership, id: Id)
    ensures var resource := Resource(UserOwner(id), false);
      AtLeast(Direct(resource, None, service), Nothing) && !Keeps(ReadableOwnerFilter(None, [], Nothing), resource)
  {
    KeepsExactly(None, [], Nothing, Resource(UserOwner(id), false));
  }

  // ---------------------------------------------------------------- one request's memory

  /** What one caller may do, for one request. `asked` is history: the groups the service was asked about, in order. */
  class OwnershipAccess {
    const user: Option<Id>
    var memberships: map<Id, Membership>
    var mine: Option<seq<MyGroup>>
    ghost var asked: seq<Id>

    /** Every answer remembered is the service's, and no group was asked about twice. */
    ghost predicate Valid(service: Id -> Membership)
      reads this
    {
      && (forall id | id in memberships :: memberships[id] == service(id))
      && (forall id :: id in memberships <==> id in asked)
      && (forall i, j | 0 <= i < j < |asked| :: asked[i] != asked[j])
    }

    constructor (caller: Option<Id>)
      ensures user == caller && memberships == map[] && mine == None && asked == []
    {
      user, memberships, mine, asked := caller, map[], None, [];
    }

    method MembershipIn(group: Id, service: Id -> Membership) returns (found: Membership)
      requires Valid(service)
      modifies this`memberships, this`asked
      ensures Valid(service)
      ensures found == if user == None then Membership(false, None) else service(group)
      ensures asked == if user == None || group in old(memberships) then old(asked) else old(asked) + [group]
    {
      if user == None { return Membership(false, None); }
      if group !in memberships {
        memberships := memberships[group := service(group)];
        asked := asked + [group];
      }
      found := memberships[group];
    }

    /** The remembered permission is the direct answer, however many questions came before. */
    method PermissionFor(resource: Resource, service: Id -> Membership) returns (p: Permission)
      requires Valid(service)
      modifies this`memberships, this`asked
      ensures Valid(service) && p == Direct(resource, user, service)
      ensures asked == old(asked) || (resource.owner.GroupOwner? && asked == old(asked) + [resource.owner.id])
    {
      if resource.owner.GroupOwner? {
        var membership := MembershipIn(resource.owner.id, service);
        p := ResolveAccess(resource, user, Some(membership));
      } else {
        p := ResolveAccess(resource, user, None);
      }
    }

    method Can(resource: Resource, needed: Permission, service: Id -> Membership) returns (yes: bool)
      requires Valid(service)
      modifies this`memberships, this`asked
      ensures Valid(service) && yes == AtLeast(Direct(resource, user, service), needed)
    {
      var p := PermissionFor(resource, service);
      yes := AtLeast(p, needed);
    }

    /** One permission for each row, in order; the service is asked once for each distinct owning group. */
    method Permissions(rows: seq<Resource>, service: Id -> Membership) returns (ps: seq<Permission>)
      requires Valid(service)
      modifies this`memberships, this`asked
      ensures Valid(service) && |ps| == |rows|
      ensures forall i | 0 <= i < |rows| :: ps[i] == Direct(rows[i], user, service)
    {
      ps := [];
      for i := 0 to |rows|
        invariant Valid(service) && |ps| == i
        invariant forall j | 0 <= j < i :: ps[j] == Direct(rows[j], user, service)
      {
        var p := PermissionFor(rows[i], service);
        ps := ps + [p];
      }
    }

    method MyGroups(list: seq<MyGroup>) returns (groups: seq<MyGroup>)
      modifies this`mine
      ensures groups == if user == None then [] else if old(mine).Some? then old(mine).value else list
      ensures mine == if user == None then old(mine) else Some(groups)
    {
      if user == None { return []; }
      if mine == None { mine := Some(list); }
      groups := mine.value;
    }

    /** The filter of this request, which agrees with its permissions. */
    method Filter(min: Permission, list: seq<MyGroup>, ghost service: Id -> Membership) returns (filter: seq<Clause>)
      requires Consistent(list, service) && min != Nothing && (mine.Some? ==> mine == Some(list))
      modifies this`mine
      ensures mine.Some? ==> mine == Some(list)
      ensures user.Some? ==> forall resource :: Keeps(filter, resource) <==> AtLeast(Direct(resource, user, service), min)
      ensures user == None ==> forall resource :: Keeps(filter, resource) <==> min == Read && resource.public
    {
      var groups := MyGroups(list);
      filter := ReadableOwnerFilter(user, groups, min);
      forall resource
        ensures user.Some? ==> (Keeps(filter, resource) <==> AtLeast(Direct(resource, user, service), min))
        ensures user == None ==> (Keeps(filter, resource) <==> min == Read && resource.public)
      {
        KeepsExactly(user, groups, min, resource);
        if user.Some? { FilterAgreesWithAccess(user, groups, service, min, resource); }
      }
    }
  }

  // ---------------------------------------------------------------- transfers

  /** What the lookup answers about one person. */
  function About(lookup: (Id, Id) -> Membership, user: Id): Id -> Membership {
    (group: Id) => lookup(group, user)
  }

  /** Whether this actor may hand a resource over; the lookup answers about anyone in any group. */
  function CanTransfer(from: Owner, to: Owner, actor: Option<Id>, lookup: (Id, Id) -> Membership): bool {
    if actor == None || from == to then false
    else if from.UserOwner? then from.id == actor.value && to.GroupOwner? && lookup(to.id, actor.value).member
    else
      var source := lookup(from.id, actor.value);
      if !source.member || source.role != Some(OwnerRole) then false
      else if to.UserOwner? then (if to.id == actor.value then source else lookup(from.id, to.id)).member
      else lookup(to.id, actor.value).member
  }

  /** Only those who own a resource may hand it over, whatever its visibility. */
  lemma TransferNeedsOwn(from: Owner, to: Owner, actor: Option<Id>, lookup: (Id, Id) -> Membership, public: bool)
    requires CanTransfer(from, to, actor, lookup)
    ensures actor.Some? && Direct(Resource(from, public), actor, About(lookup, actor.value)) == Own
  {
  }

  /**
   Whoever owns a resource may hand it over exactly to: a group they are in, if they own it themselves or
   their group does; or, from a group, to one of its members. Never from person to person.
   */
  lemma OwnersTransferExactly(from: Owner, to: Owner, actor: Id, lookup: (Id, Id) -> Membership, public: bool)
    requires Direct(Resource(from, public), Some(actor), About(lookup, actor)) == Own && from != to
    ensures CanTransfer(from, to, Some(actor), lookup) <==>
      || (to.GroupOwner? && lookup(to.id, actor).member)
      || (to.UserOwner? && from.GroupOwner? && lookup(from.id, to.id).member)
  {
  }

  /** Nothing is handed to strangers: afterwards the new owner owns it, and it was someone of the group or a group of the actor's. */
  lemma TransferStaysWithin(from: Owner, to: Owner, actor: Id, lookup: (Id, Id) -> Membership, public: bool)
    requires CanTransfer(from, to, Some(actor), lookup)
    requires forall group, user :: lookup(group, user).member ==> lookup(group, user).role.Some?
    ensures to.UserOwner? ==> from.GroupOwner? && AtLeast(Direct(Resource(from, public), Some(to.id), About(lookup, to.id)), Contribute)
    ensures to.GroupOwner? ==> AtLeast(Direct(Resource(to, public), Some(actor), About(lookup, actor)), Contribute)
  {
  }

  /** An item may be changed by the owner, an owner or admin of the owning group, and the member of it who added the item; by nobody else. */
  lemma ItemChangesNeedStanding(resource: Resource, actor: Option<Id>, service: Id -> Membership, createdBy: Option<Id>)
    ensures CanChangeItem(Direct(resource, actor, service), createdBy, actor) <==>
      || Owns(resource, actor) || Ranks(resource, actor, service, OwnerRole) || Ranks(resource, actor, service, AdminRole)
      || (Ranks(resource, actor, service, MemberRole) && createdBy == actor)
  {
    DirectExactly(resource, actor, service);
  }
}
