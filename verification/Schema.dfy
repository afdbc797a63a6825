/**
 The permission schema: object definitions, their relations, and permissions
 computed from a set of relationships. Names the schema does not define are
 `Undefined`; the backend answers an error for them.
 */
module Schema {
  import opened Wrappers

  datatype ObjectType =
    | User
    | Application
    | SystemPrincipal
    | Capability
    | ConsentGrant
    | UserProfile
    | Home
    | Device
    | Agent
    | Delegation
    | UndefinedType(name: string)

  datatype Relation =
    | Operator
    | Subject
    | Grantee
    | Granted
    | Owner
    | Reader
    | Resident
    | Guest
    | InHome
    | Self
    | EnrolledFor
    | Delegator
    | Delegate

  datatype Permission =
    | Administrate
    | Includes
    | Revoke
    | View
    | Edit
    | Operate
    | OperateLock
    | PushTelemetry
    | ActFor
    | Direct(relation: Relation)
    | UndefinedPermission(name: string)

  datatype Object = Object(kind: ObjectType, id: string)

  /** `resource#relation@subject` */
  datatype Tuple = Tuple(resource: Object, relation: Relation, subject: Object)

  datatype Query = Query(resource: Object, permission: Permission, subject: Object)

  datatype Outcome = Denied | Permitted | Conditional

  /** Relationships with their optional expiry. */
  type Relationships = map<Tuple, Option<int>>

  /** The relationships the backend still honours at `now`. */
  function Live(db: Relationships, now: int): set<Tuple> {
    set t | t in db && (db[t].None? || now < db[t].value)
  }

  /** The subject type a definition declares for a relation. */
  function Declares(kind: ObjectType, relation: Relation): Option<ObjectType> {
    match (kind, relation)
    case (SystemPrincipal, Operator) => Some(User)
    case (ConsentGrant, Subject) => Some(User)
    case (ConsentGrant, Grantee) => Some(Application)
    case (ConsentGrant, Granted) => Some(Capability)
    case (UserProfile, Owner) => Some(User)
    case (UserProfile, Reader) => Some(User)
    case (Home, Owner) => Some(User)
    case (Home, Resident) => Some(User)
    case (Home, Guest) => Some(User)
    case (Device, InHome) => Some(Home)
    case (Device, Operator) => Some(User)
    case (Device, Self) => Some(SystemPrincipal)
    case (Agent, Operator) => Some(User)
    case (Agent, EnrolledFor) => Some(User)
    case (Delegation, Delegator) => Some(User)
    case (Delegation, Delegate) => Some(Agent)
    case (Delegation, Granted) => Some(Capability)
    case _ => None
  }

  /** The schema has an answer for this permission on this definition. */
  predicate Defined(kind: ObjectType, permission: Permission) {
    match (kind, permission)
    case (SystemPrincipal, Administrate) => true
    case (ConsentGrant, Includes) => true
    case (ConsentGrant, Revoke) => true
    case (UserProfile, View) => true
    case (UserProfile, Edit) => true
    case (Home, Administrate) => true
    case (Home, Operate) => true
    case (Home, View) => true
    case (Device, View) => true
    case (Device, Operate) => true
    case (Device, OperateLock) => true
    case (Device, PushTelemetry) => true
    case (Agent, Administrate) => true
    case (Agent, ActFor) => true
    case (Delegation, Includes) => true
    case (Delegation, Revoke) => true
    case (_, Direct(relation)) => Declares(kind, relation).Some?
    case _ => false
  }

  predicate HomeGrants(live: set<Tuple>, home: Object, permission: Permission, who: Object) {
    match permission
    case Administrate => Tuple(home, Owner, who) in live
    case Operate => Tuple(home, Owner, who) in live || Tuple(home, Resident, who) in live
    case View =>
      Tuple(home, Owner, who) in live || Tuple(home, Resident, who) in live || Tuple(home, Guest, who) in live
    case _ => false
  }

  /** `home->permission` on a device. */
  predicate ThroughHome(live: set<Tuple>, device: Object, permission: Permission, who: Object) {
    exists t :: t in live && t.resource == device && t.relation == InHome && t.subject.kind == Home
      && HomeGrants(live, t.subject, permission, who)
  }

  predicate Holds(live: set<Tuple>, q: Query) {
    var o, who := q.resource, q.subject;
    match (o.kind, q.permission)
    case (SystemPrincipal, Administrate) => Tuple(o, Operator, who) in live
    case (ConsentGrant, Includes) => Tuple(o, Granted, who) in live
    case (ConsentGrant, Revoke) => Tuple(o, Subject, who) in live
    case (UserProfile, View) => Tuple(o, Owner, who) in live || Tuple(o, Reader, who) in live
    case (UserProfile, Edit) => Tuple(o, Owner, who) in live
    case (Home, Administrate) => HomeGrants(live, o, Administrate, who)
    case (Home, Operate) => HomeGrants(live, o, Operate, who)
    case (Home, View) => HomeGrants(live, o, View, who)
    case (Device, View) => Tuple(o, Operator, who) in live || ThroughHome(live, o, View, who)
    case (Device, Operate) => Tuple(o, Operator, who) in live || ThroughHome(live, o, Operate, who)
    case (Device, OperateLock) => Tuple(o, Operator, who) in live || ThroughHome(live, o, Administrate, who)
    case (Device, PushTelemetry) => Tuple(o, Self, who) in live
    case (Agent, Administrate) => Tuple(o, Operator, who) in live
    case (Agent, ActFor) => Tuple(o, EnrolledFor, who) in live
    case (Delegation, Includes) => Tuple(o, Granted, who) in live
    case (Delegation, Revoke) => Tuple(o, Delegator, who) in live
    case (kind, Direct(relation)) => Declares(kind, relation).Some? && Tuple(o, relation, who) in live
    case _ => false
  }

  /** One bulk check at one revision: an undefined name fails the whole call. */
  function EvaluateBulk(live: set<Tuple>, queries: seq<Query>): Option<seq<Outcome>> {
    if forall q :: q in queries ==> Defined(q.resource.kind, q.permission) then
      Some(seq(|queries|, i requires 0 <= i < |queries| => if Holds(live, queries[i]) then Permitted else Denied))
    else None
  }

  // ---- what every set of relationships satisfies ----------------------------

  /** Granting more never takes a permission away. */
  lemma HoldsMonotone(fewer: set<Tuple>, more: set<Tuple>, q: Query)
    requires fewer <= more
    requires Holds(fewer, q)
    ensures Holds(more, q)
  {
    var o, who := q.resource, q.subject;
    var arrow := if q.permission == OperateLock then Administrate else q.permission;
    if o.kind == Device && ThroughHome(fewer, o, arrow, who) {
      var t :| t in fewer && t.resource == o && t.relation == InHome && t.subject.kind == Home
        && HomeGrants(fewer, t.subject, arrow, who);
      assert t in more && HomeGrants(more, t.subject, arrow, who);
    }
  }

  /** Whoever may operate a lock may operate the device, and may view it. */
  lemma LockImpliesOperateImpliesView(live: set<Tuple>, device: Object, who: Object)
    requires device.kind == Device
    ensures Holds(live, Query(device, OperateLock, who)) ==> Holds(live, Query(device, Operate, who))
    ensures Holds(live, Query(device, Operate, who)) ==> Holds(live, Query(device, View, who))
  {
    forall t | t in live && HomeGrants(live, t.subject, Administrate, who)
      ensures HomeGrants(live, t.subject, Operate, who)
    {}
    forall t | t in live && HomeGrants(live, t.subject, Operate, who)
      ensures HomeGrants(live, t.subject, View, who)
    {}
  }

  /** Time only removes relationships; it never brings one back. */
  lemma TimeOnlyExpires(db: Relationships, early: int, late: int)
    requires early <= late
    ensures Live(db, late) <= Live(db, early)
  {
  }
}
