/**
 Who does not hold a permission, read off the derivations: the denials the schema is written for.
 */
module Denials {
  import opened Schema
  import opened SchemaTable
  import opened Derivations

  /** A lock opens to its operators and to the owners of its home, and to nobody else. */
  lemma LockExactly(live: set<Tuple>, device: Object, who: Object)
    requires device.kind == Device
    ensures Holds(live, Query(device, OperateLock, who))
       <==> Tuple(device, Operator, who) in live
            || exists home: Object ::
                 home.kind == Home && Tuple(device, InHome, home) in live && Tuple(home, Owner, who) in live
  {
    if ThroughHome(live, device, Administrate, who) {
      var t :| t in live && t.resource == device && t.relation == InHome && t.subject.kind == Home
        && HomeGrants(live, t.subject, Administrate, who);
      assert t == Tuple(device, InHome, t.subject);
    }
  }

  /** Every live relationship that names the subject is one of these. */
  ghost predicate NamedOnlyBy(live: set<Tuple>, who: Object, relations: set<Relation>) {
    forall t :: t in live && t.subject == who ==> t.relation in relations
  }

  lemma GuestAlone(kind: ObjectType, permission: Permission)
    requires Of(Guest) in TermsOf(kind, permission)
    ensures permission in {View, Direct(Guest)} && kind == Home
  {
  }

  lemma ReaderAlone(kind: ObjectType, permission: Permission)
    requires Of(Reader) in TermsOf(kind, permission)
    ensures permission in {View, Direct(Reader)} && kind == UserProfile
  {
  }

  lemma ResidentAlone(kind: ObjectType, permission: Permission)
    requires Of(Resident) in TermsOf(kind, permission)
    ensures permission in {View, Operate, Direct(Resident)} && kind == Home
  {
  }

  /** What a guest's, a reader's and a resident's relation gives where it stands. */
  lemma RelationAlone(kind: ObjectType, permission: Permission, relation: Relation)
    requires Of(relation) in TermsOf(kind, permission)
    ensures relation == Guest ==> permission in {View, Direct(Guest)} && kind == Home
    ensures relation == Reader ==> permission in {View, Direct(Reader)} && kind == UserProfile
    ensures relation == Resident ==> permission in {View, Operate, Direct(Resident)} && kind == Home
  {
    match relation
    case Guest => GuestAlone(kind, permission);
    case Reader => ReaderAlone(kind, permission);
    case Resident => ResidentAlone(kind, permission);
    case _ =>
  }

  /** Every derivation ends in a relationship that names the subject. */
  lemma HeldIsNamed(live: set<Tuple>, q: Query) returns (t: Tuple)
    requires Holds(live, q)
    ensures t in live && t.subject == q.subject
    ensures t.relation == Guest ==> q.permission in {View, Direct(Guest)} && q.resource.kind in {Home, Device}
    ensures t.relation == Reader ==> q.permission in {View, Direct(Reader)} && q.resource.kind == UserProfile
    ensures t.relation == Resident ==>
              q.permission in {View, Operate, Direct(Resident)} && q.resource.kind in {Home, Device}
  {
    var d := HeldDerives(live, q);
    match d
    case Last(edge) =>
      t := edge;
      RelationAlone(q.resource.kind, q.permission, t.relation);
    case Through(edge, permission, rest) =>
      t := rest.edge;
      OnlyArrows(q.resource.kind, q.permission, edge.relation, permission);
      RelationAlone(Home, permission, t.relation);
  }

  /** Without a relationship of its own a subject holds nothing. */
  lemma StrangerHoldsNothing(live: set<Tuple>, q: Query)
    requires NamedOnlyBy(live, q.subject, {})
    ensures !Holds(live, q)
  {
    if Holds(live, q) {
      var t := HeldIsNamed(live, q);
    }
  }

  /** A guest may look and may not act. */
  lemma GuestOnlyViews(live: set<Tuple>, q: Query)
    requires NamedOnlyBy(live, q.subject, {Guest}) && Holds(live, q)
    ensures q.permission in {View, Direct(Guest)} && q.resource.kind in {Home, Device}
  {
    var t := HeldIsNamed(live, q);
  }

  /** A resident operates devices and opens no lock. */
  lemma ResidentNeverUnlocks(live: set<Tuple>, q: Query)
    requires NamedOnlyBy(live, q.subject, {Resident, Guest}) && Holds(live, q)
    ensures q.permission in {View, Operate, Direct(Resident), Direct(Guest)} && q.resource.kind in {Home, Device}
  {
    var t := HeldIsNamed(live, q);
  }

  /** A reader views the profile and edits nothing. */
  lemma ReaderOnlyViews(live: set<Tuple>, q: Query)
    requires NamedOnlyBy(live, q.subject, {Reader}) && Holds(live, q)
    ensures q.permission in {View, Direct(Reader)} && q.resource.kind == UserProfile
  {
    var t := HeldIsNamed(live, q);
  }
}
