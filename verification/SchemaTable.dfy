/**
 The schema as data: for each definition its relations with their subject types and, for
 each permission, what it unites. A permission is held when there is a derivation from
 that table, and `Schema.Holds` is proved to say exactly this.
 */
module SchemaTable {
  import opened Wrappers
  import opened Schema

  /** One operand of a permission: a relation, or a permission of what a relation leads to. */
  datatype Term = Of(relation: Relation) | Arrow(relation: Relation, permission: Permission)

  datatype Definition = Definition(relations: map<Relation, ObjectType>, permissions: map<Permission, set<Term>>)

  function DefinitionOf(kind: ObjectType): Definition {
    match kind
    case SystemPrincipal => Definition(map[Operator := User], map[Administrate := {Of(Operator)}])
    case ConsentGrant =>
      Definition(map[Subject := User, Grantee := Application, Granted := Capability],
                 map[Includes := {Of(Granted)}, Revoke := {Of(Subject)}])
    case UserProfile =>
      Definition(map[Owner := User, Reader := User], map[View := {Of(Owner), Of(Reader)}, Edit := {Of(Owner)}])
    case Home =>
      Definition(map[Owner := User, Resident := User, Guest := User],
                 map[Administrate := {Of(Owner)},
                     Operate := {Of(Owner), Of(Resident)},
                     View := {Of(Owner), Of(Resident), Of(Guest)}])
    case Device =>
      Definition(map[InHome := Home, Operator := User, Self := SystemPrincipal],
                 map[View := {Of(Operator), Arrow(InHome, View)},
                     Operate := {Of(Operator), Arrow(InHome, Operate)},
                     OperateLock := {Of(Operator), Arrow(InHome, Administrate)},
                     PushTelemetry := {Of(Self)}])
    case Agent =>
      Definition(map[Operator := User, EnrolledFor := User],
                 map[Administrate := {Of(Operator)}, ActFor := {Of(EnrolledFor)}])
    case Delegation =>
      Definition(map[Delegator := User, Delegate := Agent, Granted := Capability],
                 map[Includes := {Of(Granted)}, Revoke := {Of(Delegator)}])
    case _ => Definition(map[], map[])
  }

  /** A declared relation stands for itself; a name the definition lacks unites nothing. */
  function TermsOf(kind: ObjectType, permission: Permission): set<Term> {
    var d := DefinitionOf(kind);
    if permission.Direct? && permission.relation in d.relations then {Of(permission.relation)}
    else if permission in d.permissions then d.permissions[permission] else {}
  }

  /** A chain of relationships from the resource to the subject. */
  datatype Derivation = Last(edge: Tuple) | Through(edge: Tuple, permission: Permission, rest: Derivation)

  /** Each link is live and is one the table allows at its place; the last one ends at the subject. */
  predicate Derives(live: set<Tuple>, q: Query, d: Derivation)
    decreases d
  {
    && d.edge in live && d.edge.resource == q.resource
    && match d
       case Last(edge) => edge.subject == q.subject && Of(edge.relation) in TermsOf(q.resource.kind, q.permission)
       case Through(edge, permission, rest) =>
         && Arrow(edge.relation, permission) in TermsOf(q.resource.kind, q.permission)
         && Declares(q.resource.kind, edge.relation) == Some(edge.subject.kind)
         && Derives(live, Query(edge.subject, permission, q.subject), rest)
  }

  ghost predicate Derivable(live: set<Tuple>, q: Query) {
    exists d :: Derives(live, q, d)
  }

  /** The relations of the evaluator are those of the table, with the same subject types. */
  lemma RelationsAgree(kind: ObjectType, relation: Relation)
    ensures var declared := DefinitionOf(kind).relations;
            Declares(kind, relation) == if relation in declared then Some(declared[relation]) else None
  {
  }

  /** The permissions it answers are those the table has terms for. */
  lemma PermissionsAgree(kind: ObjectType, permission: Permission)
    ensures Defined(kind, permission) <==> TermsOf(kind, permission) != {}
  {
    if Defined(kind, permission) {
      assert Of(FirstRelation(kind, permission)) in TermsOf(kind, permission);
    }
  }

  /** Some relation that gives the permission, where the evaluator has an answer. */
  function FirstRelation(kind: ObjectType, permission: Permission): Relation {
    match (kind, permission)
    case (_, Direct(relation)) => relation
    case (ConsentGrant, Revoke) => Subject
    case (Delegation, Revoke) => Delegator
    case (_, Includes) => Granted
    case (UserProfile, _) => Owner
    case (Home, _) => Owner
    case (Device, PushTelemetry) => Self
    case (_, ActFor) => EnrolledFor
    case _ => Operator
  }
}
