/**
 The schema's evaluator and its table agree: a permission is held exactly when it is derived.
 */
module Derivations {
  import opened Schema
  import opened SchemaTable

  lemma HomeDerives(live: set<Tuple>, home: Object, permission: Permission, who: Object) returns (d: Derivation)
    requires home.kind == Home && HomeGrants(live, home, permission, who)
    ensures Derives(live, Query(home, permission, who), d)
  {
    var relation := if Tuple(home, Owner, who) in live then Owner
                    else if Tuple(home, Resident, who) in live then Resident else Guest;
    d := Last(Tuple(home, relation, who));
  }

  lemma HeldDerives(live: set<Tuple>, q: Query) returns (d: Derivation)
    requires Holds(live, q)
    ensures Derives(live, q, d)
  {
    var o, who, terms := q.resource, q.subject, TermsOf(q.resource.kind, q.permission);
    if t :| t in live && t.resource == o && t.subject == who && Of(t.relation) in terms {
      d := Last(t);
    } else {
      var inner := if q.permission == OperateLock then Administrate else q.permission;
      var t :| t in live && t.resource == o && t.relation == InHome && t.subject.kind == Home
        && HomeGrants(live, t.subject, inner, who);
      var rest := HomeDerives(live, t.subject, inner, who);
      d := Through(t, inner, rest);
    }
  }

  lemma HomeDerived(live: set<Tuple>, home: Object, permission: Permission, who: Object, d: Derivation)
    requires home.kind == Home && !permission.Direct?
    requires Derives(live, Query(home, permission, who), d)
    ensures HomeGrants(live, home, permission, who)
  {
  }

  /** The only arrows lead from a device to its home. */
  lemma OnlyArrows(kind: ObjectType, permission: Permission, relation: Relation, inner: Permission)
    requires Arrow(relation, inner) in TermsOf(kind, permission)
    ensures kind == Device && relation == InHome && permission in {View, Operate, OperateLock}
    ensures inner == (if permission == OperateLock then Administrate else permission)
  {
  }

  lemma DerivedIsHeld(live: set<Tuple>, q: Query, d: Derivation)
    requires Derives(live, q, d)
    ensures Holds(live, q)
  {
    match d
    case Last(edge) => LinkedIsHeld(live, q, edge);
    case Through(edge, permission, rest) =>
      OnlyArrows(q.resource.kind, q.permission, edge.relation, permission);
      HomeDerived(live, edge.subject, permission, q.subject, rest);
      assert ThroughHome(live, q.resource, permission, q.subject);
  }

  lemma LinkedIsHeld(live: set<Tuple>, q: Query, edge: Tuple)
    requires edge in live && edge.resource == q.resource && edge.subject == q.subject
    requires Of(edge.relation) in TermsOf(q.resource.kind, q.permission)
    ensures Holds(live, q)
  {
  }

  /** The evaluator answers yes exactly when the table derives it, for every question. */
  lemma HoldsExactly(live: set<Tuple>, q: Query)
    ensures Holds(live, q) <==> Derivable(live, q)
  {
    if Holds(live, q) {
      var d := HeldDerives(live, q);
      assert Derivable(live, q);
    }
    if Derivable(live, q) {
      var d :| Derives(live, q, d);
      DerivedIsHeld(live, q, d);
    }
  }
}
