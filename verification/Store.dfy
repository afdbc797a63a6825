/**
 The relationship store and the writer the account console holds. Every call can
 fail to reach the backend; a call that fails changes nothing.
 */
module Store {
  import opened Wrappers
  import opened Text
  import opened Schema

  datatype Update = Touch(tuple: Tuple, expires: Option<int>) | Remove(tuple: Tuple)

  function Updated(db: Relationships, u: Update): Relationships {
    match u
    case Touch(t, e) => db[t := e]
    case Remove(t) => db - {t}
  }

  /** All updates of one request, in order. */
  function UpdatedAll(db: Relationships, us: seq<Update>): Relationships {
    if us == [] then db else Updated(UpdatedAll(db, us[..|us| - 1]), us[|us| - 1])
  }

  datatype Filter = Filter(
    kind: ObjectType,
    id: Option<string>,
    idPrefix: Option<string>,
    relation: Option<Relation>,
    subject: Option<Object>)

  predicate Selects(f: Filter, t: Tuple) {
    && t.resource.kind == f.kind
    && (f.id.Some? ==> t.resource.id == f.id.value)
    && (f.idPrefix.Some? ==> HasPrefix(t.resource.id, f.idPrefix.value))
    && (f.relation.Some? ==> t.relation == f.relation.value)
    && (f.subject.Some? ==> t.subject == f.subject.value)
  }

  function Without(db: Relationships, f: Filter): Relationships {
    map t | t in db && !Selects(f, t) :: db[t]
  }

  /** The backend: relationships and the operations the service calls on them. */
  class Database {
    var tuples: Relationships

    method Write(updates: seq<Update>)
      modifies this
      ensures tuples == UpdatedAll(old(tuples), updates)
    {
      for i := 0 to |updates|
        invariant tuples == UpdatedAll(old(tuples), updates[..i])
      {
        assert updates[..i + 1][..i] == updates[..i];
        match updates[i] {
          case Touch(t, e) => tuples := tuples[t := e];
          case Remove(t) => tuples := tuples - {t};
        }
      }
      assert updates[..|updates|] == updates;
    }

    method DeleteMatching(f: Filter)
      modifies this
      ensures tuples == Without(old(tuples), f)
    {
      tuples := map t | t in tuples && !Selects(f, t) :: tuples[t];
    }

    /** Streams the live relationships the filter selects, each once, in no promised order. */
    method Read(f: Filter, now: int) returns (stream: seq<Tuple>)
      ensures forall t :: t in stream <==> t in Live(tuples, now) && Selects(f, t)
      ensures forall i, j :: 0 <= i < j < |stream| ==> stream[i] != stream[j]
    {
      stream := [];
      var left := set t | t in Live(tuples, now) && Selects(f, t);
      while left != {}
        invariant forall t :: t in stream || t in left <==> t in Live(tuples, now) && Selects(f, t)
        invariant forall t :: t in stream ==> t !in left
        invariant forall i, j :: 0 <= i < j < |stream| ==> stream[i] != stream[j]
        decreases left
      {
        var t :| t in left;
        stream := stream + [t];
        left := left - {t};
      }
    }
  }

  // ---- object ids of grants ----------------------------------------------------

  /** `<user>|<party>`, for consent grants and delegations alike. */
  function PairId(user: string, party: string): string {
    user + "|" + party
  }

  /** The text after the last `|`, or all of it. */
  function PartyOf(id: string): string {
    if id == "" || '|' !in id then id else if '|' !in id[1..] && id[0] == '|' then id[1..] else PartyOf(id[1..])
  }

  method ApplicationOf(grantId: string) returns (party: string)
    ensures party == PartyOf(grantId)
  {
    var i := |grantId| - 1;
    while i >= 0
      invariant -1 <= i < |grantId|
      invariant '|' !in grantId[i + 1..]
    {
      if grantId[i] == '|' {
        LastPipe(grantId, i);
        return grantId[i + 1..];
      }
      assert grantId[i..] == [grantId[i]] + grantId[i + 1..];
      i := i - 1;
    }
    assert grantId[0..] == grantId;
    return grantId;
  }

  lemma {:induction false} LastPipe(id: string, i: nat)
    requires i < |id| && id[i] == '|' && '|' !in id[i + 1..]
    ensures PartyOf(id) == id[i + 1..]
  {
    if i > 0 {
      assert id[1..][i - 1] == '|' && id[1..][i..] == id[i + 1..];
      LastPipe(id[1..], i - 1);
    }
  }

  /** Reading the party back out of an id is exact exactly for party names without `|`. */
  lemma PartyOfPair(user: string, party: string)
    ensures PartyOf(PairId(user, party)) == party <==> '|' !in party
  {
    var id := PairId(user, party);
    if '|' !in party {
      assert id[|user| + 1..] == party;
      LastPipe(id, |user|);
    } else {
      PartyHasNoPipe(id);
    }
  }

  lemma {:induction false} PartyHasNoPipe(id: string)
    ensures '|' !in PartyOf(id)
  {
    if id != "" && '|' in id && !('|' !in id[1..] && id[0] == '|') {
      PartyHasNoPipe(id[1..]);
    }
  }

  /** Neither user id is the other one continued after a `|`. */
  predicate Separate(u: string, v: string) {
    u == v || (!HasPrefix(u, v + "|") && !HasPrefix(v, u + "|"))
  }

  lemma ContinuationHasPipe(u: string, v: string)
    requires HasPrefix(u, v + "|")
    ensures '|' in u
  {
    assert u[|v|] == (v + "|")[|v|] == '|';
  }

  lemma PipeFreeSeparate(u: string, v: string)
    requires '|' !in u && '|' !in v
    ensures Separate(u, v)
  {
    if HasPrefix(u, v + "|") {
      ContinuationHasPipe(u, v);
    }
    if HasPrefix(v, u + "|") {
      ContinuationHasPipe(v, u);
    }
  }

  lemma PrefixContinues(u: string, v: string, party: string)
    requires HasPrefix(PairId(v, party), u + "|")
    ensures u == v || HasPrefix(v, u + "|") || HasPrefix(u, v + "|")
  {
    var id := PairId(v, party);
    assert id[..|v| + 1] == v + "|" && id[..|v|] == v && id[..|u|] == u;
    if |u| < |v| {
      assert v[..|u| + 1] == id[..|u| + 1];
    } else if |v| < |u| {
      assert u[..|v| + 1] == id[..|v| + 1];
    }
  }

  /** An id starts with a user's prefix only if it is that user's, given separate users. */
  lemma PrefixNamesUser(u: string, v: string, party: string)
    requires Separate(u, v)
    ensures HasPrefix(PairId(v, party), u + "|") <==> u == v
  {
    assert PairId(v, party)[..|v| + 1] == v + "|";
    if HasPrefix(PairId(v, party), u + "|") {
      PrefixContinues(u, v, party);
    }
  }

  /** Two users share a grant id exactly when one id continues the other after a `|`. */
  lemma PairIdsCollideExactly(u: string, v: string)
    requires u != v
    ensures Separate(u, v) <==> forall p, q :: PairId(u, p) != PairId(v, q)
  {
    if Separate(u, v) {
      forall p, q ensures PairId(u, p) != PairId(v, q) {
        PrefixNamesUser(u, v, q);
        assert HasPrefix(PairId(u, p), u + "|");
      }
    } else if HasPrefix(u, v + "|") {
      var rest := u[|v| + 1..];
      assert u == v + "|" + rest;
      assert PairId(u, "") == PairId(v, rest + "|");
    } else {
      var rest := v[|u| + 1..];
      assert v == u + "|" + rest;
      assert PairId(v, "") == PairId(u, rest + "|");
    }
  }

  lemma PairIdInjective(u: string, p: string, v: string, q: string)
    requires Separate(u, v)
    ensures PairId(u, p) == PairId(v, q) <==> u == v && p == q
  {
    if PairId(u, p) == PairId(v, q) {
      PrefixNamesUser(u, v, q);
      assert HasPrefix(PairId(u, p), u + "|");
      assert PairId(u, p)[|u| + 1..] == p && PairId(v, q)[|v| + 1..] == q;
    }
  }

  // ---- what each write does ----------------------------------------------------

  /** The relationship that lets `party` use `capability` for `user`. */
  function Edge(kind: ObjectType, user: string, party: string, capability: string): Tuple {
    Tuple(Object(kind, PairId(user, party)), Granted, Object(Capability, capability))
  }

  function Edges(kind: ObjectType, user: string, party: string, capabilities: seq<string>): set<Tuple> {
    set c | c in capabilities :: Edge(kind, user, party, c)
  }

  function ConsentEnds(user: string, app: string): set<Tuple> {
    var grant := Object(ConsentGrant, PairId(user, app));
    {Tuple(grant, Subject, Object(User, user)), Tuple(grant, Grantee, Object(Application, app))}
  }

  function DelegationEnds(user: string, agent: string): set<Tuple> {
    var delegation := Object(Delegation, PairId(user, agent));
    {Tuple(delegation, Delegator, Object(User, user)), Tuple(delegation, Delegate, Object(Agent, agent))}
  }

  function Touched(db: Relationships, ts: set<Tuple>, expires: Option<int>): Relationships {
    db + map t | t in ts :: expires
  }

  function WholeObject(kind: ObjectType, id: string): Filter {
    Filter(kind, Some(id), None, None, None)
  }

  function DelegationsTo(agent: string): Filter {
    Filter(Delegation, None, None, Some(Delegate), Some(Object(Agent, agent)))
  }

  datatype Write =
    | Consent(user: string, app: string, capabilities: seq<string>)
    | Withdraw(user: string, app: string, capabilities: seq<string>)
    | Delegating(user: string, agent: string, capabilities: seq<string>, ttl: int)
    | Undelegating(user: string, agent: string, capabilities: seq<string>)
    | Decommissioning(kind: ObjectType, id: string, complete: bool)
    | Raw(update: Update)
    | Idle

  function Applied(db: Relationships, now: int, w: Write): Relationships {
    match w
    case Consent(u, a, cs) => Touched(Touched(db, ConsentEnds(u, a), None), Edges(ConsentGrant, u, a, cs), None)
    case Withdraw(u, a, cs) =>
      if cs == [] then Without(db, WholeObject(ConsentGrant, PairId(u, a))) else db - Edges(ConsentGrant, u, a, cs)
    case Delegating(u, g, cs, ttl) =>
      Touched(Touched(db, DelegationEnds(u, g), None), Edges(Delegation, u, g, cs), Some(now + ttl))
    case Undelegating(u, g, cs) =>
      if cs == [] then Without(db, WholeObject(Delegation, PairId(u, g))) else db - Edges(Delegation, u, g, cs)
    case Decommissioning(kind, id, complete) =>
      var without := Without(db, WholeObject(kind, id));
      if kind == Agent && complete then Without(without, DelegationsTo(id)) else without
    case Raw(u) => Updated(db, u)
    case Idle => db
  }

  lemma UpdatedAllConcat(db: Relationships, us: seq<Update>, u: Update)
    ensures UpdatedAll(db, us + [u]) == Updated(UpdatedAll(db, us), u)
  {
    assert (us + [u])[..|us|] == us;
  }

  // ---- the writer ------------------------------------------------------------------

  datatype Held = Held(capability: string, expires: Option<int>)

  datatype Listing = Listing(party: string, held: seq<Held>)

  /** The listing filter: `granted` edges of ids that start with the user's prefix. */
  function ListedFor(kind: ObjectType, user: string): Filter {
    Filter(kind, None, Some(user + "|"), Some(Granted), None)
  }

  /** `party` is shown holding `capability` on the user's account page. */
  predicate Shown(listings: seq<Listing>, party: string, held: Held) {
    exists i :: 0 <= i < |listings| && listings[i].party == party && held in listings[i].held
  }

  function EnrolmentQuery(agent: string, user: string): Query {
    Query(Object(Agent, agent), ActFor, Object(User, user))
  }

  function OperatorQuery(kind: ObjectType, id: string, user: string): Query {
    Query(Object(kind, id), Administrate, Object(User, user))
  }

  class Writer {
    const database: Database

    constructor (database: Database)
      ensures this.database == database
    {
      this.database := database;
    }

    method Grant(user: string, app: string, capabilities: seq<string>, now: int, up: bool) returns (ok: bool)
      modifies database
      ensures ok <==> capabilities != [] && up
      ensures !ok ==> database.tuples == old(database.tuples)
      ensures ok ==> database.tuples == Applied(old(database.tuples), now, Consent(user, app, capabilities))
    {
      if |capabilities| == 0 {
        return false;
      }
      var grant := Object(ConsentGrant, PairId(user, app));
      var first := Tuple(grant, Subject, Object(User, user));
      var second := Tuple(grant, Grantee, Object(Application, app));
      TouchTwo(database.tuples, first, second);
      var updates := [Touch(first, None), Touch(second, None)];
      updates := TouchEdges(updates, ConsentGrant, user, app, capabilities, None, database.tuples);
      if !up {
        return false;
      }
      database.Write(updates);
      return true;
    }

    method Revoke(user: string, app: string, capabilities: seq<string>, now: int, up: bool) returns (ok: bool)
      modifies database
      ensures ok <==> up
      ensures !ok ==> database.tuples == old(database.tuples)
      ensures ok ==> database.tuples == Applied(old(database.tuples), now, Withdraw(user, app, capabilities))
    {
      if !up {
        return false;
      }
      if |capabilities| > 0 {
        var updates := RemoveEdges(ConsentGrant, user, app, capabilities, database.tuples);
        database.Write(updates);
        return true;
      }
      database.DeleteMatching(WholeObject(ConsentGrant, PairId(user, app)));
      return true;
    }

    method Delegate(user: string, agent: string, capabilities: seq<string>, ttl: int, now: int, up: bool)
      returns (expires: Option<int>)
      modifies database
      ensures expires == if capabilities != [] && ttl > 0 && up then Some(now + ttl) else None
      ensures expires.None? ==> database.tuples == old(database.tuples)
      ensures expires.Some? ==>
                database.tuples == Applied(old(database.tuples), now, Delegating(user, agent, capabilities, ttl))
    {
      if |capabilities| == 0 || ttl <= 0 {
        return None;
      }
      var at := now + ttl;
      var delegation := Object(Delegation, PairId(user, agent));
      var first := Tuple(delegation, Delegator, Object(User, user));
      var second := Tuple(delegation, Schema.Delegate, Object(Agent, agent));
      TouchTwo(database.tuples, first, second);
      var updates := [Touch(first, None), Touch(second, None)];
      updates := TouchEdges(updates, Delegation, user, agent, capabilities, Some(at), database.tuples);
      if !up {
        return None;
      }
      database.Write(updates);
      return Some(at);
    }

    method Undelegate(user: string, agent: string, capabilities: seq<string>, now: int, up: bool) returns (ok: bool)
      modifies database
      ensures ok <==> up
      ensures !ok ==> database.tuples == old(database.tuples)
      ensures ok ==> database.tuples == Applied(old(database.tuples), now, Undelegating(user, agent, capabilities))
    {
      if !up {
        return false;
      }
      if |capabilities| > 0 {
        var updates := RemoveEdges(Delegation, user, agent, capabilities, database.tuples);
        database.Write(updates);
        return true;
      }
      database.DeleteMatching(WholeObject(Delegation, PairId(user, agent)));
      return true;
    }

    /** Two deletions; the second can fail after the first has happened. */
    method Decommission(kind: ObjectType, id: string, now: int, up: bool, upAgain: bool) returns (ok: bool)
      modifies database
      ensures ok <==> up && (kind == Agent ==> upAgain)
      ensures database.tuples
        == if up then Applied(old(database.tuples), now, Decommissioning(kind, id, upAgain)) else old(database.tuples)
    {
      if !up {
        return false;
      }
      database.DeleteMatching(WholeObject(kind, id));
      if kind == Agent {
        if !upAgain {
          return false;
        }
        database.DeleteMatching(DelegationsTo(id));
      }
      return true;
    }

    /** A fully consistent question; no answer when the backend is unreachable. */
    method Check(q: Query, now: int, up: bool) returns (answer: Option<bool>)
      ensures answer == if up then Some(Holds(Live(database.tuples, now), q)) else None
    {
      if !up {
        return None;
      }
      return Some(Holds(Live(database.tuples, now), q));
    }

    method EnrolledFor(agent: string, user: string, now: int, up: bool) returns (answer: Option<bool>)
      ensures answer == if up then Some(Holds(Live(database.tuples, now), EnrolmentQuery(agent, user))) else None
    {
      answer := Check(Query(Object(Agent, agent), ActFor, Object(User, user)), now, up);
    }

    method Operates(kind: ObjectType, id: string, user: string, now: int, up: bool) returns (answer: Option<bool>)
      ensures answer == if up then Some(Holds(Live(database.tuples, now), OperatorQuery(kind, id, user))) else None
    {
      answer := Check(Query(Object(kind, id), Administrate, Object(User, user)), now, up);
    }

    /** A user's live grants or delegations, grouped by the party that holds them. */
    method List(kind: ObjectType, user: string, now: int) returns (listings: seq<Listing>)
      ensures forall party, held :: Shown(listings, party, held)
                <==> exists t :: t in Live(database.tuples, now) && Selects(ListedFor(kind, user), t)
                       && PartyOf(t.resource.id) == party && held == Held(t.subject.id, database.tuples[t])
      ensures forall i, j :: 0 <= i < j < |listings| ==> listings[i].party != listings[j].party
    {
      var stream := database.Read(ListedFor(kind, user), now);
      var byParty := Group(stream, database.tuples);
      listings := Flatten(byParty);
      forall party, held
        ensures Shown(listings, party, held)
          <==> exists t :: t in Live(database.tuples, now) && Selects(ListedFor(kind, user), t)
                 && PartyOf(t.resource.id) == party && held == Held(t.subject.id, database.tuples[t])
      {
        assert Shown(listings, party, held) <==> Received(stream, database.tuples, party, held);
      }
    }
  }

  lemma TouchTwo(db: Relationships, first: Tuple, second: Tuple)
    ensures UpdatedAll(db, [Touch(first, None), Touch(second, None)]) == Touched(db, {first, second}, None)
  {
    assert [Touch(first, None), Touch(second, None)] == [] + [Touch(first, None)] + [Touch(second, None)];
    UpdatedAllConcat(db, [], Touch(first, None));
    UpdatedAllConcat(db, [] + [Touch(first, None)], Touch(second, None));
  }

  /** The loop that adds one `granted` edge per capability to the request. */
  method TouchEdges(
    given: seq<Update>, kind: ObjectType, user: string, party: string, capabilities: seq<string>, e: Option<int>,
    ghost db: Relationships) returns (updates: seq<Update>)
    ensures UpdatedAll(db, updates) == Touched(UpdatedAll(db, given), Edges(kind, user, party, capabilities), e)
  {
    updates := given;
    ghost var base := UpdatedAll(db, given);
    for i := 0 to |capabilities|
      invariant UpdatedAll(db, updates) == Touched(base, Edges(kind, user, party, capabilities[..i]), e)
    {
      var t := Edge(kind, user, party, capabilities[i]);
      EdgesOneMore(kind, user, party, capabilities, i);
      TouchOneMore(base, Edges(kind, user, party, capabilities[..i]), t, e);
      UpdatedAllConcat(db, updates, Touch(t, e));
      updates := updates + [Touch(t, e)];
    }
    assert capabilities[..|capabilities|] == capabilities;
  }

  lemma TouchOneMore(db: Relationships, ts: set<Tuple>, t: Tuple, e: Option<int>)
    ensures Touched(db, ts + {t}, e) == Touched(db, ts, e)[t := e]
  {
  }

  method RemoveEdges(kind: ObjectType, user: string, party: string, capabilities: seq<string>, ghost db: Relationships)
    returns (updates: seq<Update>)
    ensures UpdatedAll(db, updates) == db - Edges(kind, user, party, capabilities)
  {
    updates := [];
    for i := 0 to |capabilities|
      invariant UpdatedAll(db, updates) == db - Edges(kind, user, party, capabilities[..i])
    {
      var u := Remove(Edge(kind, user, party, capabilities[i]));
      EdgesOneMore(kind, user, party, capabilities, i);
      UpdatedAllConcat(db, updates, u);
      updates := updates + [u];
    }
    assert capabilities[..|capabilities|] == capabilities;
  }

  lemma EdgesOneMore(kind: ObjectType, user: string, party: string, capabilities: seq<string>, i: nat)
    requires i < |capabilities|
    ensures Edges(kind, user, party, capabilities[..i + 1])
         == Edges(kind, user, party, capabilities[..i]) + {Edge(kind, user, party, capabilities[i])}
  {
    assert capabilities[..i + 1] == capabilities[..i] + [capabilities[i]];
  }

  predicate HeldBy(byParty: map<string, seq<Held>>, party: string, held: Held) {
    party in byParty && held in byParty[party]
  }

  /** Some received relationship gives `held` to `party`. */
  predicate Received(stream: seq<Tuple>, db: Relationships, party: string, held: Held)
    requires forall t :: t in stream ==> t in db
  {
    exists t :: t in stream && PartyOf(t.resource.id) == party && held == Held(t.subject.id, db[t])
  }

  lemma ReceivedOneMore(stream: seq<Tuple>, db: Relationships, t: Tuple, party: string, held: Held)
    requires t in db && forall s :: s in stream ==> s in db
    ensures Received(stream + [t], db, party, held)
       <==> Received(stream, db, party, held) || (PartyOf(t.resource.id) == party && held == Held(t.subject.id, db[t]))
  {
    if s :| s in stream && PartyOf(s.resource.id) == party && held == Held(s.subject.id, db[s]) {
      assert s in stream + [t];
    }
    assert t in stream + [t];
  }

  /** The receive loop: each relationship joins its party's list. */
  method Group(stream: seq<Tuple>, db: Relationships) returns (byParty: map<string, seq<Held>>)
    requires forall t :: t in stream ==> t in db
    ensures forall party, held :: HeldBy(byParty, party, held) <==> Received(stream, db, party, held)
  {
    byParty := map[];
    for i := 0 to |stream|
      invariant forall party, held :: HeldBy(byParty, party, held) <==> Received(stream[..i], db, party, held)
    {
      var t := stream[i];
      var p := ApplicationOf(t.resource.id);
      var h := Held(t.subject.id, db[t]);
      ghost var was := byParty;
      byParty := byParty[p := (if p in byParty then byParty[p] else []) + [h]];
      assert stream[..i + 1] == stream[..i] + [t];
      forall party, held ensures HeldBy(byParty, party, held) <==> Received(stream[..i + 1], db, party, held) {
        ReceivedOneMore(stream[..i], db, t, party, held);
        assert HeldBy(byParty, party, held) <==> HeldBy(was, party, held) || (party == p && held == h);
      }
    }
    assert stream[..|stream|] == stream;
  }

  method Flatten(byParty: map<string, seq<Held>>) returns (listings: seq<Listing>)
    ensures forall party, held :: Shown(listings, party, held) <==> HeldBy(byParty, party, held)
    ensures forall i, j :: 0 <= i < j < |listings| ==> listings[i].party != listings[j].party
  {
    listings := [];
    var left := byParty.Keys;
    while left != {}
      invariant left <= byParty.Keys
      invariant forall i :: 0 <= i < |listings| ==>
                  listings[i].party in byParty && listings[i].party !in left
                  && listings[i].held == byParty[listings[i].party]
      invariant forall p :: p in byParty && p !in left ==> exists i :: 0 <= i < |listings| && listings[i].party == p
      invariant forall i, j :: 0 <= i < j < |listings| ==> listings[i].party != listings[j].party
      decreases left
    {
      var p :| p in left;
      ghost var before := listings;
      listings := listings + [Listing(p, byParty[p])];
      left := left - {p};
      forall q | q in byParty && q !in left ensures exists i :: 0 <= i < |listings| && listings[i].party == q {
        if q == p {
          assert listings[|before|].party == q;
        } else {
          var i :| 0 <= i < |before| && before[i].party == q;
          assert listings[i].party == q;
        }
      }
    }
  }
}
