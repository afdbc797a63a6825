/**
 The client of the permission backend: answers in the order of the questions, and a
 freshness floor taken from the last revision it saw. Calls may overlap.
 */
module Freshness {
  import opened Wrappers
  import opened Schema

  // ---- the client ------------------------------------------------------------------------

  datatype Requirement = FullyConsistentRead | AtLeastAsFresh(token: string)

  datatype Permissionship = HasPermission | ConditionalPermission | NoPermission | Unspecified

  datatype Pair = Item(permissionship: Permissionship) | ItemError

  datatype Reply = Unreachable | Replied(checkedAt: string, pairs: seq<Pair>)

  class Client {
    /** The most recent token observed; empty before the first. */
    var lastSeen: string

    constructor ()
      ensures lastSeen == ""
    {
      lastSeen := "";
    }

    method Observe(token: string)
      modifies this
      ensures lastSeen == if token == "" then old(lastSeen) else token
    {
      if token == "" {
        return;
      }
      lastSeen := token;
    }

    /** The floor is used only when there is one and the caller does not ask for more. */
    method Consistency(full: bool) returns (c: Requirement)
      ensures c == if full || lastSeen == "" then FullyConsistentRead else AtLeastAsFresh(lastSeen)
    {
      if !full {
        var tok := lastSeen;
        if tok != "" {
          return AtLeastAsFresh(tok);
        }
      }
      return FullyConsistentRead;
    }

    /**
     One round trip. Every answer is the answer to the question in its place; a reply of
     the wrong length or with any item in error answers nothing, but its token is kept.
     */
    method CheckBulk(full: bool, queries: seq<Query>, backend: (Requirement, seq<Query>) -> Reply)
      returns (answers: Option<seq<Outcome>>)
      modifies this
      ensures queries == [] ==> answers == Some([]) && lastSeen == old(lastSeen)
      ensures queries != [] ==>
                var floor := old(lastSeen);
                var wanted := if full || floor == "" then FullyConsistentRead else AtLeastAsFresh(floor);
                Relays(queries, backend(wanted, queries), answers)
                && lastSeen == if backend(wanted, queries).Replied? && backend(wanted, queries).checkedAt != ""
                               then backend(wanted, queries).checkedAt else old(lastSeen)
    {
      if |queries| == 0 {
        return Some([]);
      }
      var items: seq<Query> := [];
      for i := 0 to |queries|
        invariant items == queries[..i]
      {
        items := items + [Query(queries[i].resource, queries[i].permission, queries[i].subject)];
      }
      assert items == queries;
      var wanted := Consistency(full);
      var resp := backend(wanted, items);
      if resp.Unreachable? {
        return None;
      }
      Observe(resp.checkedAt);
      answers := Translate(resp.pairs, |queries|);
    }

    /** Fills the outcomes in order; any error answers nothing. */
    method Translate(pairs: seq<Pair>, expected: nat) returns (answers: Option<seq<Outcome>>)
      ensures answers.Some? <==> |pairs| == expected && forall i :: 0 <= i < |pairs| ==> pairs[i].Item?
      ensures answers.Some? ==> |answers.value| == |pairs|
      ensures answers.Some? ==> forall i :: 0 <= i < |pairs| ==> Means(pairs[i].permissionship, answers.value[i])
    {
      if |pairs| != expected {
        return None;
      }
      var out := new Outcome[|pairs|](_ => Denied);
      for i := 0 to |pairs|
        invariant forall k :: 0 <= k < i ==> pairs[k].Item? && Means(pairs[k].permissionship, out[k])
      {
        if pairs[i].ItemError? {
          return None;
        }
        match pairs[i].permissionship
        case HasPermission => out[i] := Permitted;
        case ConditionalPermission => out[i] := Conditional;
        case _ => out[i] := Denied;
      }
      return Some(out[..]);
    }
  }

  /** Only a plain "has permission" is a yes, and only a conditional one is conditional. */
  predicate Means(p: Permissionship, o: Outcome) {
    && (o == Permitted <==> p == HasPermission)
    && (o == Conditional <==> p == ConditionalPermission)
  }

  /** The answers are the reply's, one for one and in order, or none at all. */
  predicate Relays(queries: seq<Query>, reply: Reply, answers: Option<seq<Outcome>>) {
    && (answers.Some? <==>
          reply.Replied? && |reply.pairs| == |queries| && forall i :: 0 <= i < |reply.pairs| ==> reply.pairs[i].Item?)
    && (answers.Some? ==>
          && |answers.value| == |queries|
          && forall i :: 0 <= i < |queries| ==> Means(reply.pairs[i].permissionship, answers.value[i]))
  }

  // ---- overlapping calls -----------------------------------------------------------------------

  /** A call in flight: sent, answered at a revision, observed; or given up. */
  datatype Phase = Sent | Evaluated(revision: nat) | Seen(revision: nat) | GaveUp

  /** `floor` is what the call read when it began; `born` is the newest revision there was then. */
  datatype Call = Call(floor: Option<nat>, born: nat, phase: Phase)

  /** A token stands for the revision it names; `head` is the backend's newest. */
  datatype State = State(head: nat, lastSeen: Option<nat>, calls: map<nat, Call>)

  datatype Event =
    | Commit
    | Begin(call: nat, full: bool)
    | Evaluate(call: nat, revision: nat)
    | Observe(call: nat)
    | GiveUp(call: nat)

  /** What the backend may answer at: the newest revision without a floor, any from the floor on with one. */
  predicate Permissible(floor: Option<nat>, head: nat, revision: nat) {
    match floor
    case None => revision == head
    case Some(f) => f <= revision <= head
  }

  predicate Enabled(s: State, e: Event) {
    match e
    case Commit => true
    case Begin(id, _) => id !in s.calls
    case Evaluate(id, r) => id in s.calls && s.calls[id].phase == Sent && Permissible(s.calls[id].floor, s.head, r)
    case Observe(id) => id in s.calls && s.calls[id].phase.Evaluated?
    case GiveUp(id) => id in s.calls && (s.calls[id].phase == Sent || s.calls[id].phase.Evaluated?)
  }

  /** `Observe` overwrites the floor without comparing. */
  function Next(s: State, e: Event): State
    requires Enabled(s, e)
  {
    match e
    case Commit => s.(head := s.head + 1)
    case Begin(id, full) => s.(calls := s.calls[id := Call(if full then None else s.lastSeen, s.head, Sent)])
    case Evaluate(id, r) => s.(calls := s.calls[id := s.calls[id].(phase := Evaluated(r))])
    case Observe(id) =>
      var r := s.calls[id].phase.revision;
      s.(lastSeen := Some(r), calls := s.calls[id := s.calls[id].(phase := Seen(r))])
    case GiveUp(id) => s.(calls := s.calls[id := s.calls[id].(phase := GaveUp)])
  }

  ghost predicate Follows(events: seq<Event>, states: seq<State>, i: nat)
    requires i < |events| && |states| == |events| + 1
  {
    Enabled(states[i], events[i]) && states[i + 1] == Next(states[i], events[i])
  }

  ghost predicate IsRun(events: seq<Event>, states: seq<State>) {
    && |states| == |events| + 1
    && states[0].lastSeen == None && states[0].calls == map[]
    && forall i :: 0 <= i < |events| ==> Follows(events, states, i)
  }

  function RevisionOf(c: Call): Option<nat> {
    if c.phase.Evaluated? || c.phase.Seen? then Some(c.phase.revision) else None
  }

  /** No call is answered below its floor, nor below the newest revision at its start when it had none. */
  ghost predicate Bounded(s: State, c: Call) {
    && c.born <= s.head
    && (c.floor.Some? ==> c.floor.value <= c.born)
    && (RevisionOf(c).Some? ==> (if c.floor.Some? then c.floor.value else c.born) <= RevisionOf(c).value <= s.head)
  }

  /** The floor is a revision some call observed; every answer respects its own floor. */
  ghost predicate Sound(s: State) {
    && (forall id :: id in s.calls ==> Bounded(s, s.calls[id]))
    && (s.lastSeen.Some? ==> exists id :: id in s.calls && s.calls[id].phase == Seen(s.lastSeen.value))
    && (s.lastSeen == None ==> forall id :: id in s.calls ==> s.calls[id].floor == None && !s.calls[id].phase.Seen?)
  }

  lemma NextSound(s: State, e: Event)
    requires Sound(s) && Enabled(s, e)
    ensures Sound(Next(s, e))
  {
    var n := Next(s, e);
    if n.lastSeen.Some? {
      if e.Observe? {
        assert n.calls[e.call].phase == Seen(n.lastSeen.value);
      } else {
        var id :| id in s.calls && s.calls[id].phase == Seen(s.lastSeen.value);
        assert n.calls[id].phase == Seen(n.lastSeen.value);
      }
    }
  }

  lemma {:induction false} RunsAreSound(events: seq<Event>, states: seq<State>, k: nat)
    requires IsRun(events, states) && k <= |events|
    ensures Sound(states[k])
  {
    if k > 0 {
      RunsAreSound(events, states, k - 1);
      assert Follows(events, states, k - 1);
      NextSound(states[k - 1], events[k - 1]);
    }
  }

  /** What never changes about a call: its start, and its answer once it has one. */
  lemma {:induction false} CallsKeep(events: seq<Event>, states: seq<State>, i: nat, k: nat, id: nat)
    requires IsRun(events, states) && i <= k <= |events| && id in states[i].calls
    ensures states[i].head <= states[k].head
    ensures id in states[k].calls
    ensures states[k].calls[id].floor == states[i].calls[id].floor
    ensures states[k].calls[id].born == states[i].calls[id].born
    ensures states[i].calls[id].phase.Seen? ==> states[k].calls[id].phase == states[i].calls[id].phase
  {
    if i < k {
      CallsKeep(events, states, i, k - 1, id);
      assert Follows(events, states, k - 1);
    }
  }

  /** The oldest revision a call begun in this state may be answered at: the newest, or the floor when it takes one. */
  function OldestAllowed(s: State, full: bool): nat {
    if full || s.lastSeen == None then s.head else s.lastSeen.value
  }

  /** A call is answered at no revision older than that, nor newer than the newest. */
  lemma AnswersNoOlder(events: seq<Event>, states: seq<State>, b: nat, t: nat, id: nat, full: bool)
    requires IsRun(events, states) && b < t <= |events| && events[b] == Begin(id, full)
    ensures id in states[t].calls
    ensures RevisionOf(states[t].calls[id]).Some? ==>
              OldestAllowed(states[b], full) <= RevisionOf(states[t].calls[id]).value <= states[t].head
  {
    assert Follows(events, states, b);
    RunsAreSound(events, states, t);
    CallsKeep(events, states, b + 1, t, id);
    assert Bounded(states[t], states[t].calls[id]);
  }

  /** And every revision in between is one it may be answered at, unless it must be the newest. */
  lemma AnswersAnyAllowed(s: State, id: nat, full: bool, revision: nat)
    requires id !in s.calls
    ensures var begun := Next(s, Begin(id, full));
            Enabled(begun, Evaluate(id, revision))
            <==> (if full || s.lastSeen == None then revision == s.head
                  else s.lastSeen.value <= revision <= s.head)
  {
  }

  /** Between `i`'s observation and `t`, only calls begun after that observation observe. */
  ghost predicate Undisturbed(events: seq<Event>, o: nat, t: nat)
    requires t <= |events|
  {
    forall m, id :: o < m < t && events[m] == Observe(id) ==>
                      exists b, full :: o < b < m && events[b] == Begin(id, full)
  }

  /** While undisturbed, the floor stays at or above what was observed. */
  lemma {:induction false} FloorHolds(events: seq<Event>, states: seq<State>, o: nat, t: nat, id: nat)
    requires IsRun(events, states) && o < t <= |events|
    requires events[o] == Observe(id) && Undisturbed(events, o, t)
    ensures id in states[t].calls && states[t].calls[id].phase.Seen?
    ensures states[t].lastSeen.Some? && states[t].calls[id].phase.revision <= states[t].lastSeen.value
    decreases t, 0
  {
    assert Follows(events, states, o);
    if t > o + 1 {
      FloorHolds(events, states, o, t - 1, id);
      assert Follows(events, states, t - 1);
      CallsKeep(events, states, o + 1, t - 1, id);
      CallsKeep(events, states, o + 1, t, id);
      if events[t - 1].Observe? {
        var other := events[t - 1].call;
        var b, full :| o < b < t - 1 && events[b] == Begin(other, full);
        BegunAfterIsFresh(events, states, o, b, t - 1, id, other, full);
      }
    }
  }

  /** A call begun after an observation, with nothing older observed in between, is answered no earlier. */
  lemma {:induction false} BegunAfterIsFresh(
    events: seq<Event>, states: seq<State>, o: nat, b: nat, t: nat, id: nat, later: nat, full: bool)
    requires IsRun(events, states) && o < b < t <= |events|
    requires events[o] == Observe(id) && events[b] == Begin(later, full) && Undisturbed(events, o, b)
    ensures id in states[t].calls && states[t].calls[id].phase.Seen?
    ensures later in states[t].calls
    ensures RevisionOf(states[t].calls[later]).Some? ==>
              states[t].calls[id].phase.revision <= RevisionOf(states[t].calls[later]).value
    decreases b, 1
  {
    FloorHolds(events, states, o, b, id);
    assert Follows(events, states, b);
    RunsAreSound(events, states, b);
    RunsAreSound(events, states, t);
    CallsKeep(events, states, b, t, id);
    CallsKeep(events, states, b + 1, t, later);
  }

  /** No call observes across another's observation. */
  ghost predicate NonOverlapping(events: seq<Event>) {
    forall o, m, i, j :: 0 <= o < m < |events| && events[o] == Observe(i) && events[m] == Observe(j) ==>
                           exists b, full :: o < b < m && events[b] == Begin(j, full)
  }

  /** With no overlap, a call begun after an observation is never answered at an older revision. */
  lemma NonOverlappingNeverDecreases(
    events: seq<Event>, states: seq<State>, o: nat, b: nat, t: nat, id: nat, later: nat, full: bool)
    requires IsRun(events, states) && NonOverlapping(events) && o < b < t <= |events|
    requires events[o] == Observe(id) && events[b] == Begin(later, full)
    ensures id in states[t].calls && states[t].calls[id].phase.Seen? && later in states[t].calls
    ensures RevisionOf(states[t].calls[later]).Some? ==>
              states[t].calls[id].phase.revision <= RevisionOf(states[t].calls[later]).value
  {
    BegunAfterIsFresh(events, states, o, b, t, id, later, full);
  }

  /** The floor a call begun now would take. */
  function FloorNow(s: State, full: bool): Option<nat> {
    if full then None else s.lastSeen
  }

  /** A call begun now can be answered below `r` exactly when it takes the floor and the floor is below `r`. */
  lemma NextAnswerRegressesExactly(s: State, full: bool, r: nat)
    requires Sound(s) && exists id :: id in s.calls && s.calls[id].phase == Seen(r)
    ensures (exists revision: nat :: Permissible(FloorNow(s, full), s.head, revision) && revision < r)
       <==> !full && s.lastSeen.Some? && s.lastSeen.value < r
  {
    if !full && s.lastSeen.Some? && s.lastSeen.value < r {
      var id :| id in s.calls && s.calls[id].phase == Seen(s.lastSeen.value);
      assert Bounded(s, s.calls[id]);
      assert Permissible(FloorNow(s, full), s.head, s.lastSeen.value);
    }
    var seen :| seen in s.calls && s.calls[seen].phase == Seen(r);
    assert Bounded(s, s.calls[seen]);
  }

  /** Calls 0 and 1 overlap; call 0 observes last, and call 2 is answered below what call 1 saw. */
  lemma OverlapRegresses() returns (events: seq<Event>, states: seq<State>)
    ensures IsRun(events, states)
    ensures |events| == 9 && events[5] == Observe(1) && events[7] == Begin(2, false)
    ensures states[9].calls.Keys == {0, 1, 2}
    ensures states[9].calls[1].phase == Seen(2) && states[9].calls[2].phase == Evaluated(1)
  {
    events := [Begin(0, false), Evaluate(0, 1), Commit, Begin(1, false), Evaluate(1, 2), Observe(1), Observe(0),
               Begin(2, false), Evaluate(2, 1)];
    var a, b, c := Call(None, 1, Sent), Call(None, 2, Sent), Call(Some(1), 2, Evaluated(1));
    var aDone, bDone := a.(phase := Seen(1)), b.(phase := Seen(2));
    var aHeld := a.(phase := Evaluated(1));
    states := [State(1, None, map[]),
               State(1, None, map[0 := a]),
               State(1, None, map[0 := aHeld]),
               State(2, None, map[0 := aHeld]),
               State(2, None, map[0 := aHeld, 1 := b]),
               State(2, None, map[0 := aHeld, 1 := b.(phase := Evaluated(2))]),
               State(2, Some(2), map[0 := aHeld, 1 := bDone]),
               State(2, Some(1), map[0 := aDone, 1 := bDone]),
               State(2, Some(1), map[0 := aDone, 1 := bDone, 2 := c.(phase := Sent)]),
               State(2, Some(1), map[0 := aDone, 1 := bDone, 2 := c])];
    assert forall i :: 0 <= i < 4 ==> Follows(events, states, i);
    assert forall i :: 4 <= i < 9 ==> Follows(events, states, i);
  }
}
