/**
 Requests in flight while configurations are swapped: each runs stage by stage over the
 snapshot it loaded when it started, with polls and other requests between any two stages.
 */
module InFlight {
  import opened Wrappers
  import opened Config
  import opened Routes
  import opened Schema
  import opened Decision
  import opened Policy
  import opened Reload

  /** How far a request has come. `Replied` holds the questions and answers not yet looked at. */
  datatype Stage =
    | Loaded
    | Matched(found: Option<(Compiled, Params)>)
    | Identified(found: Option<(Compiled, Params)>, id: Identity, ops: seq<StoreOp>)
    | Cleared(rule: Rule, resource: string, id: Identity, ops: seq<StoreOp>)
    | Replied(plan: seq<Question>, answers: seq<Outcome>, id: Identity, ops: seq<StoreOp>)
    | Finished(ruling: Ruling, ops: seq<StoreOp>)

  datatype Flight = Flight(snapshot: Serving, r: HttpRequest, w: World, stage: Stage)

  /** The login endpoints answer at once; every other request is matched. */
  function FromLoaded(s: Serving, r: HttpRequest, w: World): Stage {
    if PathOnly(r.path) == CALLBACK then
      var (response, ops) := HandleCallback(s.config, r, w);
      Finished(Answered(response), ops)
    else if PathOnly(r.path) == LOGOUT then
      var (response, ops) := HandleLogout(s.config, r, w);
      Finished(Answered(response), ops)
    else Matched(FirstMatch(s.table, r.host, r.verb, r.path))
  }

  /** A public rule permits before anybody is identified. */
  function FromMatched(s: Serving, r: HttpRequest, w: World, found: Option<(Compiled, Params)>): Stage {
    if found.Some? && found.value.0.rule.isPublic then Finished(Answered(Permit(map[])), [])
    else
      var (identified, ops) := Identify(s.config, r, ModeOf(found), w);
      match identified
      case Stopped(response) => Finished(Answered(response), ops)
      case Known(id) => Identified(found, id, ops)
  }

  /** The gates before the backend is asked. */
  function FromIdentified(
    s: Serving, r: HttpRequest, found: Option<(Compiled, Params)>, id: Identity, ops: seq<StoreOp>): Stage
  {
    if ActorBinding(s.config, r.source, id).Some? then
      Finished(Answered(ActorBinding(s.config, r.source, id).value), ops)
    else if found.None? then Finished(Answered(Refuse(403, NoRouteMatch)), ops)
    else
      var rule, params := found.value.0.rule, found.value.1;
      if CheckWorkload(rule, r.source).Some? then Finished(Answered(CheckWorkload(rule, r.source).value), ops)
      else if rule.authenticatedOnly then Finished(Answered(Permit(UpstreamHeaders(id))), ops)
      else if StepUpGate(rule, id).Some? then Finished(Answered(StepUpGate(rule, id).value), ops)
      else
        match ResolveResource(rule, params, id.subject)
        case None => Finished(Answered(Refuse(403, InternalError)), ops)
        case Some(resource) => Cleared(rule, resource, id, ops)
  }

  /** The plan is built and put to the backend. */
  function FromCleared(s: Serving, w: World, rule: Rule, resource: string, id: Identity, ops: seq<StoreOp>): Stage {
    var plan := Plan(s.config, rule, resource, id);
    match w.checkBulk(rule.consistency == FullyConsistent, QueriesOf(plan))
    case None => Finished(Answered(Refuse(403, BackendUnavailable)), ops)
    case Some(answers) => Replied(plan, answers, id, ops)
  }

  /** One turn of the loop over answers. */
  function FromReplied(plan: seq<Question>, answers: seq<Outcome>, id: Identity, ops: seq<StoreOp>): Stage {
    if plan == [] then Finished(Answered(Permit(UpstreamHeaders(id))), ops)
    else if answers == [] then Finished(Panicked, ops)
    else
      match Classify(answers[0], plan[0])
      case Some(refusal) => Finished(Answered(refusal), ops)
      case None => Replied(plan[1..], answers[1..], id, ops)
  }

  function Advanced(f: Flight): Flight
    requires !f.stage.Finished?
  {
    f.(stage :=
         match f.stage
         case Loaded => FromLoaded(f.snapshot, f.r, f.w)
         case Matched(found) => FromMatched(f.snapshot, f.r, f.w, found)
         case Identified(found, id, ops) => FromIdentified(f.snapshot, f.r, found, id, ops)
         case Cleared(rule, resource, id, ops) => FromCleared(f.snapshot, f.w, rule, resource, id, ops)
         case Replied(plan, answers, id, ops) => FromReplied(plan, answers, id, ops))
  }

  /** What the rest of the run will decide. */
  function Outlook(f: Flight): (Ruling, seq<StoreOp>) {
    match f.stage
    case Loaded => Decide(f.snapshot.config, f.snapshot.table, f.r, f.w)
    case Matched(found) => DecideFound(f.snapshot.config, found, f.r, f.w)
    case Identified(found, id, ops) => (DecideFor(f.snapshot.config, found, f.r, id, f.w), ops)
    case Cleared(rule, resource, id, ops) => (Ask(f.snapshot.config, rule, resource, id, f.w), ops)
    case Replied(plan, answers, id, ops) => (Scan(plan, answers, id), ops)
    case Finished(ruling, ops) => (ruling, ops)
  }

  lemma LoadedKeepsOutlook(s: Serving, r: HttpRequest, w: World)
    ensures Outlook(Flight(s, r, w, FromLoaded(s, r, w))) == Decide(s.config, s.table, r, w)
  {
  }

  lemma MatchedKeepsOutlook(s: Serving, r: HttpRequest, w: World, found: Option<(Compiled, Params)>)
    ensures Outlook(Flight(s, r, w, FromMatched(s, r, w, found))) == DecideFound(s.config, found, r, w)
  {
  }

  lemma IdentifiedKeepsOutlook(
    s: Serving, r: HttpRequest, w: World, found: Option<(Compiled, Params)>, id: Identity, ops: seq<StoreOp>)
    ensures Outlook(Flight(s, r, w, FromIdentified(s, r, found, id, ops)))
       == (DecideFor(s.config, found, r, id, w), ops)
  {
  }

  /** One turn does not change what a request will decide. */
  lemma AdvancingKeepsOutlook(f: Flight)
    requires !f.stage.Finished?
    ensures Outlook(Advanced(f)) == Outlook(f)
  {
    match f.stage
    case Loaded => LoadedKeepsOutlook(f.snapshot, f.r, f.w);
    case Matched(found) => MatchedKeepsOutlook(f.snapshot, f.r, f.w, found);
    case Identified(found, id, ops) => IdentifiedKeepsOutlook(f.snapshot, f.r, f.w, found, id, ops);
    case Cleared(_, _, _, _) =>
    case Replied(_, _, _, _) =>
  }

  /** How many turns a request can still take. */
  function TurnsLeft(f: Flight): nat {
    match f.stage
    case Loaded => 8
    case Matched(_) => 7
    case Identified(_, _, _) => 6
    case Cleared(_, _, _, _) => 5
    case Replied(plan, _, _, _) => |plan| + 1
    case Finished(_, _) => 0
  }

  lemma AdvancingTakesATurn(f: Flight)
    requires !f.stage.Finished?
    ensures TurnsLeft(Advanced(f)) < TurnsLeft(f)
  {
  }

  // ---- interleaved with polls ----------------------------------------------------------------

  datatype Event =
    | Poll(reading: Reading)
    | Arrive(request: nat, r: HttpRequest, w: World)
    | Advance(request: nat)

  /** A request loads the serving snapshot once, when it arrives. */
  datatype State = State(watched: Watched, flights: map<nat, Flight>)

  ghost predicate Enabled(s: State, e: Event) {
    match e
    case Poll(_) => true
    case Arrive(id, _, _) => id !in s.flights
    case Advance(id) => id in s.flights && !s.flights[id].stage.Finished?
  }

  ghost function Next(s: State, e: Event, src: Source): State
    requires Enabled(s, e)
  {
    match e
    case Poll(reading) => s.(watched := Ticked(s.watched, reading, src))
    case Arrive(id, r, w) => s.(flights := s.flights[id := Flight(s.watched.serving, r, w, Loaded)])
    case Advance(id) => s.(flights := s.flights[id := Advanced(s.flights[id])])
  }

  ghost predicate Follows(events: seq<Event>, states: seq<State>, src: Source, i: nat)
    requires i < |events| && |states| == |events| + 1
  {
    Enabled(states[i], events[i]) && states[i + 1] == Next(states[i], events[i], src)
  }

  /** No request is in flight at the start. */
  ghost predicate IsRun(events: seq<Event>, states: seq<State>, src: Source) {
    && |states| == |events| + 1
    && states[0].flights == map[]
    && forall i :: 0 <= i < |events| ==> Follows(events, states, src, i)
  }

  /** The tick `e` loaded what `s` is. */
  ghost predicate LoadedBy(e: Event, s: Serving, src: Source) {
    e.Poll? && Usable(e.reading.second, src) && s == Installed(Reload.Loaded(e.reading.second, src).value)
  }

  lemma StepLoads(events: seq<Event>, states: seq<State>, src: Source, k: nat)
    requires IsRun(events, states, src) && k < |events|
    ensures states[k + 1].watched.serving == states[k].watched.serving
            || LoadedBy(events[k], states[k + 1].watched.serving, src)
  {
    assert Follows(events, states, src, k);
  }

  /** What serves is what the process started with, or a usable document some tick loaded. */
  lemma {:induction false} ServedWasLoaded(events: seq<Event>, states: seq<State>, src: Source, k: nat)
    requires IsRun(events, states, src) && k <= |events|
    ensures || states[k].watched.serving == states[0].watched.serving
            || exists a :: 0 <= a < k && LoadedBy(events[a], states[k].watched.serving, src)
  {
    if k > 0 {
      StepLoads(events, states, src, k - 1);
      if states[k].watched.serving == states[k - 1].watched.serving {
        ServedWasLoaded(events, states, src, k - 1);
      }
    }
  }

  /** Under any interleaving, only documents that validated and compiled ever serve. */
  lemma OnlySoundServes(events: seq<Event>, states: seq<State>, src: Source, k: nat)
    requires IsRun(events, states, src) && k <= |events| && Sound(states[0].watched.serving, src)
    ensures Sound(states[k].watched.serving, src)
  {
    ServedWasLoaded(events, states, src, k);
    if states[k].watched.serving != states[0].watched.serving {
      var a :| 0 <= a < k && LoadedBy(events[a], states[k].watched.serving, src);
      InstalledIsSound(events[a].reading.second, src);
    }
  }

  /** The request `f` arrived at step `a`, and what is left of it decides what its snapshot decides. */
  ghost predicate OnCourse(events: seq<Event>, states: seq<State>, a: nat, id: nat, f: Flight)
    requires a < |events| < |states|
  {
    && events[a] == Arrive(id, f.r, f.w)
    && f.snapshot == states[a].watched.serving
    && Outlook(f) == Decide(f.snapshot.config, f.snapshot.table, f.r, f.w)
  }

  /** Whatever is installed between its stages, a request stays on the course its own snapshot set. */
  lemma {:induction false} FlightsStayOnCourse(
    events: seq<Event>, states: seq<State>, src: Source, k: nat, id: nat) returns (a: nat)
    requires IsRun(events, states, src) && k <= |events| && id in states[k].flights
    ensures a < k && OnCourse(events, states, a, id, states[k].flights[id])
  {
    assert Follows(events, states, src, k - 1);
    if id !in states[k - 1].flights {
      a := k - 1;
    } else {
      a := FlightsStayOnCourse(events, states, src, k - 1, id);
      if events[k - 1] == Advance(id) {
        AdvancingKeepsOutlook(states[k - 1].flights[id]);
      }
    }
  }

  /**
   A request that finishes, with any number of reloads and other requests between its
   stages, has the ruling and the session writes of the single configuration that served
   when it arrived.
   */
  lemma FinishedUnderOneConfiguration(events: seq<Event>, states: seq<State>, src: Source, k: nat, id: nat)
    returns (a: nat)
    requires IsRun(events, states, src) && k <= |events|
    requires id in states[k].flights && states[k].flights[id].stage.Finished?
    ensures a < k && events[a] == Arrive(id, states[k].flights[id].r, states[k].flights[id].w)
    ensures var f, s := states[k].flights[id], states[a].watched.serving;
            (f.stage.ruling, f.stage.ops) == Decide(s.config, s.table, f.r, f.w)
  {
    a := FlightsStayOnCourse(events, states, src, k, id);
  }

  lemma RulingIsPolicy(
    cfg: Config, table: seq<Compiled>, r: HttpRequest, w: World, ruling: Ruling, headers: map<string, string>)
    requires Compiles(cfg.rules, table) && ruling == Decide(cfg, table, r, w).0
    ensures Permits(ruling, headers) <==> Allows(cfg, table, r, w, headers)
  {
    PermitsExactlyPolicy(cfg, table, r, w, headers);
  }

  /** And that configuration was validated and compiled, and the ruling is its policy. */
  lemma FinishedByPolicy(
    events: seq<Event>, states: seq<State>, src: Source, k: nat, id: nat, headers: map<string, string>)
    returns (s: Serving)
    requires IsRun(events, states, src) && Sound(states[0].watched.serving, src) && k <= |events|
    requires id in states[k].flights && states[k].flights[id].stage.Finished?
    ensures exists a :: 0 <= a < k && s == states[a].watched.serving
    ensures Sound(s, src)
    ensures var f := states[k].flights[id];
            Permits(f.stage.ruling, headers) <==> Allows(s.config, s.table, f.r, f.w, headers)
  {
    var a := FinishedUnderOneConfiguration(events, states, src, k, id);
    OnlySoundServes(events, states, src, a);
    s := states[a].watched.serving;
    var f := states[k].flights[id];
    RulingIsPolicy(s.config, s.table, f.r, f.w, f.stage.ruling, headers);
  }
}
