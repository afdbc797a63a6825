/**
 Hot reload: a polling loop that swaps in a configuration which validates and
 compiles, and which edits of the file it misses.
 */
module Reload {
  import opened Wrappers
  import opened Config
  import opened Routes
  import opened TableOrder
  import opened Pipeline
  import opened Patterns
  import opened Samples

  /** One tick reads the file twice: for its fingerprint, then to load it. A read may fail. */
  datatype Reading = Reading(first: Option<string>, second: Option<string>)

  /** The hash and the document decoder, as arbitrary functions. */
  datatype Source = Source(digest: string -> string, decode: string -> Option<Config>)

  /** The configuration a reading yields: decoded and validated. */
  ghost function Loaded(raw: Option<string>, src: Source): Option<Config> {
    if raw.Some? && src.decode(raw.value).Some? && Valid(src.decode(raw.value).value)
    then Some(Normalised(src.decode(raw.value).value)) else None
  }

  /** A reading whose configuration also compiles. */
  ghost predicate Usable(raw: Option<string>, src: Source) {
    Loaded(raw, src).Some? && Installable(Loaded(raw, src).value.rules)
  }

  method Load(raw: Option<string>, src: Source) returns (config: Option<Config>)
    ensures config == Loaded(raw, src)
  {
    if raw.None? {
      return None;
    }
    var decoded := src.decode(raw.value);
    if decoded.None? {
      return None;
    }
    var document := new Document(decoded.value);
    var ok := document.Validate();
    if !ok {
      return None;
    }
    return Some(document.config);
  }

  /** What serves, as values: a configuration and the table compiled from it. */
  datatype Serving = Serving(config: Config, table: seq<Compiled>)

  ghost function Installed(config: Config): Serving
    requires Installable(config.rules)
  {
    Serving(config, StableSorted(CompileAll(config.rules).value))
  }

  datatype Watched = Watched(serving: Serving, last: string)

  /** One tick: nothing without a new fingerprint; then the new configuration if usable, the old one if not. */
  ghost function Ticked(s: Watched, reading: Reading, src: Source): Watched {
    if reading.first.None? || src.digest(reading.first.value) == s.last then s
    else
      Watched(if Usable(reading.second, src) then Installed(Loaded(reading.second, src).value) else s.serving,
              src.digest(reading.first.value))
  }

  ghost function TickedAll(s: Watched, readings: seq<Reading>, src: Source): Watched {
    if readings == [] then s
    else Ticked(TickedAll(s, readings[..|readings| - 1], src), readings[|readings| - 1], src)
  }

  class Watcher {
    const pipeline: Pipeline
    var last: string

    constructor (pipeline: Pipeline)
      ensures this.pipeline == pipeline
    {
      this.pipeline := pipeline;
      last := "";
    }

    ghost function Now(): Watched
      reads this, pipeline, pipeline.snapshot.table
    {
      Watched(Serving(pipeline.snapshot.config, pipeline.snapshot.table.rules), last)
    }

    method Tick(reading: Reading, src: Source)
      modifies this, pipeline
      ensures Now() == Ticked(old(Now()), reading, src)
      ensures fresh(pipeline.snapshot) || pipeline.snapshot == old(pipeline.snapshot)
    {
      if reading.first.None? {
        return;
      }
      var current := src.digest(reading.first.value);
      if current == last {
        return;
      }
      var config := Load(reading.second, src);
      if config.None? {
        last := current;
        return;
      }
      var snapshot := NewSnapshot(config.value);
      if snapshot.Err? {
        last := current;
        return;
      }
      pipeline.Swap(snapshot.value);
      last := current;
    }

    /** The loop, over any finite sequence of ticks; without a first fingerprint it never starts. */
    method Watch(initial: Option<string>, readings: seq<Reading>, src: Source)
      modifies this, pipeline
      ensures initial.None? ==> Now() == old(Now())
      ensures initial.Some? ==>
                Now() == TickedAll(old(Now()).(last := src.digest(initial.value)), readings, src)
    {
      if initial.None? {
        return;
      }
      last := src.digest(initial.value);
      ghost var start := Now();
      for i := 0 to |readings|
        invariant Now() == TickedAll(start, readings[..i], src)
      {
        Tick(readings[i], src);
        assert readings[..i + 1][..i] == readings[..i];
      }
      assert readings[..|readings|] == readings;
    }
  }

  // ---- what may serve, and what is missed ---------------------------------------------------

  /** Decoded from some document, validated, defaults filled in, and with the table its own rules compile to. */
  ghost predicate Sound(s: Serving, src: Source) {
    && Compiles(s.config.rules, s.table)
    && Valid(s.config) && Complete(s.config)
    && exists raw :: Loaded(raw, src) == Some(s.config)
  }

  lemma InstalledIsSound(raw: Option<string>, src: Source)
    requires Usable(raw, src)
    ensures Sound(Installed(Loaded(raw, src).value), src)
  {
    NormalisedIsFixpoint(src.decode(raw.value).value);
    NormalisedIsComplete(src.decode(raw.value).value);
  }

  /** Ticks that fail to read, or find the fingerprint they know, change nothing. */
  lemma {:induction false} QuietTicksKeep(s: Watched, readings: seq<Reading>, src: Source)
    requires forall i :: 0 <= i < |readings| ==>
                           readings[i].first.None? || src.digest(readings[i].first.value) == s.last
    ensures TickedAll(s, readings, src) == s
  {
    if readings != [] {
      QuietTicksKeep(s, readings[..|readings| - 1], src);
    }
  }

  /** Every tick finds the same document, at both reads. */
  predicate Settled(readings: seq<Reading>, document: string) {
    forall i :: 0 <= i < |readings| ==> readings[i] == Reading(Some(document), Some(document))
  }

  /** Of any number of ticks on a settled document only the first can do anything. */
  lemma {:induction false} SettledTicksOnce(s: Watched, readings: seq<Reading>, document: string, src: Source)
    requires readings != [] && Settled(readings, document)
    ensures TickedAll(s, readings, src) == Ticked(s, Reading(Some(document), Some(document)), src)
  {
    var front := readings[..|readings| - 1];
    if front == [] {
      assert TickedAll(s, front, src) == s;
    } else {
      SettledTicksOnce(s, front, document, src);
    }
  }

  /** What the loop would serve of a usable document. */
  ghost function ServingOf(document: string, src: Source): Serving
    requires Usable(Some(document), src)
  {
    Installed(Loaded(Some(document), src).value)
  }

  /**
   A usable edit that the file settles on is served in the end exactly when its fingerprint
   is not the last one read, or it serves already.
   */
  lemma SettledServesExactly(s: Watched, edit: string, later: seq<Reading>, src: Source)
    requires Usable(Some(edit), src) && later != [] && Settled(later, edit)
    ensures TickedAll(s, later, src).serving == ServingOf(edit, src)
       <==> src.digest(edit) != s.last || s.serving == ServingOf(edit, src)
  {
    SettledTicksOnce(s, later, edit, src);
  }

  /** The tick stops at its fingerprint: it could not read, or knows what it read. */
  predicate Quiet(s: Watched, tick: Reading, src: Source) {
    tick.first.None? || src.digest(tick.first.value) == s.last
  }

  /**
   The two reads of one tick may see different documents. The tick makes the loop miss the
   edit the file then settles on exactly when it leaves the edit's fingerprint behind
   without the edit serving: read now or known before, whether what was loaded in its
   place is unusable or another usable document.
   */
  lemma TornTickMissesExactly(s: Watched, torn: Reading, edit: string, later: seq<Reading>, src: Source)
    requires Usable(Some(edit), src) && later != [] && Settled(later, edit)
    ensures TickedAll(Ticked(s, torn, src), later, src).serving != ServingOf(edit, src)
       <==> if Quiet(s, torn, src) then
              src.digest(edit) == s.last && s.serving != ServingOf(edit, src)
            else
              && src.digest(edit) == src.digest(torn.first.value)
              && (if Usable(torn.second, src) then Loaded(torn.second, src) != Loaded(Some(edit), src)
                  else s.serving != ServingOf(edit, src))
  {
    SettledServesExactly(Ticked(s, torn, src), edit, later, src);
  }

  /** The loop's own first fingerprint misses an edit the process did not load, exactly when it already reads it. */
  lemma StartMissesExactly(s: Watched, initial: string, edit: string, later: seq<Reading>, src: Source)
    requires Usable(Some(edit), src) && later != [] && Settled(later, edit)
    ensures TickedAll(s.(last := src.digest(initial)), later, src).serving != ServingOf(edit, src)
       <==> src.digest(edit) == src.digest(initial) && s.serving != ServingOf(edit, src)
  {
    SettledServesExactly(s.(last := src.digest(initial)), edit, later, src);
  }

  /** Every text but the empty one decodes here, to a document of one page named after it; no hashes collide. */
  function NamedDocuments(): Source {
    Source(text => text, text => if text == "" then None else Some(NamedDocument(text)))
  }

  function NamedDocument(text: string): Config {
    Sample([], [Page(text, [], "/page")])
  }

  lemma NamedUsable(text: string)
    requires text != ""
    ensures Usable(Some(text), NamedDocuments()) && Loaded(Some(text), NamedDocuments()) == Some(NamedDocument(text))
  {
    var rule := Page(text, [], "/page");
    assert RuleValid(rule) && RuleDefaults(rule) == rule;
    SampleValid([], [rule]);
    StandsAlone(rule);
  }

  lemma StandsAlone(rule: Rule)
    requires rule.path == "/page" && rule.hosts == [] && rule.methods == []
    ensures Installable([rule])
  {
    assert "/page" == "/" + "page";
    SingleCompiles(rule, Literal("page"));
    OneRuleCompiles(rule);
  }

  /**
   Three ways to miss a usable edit for as long as the file stays as it is: an unusable
   document read after it, another usable one read after it, and a start that loaded an
   older document but fingerprinted the edit.
   */
  lemma EditsMissed(loaded: string, edit: string, other: string, later: seq<Reading>)
    requires loaded != "" && edit != "" && other != "" && loaded != edit && edit != other
    requires later != [] && Settled(later, edit)
    ensures Usable(Some(loaded), NamedDocuments()) && Usable(Some(edit), NamedDocuments())
    ensures var src := NamedDocuments();
            var s := Watched(ServingOf(loaded, src), src.digest(loaded));
            && TickedAll(Ticked(s, Reading(Some(edit), Some("")), src), later, src).serving != ServingOf(edit, src)
            && TickedAll(Ticked(s, Reading(Some(edit), Some(other)), src), later, src).serving != ServingOf(edit, src)
            && TickedAll(s.(last := src.digest(edit)), later, src).serving != ServingOf(edit, src)
  {
    var src := NamedDocuments();
    NamedUsable(loaded);
    NamedUsable(edit);
    NamedUsable(other);
    assert NamedDocument(loaded).rules[0].id == loaded && NamedDocument(edit).rules[0].id == edit;
    assert NamedDocument(other).rules[0].id == other;
    var s := Watched(ServingOf(loaded, src), src.digest(loaded));
    TornTickMissesExactly(s, Reading(Some(edit), Some("")), edit, later, src);
    TornTickMissesExactly(s, Reading(Some(edit), Some(other)), edit, later, src);
    StartMissesExactly(s, edit, edit, later, src);
  }
}
