/**
 Small valid configurations and requests, for the lemmas that show an input on which
 a promise fails.
 */
module Samples {
  import opened Config

  const PORTAL: App := App("portal", "secret", [], true)

  /** A loaded document: everything the loader asks for, one application, these agents and rules. */
  function Sample(agents: seq<AgentEntry>, rules: seq<Rule>): Config {
    Config("https://id", "http://id", Cookie("sid", HOUR, MINUTE), "store", SECOND,
           [PORTAL], map[], agents, "DENY", rules)
  }

  lemma SampleValid(agents: seq<AgentEntry>, rules: seq<Rule>)
    requires rules != [] && IdsDistinct(rules)
    requires forall i :: 0 <= i < |rules| ==> RuleValid(rules[i]) && RuleDefaults(rules[i]) == rules[i]
    ensures Valid(Sample(agents, rules)) && Normalised(Sample(agents, rules)) == Sample(agents, rules)
  {
    assert AllHosts([PORTAL]) == [] by {
      assert [PORTAL][..0] == [] && AllHosts([]) == [] && PORTAL.hosts == [];
    }
    assert Normalised(Sample(agents, rules)).rules == rules;
  }
}
