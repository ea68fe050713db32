/** The request side of the decision stream (src/lapi_client.rs): the query
    options, their consuming builder, their JSON form with the scenario
    filters flattened into two sibling arrays, and the polling loop of
    `LapiClient::stream_decisions`.

    The fetch itself (`get_decisions`) is not modelled: the loop receives its
    outcome, and the clock readings around it, from the caller. The fetch
    never reads the options, so nothing here says that the options, or their
    `startup` flag, reach the request. */
module LapiClient {
  import opened Wrappers
  import opened Json
  import Types

  // ---------------------------------------------------------------------------
  // Options

  /** A scenario filter. It serialises untagged, as its bare string. */
  datatype ScenarioQueryOptions = Containing(scenario: string) | NotContaining(scenario: string)

  datatype DecisionsStreamOptions = DecisionsStreamOptions(
    startup: bool,
    scopes: seq<string>,
    origins: seq<string>,
    scenarios: seq<ScenarioQueryOptions>)

  /** `#[derive(Default)]`. */
  function DefaultOptions(): (o: DecisionsStreamOptions)
    ensures !o.startup && o.scopes == [] && o.origins == [] && o.scenarios == []
  {
    DecisionsStreamOptions(false, [], [], [])
  }

  // ---------------------------------------------------------------------------
  // Reference definition of the two scenario groups: a filter over the list

  /** The entries of `s` whose kind is `Containing` when `containing` holds,
      `NotContaining` otherwise, in their order in `s`. */
  function Select(s: seq<ScenarioQueryOptions>, containing: bool): seq<ScenarioQueryOptions> {
    if s == [] then []
    else (if s[0].Containing? == containing then [s[0]] else []) + Select(s[1..], containing)
  }

  /** The bare strings of a list of filters. */
  function Values(s: seq<ScenarioQueryOptions>): (r: seq<string>)
    ensures |r| == |s|
    ensures forall i :: 0 <= i < |s| ==> r[i] == s[i].scenario
  {
    seq(|s|, i requires 0 <= i < |s| => s[i].scenario)
  }

  lemma {:induction false} SelectMembership(s: seq<ScenarioQueryOptions>, containing: bool, e: ScenarioQueryOptions)
    ensures e in Select(s, containing) <==> e in s && e.Containing? == containing
  {
    if s != [] {
      SelectMembership(s[1..], containing, e);
      assert s == [s[0]] + s[1..];
    }
  }

  /** The two groups split the list: together they hold every entry exactly
      as often as the list does. */
  lemma {:induction false} SelectSplits(s: seq<ScenarioQueryOptions>)
    ensures |Select(s, true)| + |Select(s, false)| == |s|
    ensures multiset(Select(s, true)) + multiset(Select(s, false)) == multiset(s)
  {
    if s != [] {
      SelectSplits(s[1..]);
      assert s == [s[0]] + s[1..];
    }
  }

  lemma {:induction false} SelectAppend(s: seq<ScenarioQueryOptions>, e: ScenarioQueryOptions, containing: bool)
    ensures Select(s + [e], containing)
         == Select(s, containing) + (if e.Containing? == containing then [e] else [])
  {
    if s == [] {
      assert [e][1..] == [];
    } else {
      SelectAppend(s[1..], e, containing);
      assert (s + [e])[1..] == s[1..] + [e];
    }
  }

  // ---------------------------------------------------------------------------
  // serialize_scenarios

  /** `Iterator::partition` over the list: each entry, in order, is pushed
      onto the first accumulator if it is `Containing`, else onto the second. */
  function PartitionFrom(s: seq<ScenarioQueryOptions>, yes: seq<ScenarioQueryOptions>, no: seq<ScenarioQueryOptions>)
    : (seq<ScenarioQueryOptions>, seq<ScenarioQueryOptions>)
  {
    if s == [] then (yes, no)
    else if s[0].Containing? then PartitionFrom(s[1..], yes + [s[0]], no)
    else PartitionFrom(s[1..], yes, no + [s[0]])
  }

  lemma {:induction false} PartitionFromSelects(s: seq<ScenarioQueryOptions>, yes: seq<ScenarioQueryOptions>, no: seq<ScenarioQueryOptions>)
    ensures PartitionFrom(s, yes, no) == (yes + Select(s, true), no + Select(s, false))
  {
    if s != [] {
      var rest := s[1..];
      if s[0].Containing? {
        PartitionFromSelects(rest, yes + [s[0]], no);
        assert Select(s, true) == [s[0]] + Select(rest, true);
        assert Select(s, false) == Select(rest, false);
        assert yes + [s[0]] + Select(rest, true) == yes + ([s[0]] + Select(rest, true));
      } else {
        PartitionFromSelects(rest, yes, no + [s[0]]);
        assert Select(s, true) == Select(rest, true);
        assert Select(s, false) == [s[0]] + Select(rest, false);
        assert no + [s[0]] + Select(rest, false) == no + ([s[0]] + Select(rest, false));
      }
    } else {
      assert yes + [] == yes && no + [] == no;
    }
  }

  /** The partition is stable: each side is the list filtered by kind. */
  function Partition(s: seq<ScenarioQueryOptions>): (p: (seq<ScenarioQueryOptions>, seq<ScenarioQueryOptions>))
    ensures p.0 == Select(s, true) && p.1 == Select(s, false)
  {
    PartitionFromSelects(s, [], []);
    PartitionFrom(s, [], [])
  }

  /** The two fields `serialize_scenarios` writes, each entry untagged. */
  function SerializeScenarios(s: seq<ScenarioQueryOptions>): (m: map<string, Json>)
    ensures m.Keys == {"scenarios_containing", "scenarios_not_containing"}
    ensures m["scenarios_containing"] == StringArray(Values(Select(s, true)))
    ensures m["scenarios_not_containing"] == StringArray(Values(Select(s, false)))
  {
    var (containing, notContaining) := Partition(s);
    map["scenarios_containing" := StringArray(Values(containing)),
        "scenarios_not_containing" := StringArray(Values(notContaining))]
  }

  /** `Serialize for DecisionsStreamOptions`: the plain fields, with the
      scenario fields flattened in beside them in place of `scenarios`. */
  function SerializeOptions(o: DecisionsStreamOptions): (j: Json)
    ensures j.JObject?
    ensures j.fields.Keys == {"startup", "scopes", "origins", "scenarios_containing", "scenarios_not_containing"}
    ensures "scenarios" !in j.fields
    ensures j.fields["startup"] == JBool(o.startup)
    ensures j.fields["scopes"] == StringArray(o.scopes)
    ensures j.fields["origins"] == StringArray(o.origins)
    ensures j.fields["scenarios_containing"] == StringArray(Values(Select(o.scenarios, true)))
    ensures j.fields["scenarios_not_containing"] == StringArray(Values(Select(o.scenarios, false)))
  {
    JObject(map["startup" := JBool(o.startup),
                "scopes" := StringArray(o.scopes),
                "origins" := StringArray(o.origins)]
            + SerializeScenarios(o.scenarios))
  }

  /** A scenario string is written to `scenarios_containing` exactly when a
      `Containing` entry carries it, and likewise for the other array; the two
      arrays hold as many strings as the list has entries. */
  lemma ScenarioArraysAreExact(o: DecisionsStreamOptions, x: string)
    ensures JString(x) in SerializeOptions(o).fields["scenarios_containing"].items
        <==> Containing(x) in o.scenarios
    ensures JString(x) in SerializeOptions(o).fields["scenarios_not_containing"].items
        <==> NotContaining(x) in o.scenarios
    ensures |SerializeOptions(o).fields["scenarios_containing"].items|
          + |SerializeOptions(o).fields["scenarios_not_containing"].items| == |o.scenarios|
  {
    SelectMembership(o.scenarios, true, Containing(x));
    SelectMembership(o.scenarios, false, NotContaining(x));
    SelectSplits(o.scenarios);
    var yes := Select(o.scenarios, true);
    var no := Select(o.scenarios, false);
    forall e | e in yes ensures e.Containing? {
      SelectMembership(o.scenarios, true, e);
    }
    forall e | e in no ensures e.NotContaining? {
      SelectMembership(o.scenarios, false, e);
    }
    if JString(x) in StringArray(Values(yes)).items {
      var i :| 0 <= i < |yes| && StringArray(Values(yes)).items[i] == JString(x);
      assert yes[i] in yes;
    }
    if Containing(x) in yes {
      var i :| 0 <= i < |yes| && yes[i] == Containing(x);
      assert StringArray(Values(yes)).items[i] == JString(x);
    }
    if JString(x) in StringArray(Values(no)).items {
      var i :| 0 <= i < |no| && StringArray(Values(no)).items[i] == JString(x);
      assert no[i] in no;
    }
    if NotContaining(x) in no {
      var i :| 0 <= i < |no| && no[i] == NotContaining(x);
      assert StringArray(Values(no)).items[i] == JString(x);
    }
  }

  /** The default options serialise to `startup = false` and four empty arrays. */
  lemma DefaultOptionsSerialize()
    ensures SerializeOptions(DefaultOptions()) == JObject(map[
      "startup" := JBool(false),
      "scopes" := JArray([]),
      "origins" := JArray([]),
      "scenarios_containing" := JArray([]),
      "scenarios_not_containing" := JArray([])])
  {
  }

  /** The unit test beside the options: one filter of each kind. */
  lemma OneOfEachKindSerializes()
    ensures SerializeOptions(DecisionsStreamOptions(false, [], [],
              [Containing("hello"), NotContaining("world")]))
         == JObject(map[
              "startup" := JBool(false),
              "origins" := JArray([]),
              "scopes" := JArray([]),
              "scenarios_containing" := JArray([JString("hello")]),
              "scenarios_not_containing" := JArray([JString("world")])])
  {
    var s := [Containing("hello"), NotContaining("world")];
    assert s[1..][1..] == [];
    assert Select(s, true) == [Containing("hello")];
    assert Select(s, false) == [NotContaining("world")];
    assert StringArray(Values([Containing("hello")])) == JArray([JString("hello")]);
    assert StringArray(Values([NotContaining("world")])) == JArray([JString("world")]);
    assert StringArray([]) == JArray([]);
    var j := SerializeOptions(DecisionsStreamOptions(false, [], [], s));
    assert j.fields == map[
              "startup" := JBool(false),
              "origins" := JArray([]),
              "scopes" := JArray([]),
              "scenarios_containing" := JArray([JString("hello")]),
              "scenarios_not_containing" := JArray([JString("world")])];
  }

  // ---------------------------------------------------------------------------
  // DecisionsStreamOptionsBuilder: each step takes the options by value and
  // hands back the updated options.

  datatype DecisionsStreamOptionsBuilder = DecisionsStreamOptionsBuilder(opts: DecisionsStreamOptions) {

    static function New(): (b: DecisionsStreamOptionsBuilder)
      ensures b.Build() == DefaultOptions()
    {
      DecisionsStreamOptionsBuilder(DefaultOptions())
    }

    static function FromOptions(o: DecisionsStreamOptions): (b: DecisionsStreamOptionsBuilder)
      ensures b.Build() == o
    {
      DecisionsStreamOptionsBuilder(o)
    }

    function Startup(startup: bool): (b: DecisionsStreamOptionsBuilder)
      ensures b.opts.startup == startup
      ensures b.opts.scopes == opts.scopes && b.opts.origins == opts.origins
      ensures b.opts.scenarios == opts.scenarios
    {
      DecisionsStreamOptionsBuilder(opts.(startup := startup))
    }

    function Scope(scope: string): (b: DecisionsStreamOptionsBuilder)
      ensures b.opts.scopes == opts.scopes + [scope]
      ensures b.opts.(scopes := opts.scopes) == opts
    {
      DecisionsStreamOptionsBuilder(opts.(scopes := opts.scopes + [scope]))
    }

    function Origin(origin: string): (b: DecisionsStreamOptionsBuilder)
      ensures b.opts.origins == opts.origins + [origin]
      ensures b.opts.(origins := opts.origins) == opts
    {
      DecisionsStreamOptionsBuilder(opts.(origins := opts.origins + [origin]))
    }

    function Scenario(scenario: ScenarioQueryOptions): (b: DecisionsStreamOptionsBuilder)
      ensures b.opts.scenarios == opts.scenarios + [scenario]
      ensures b.opts.(scenarios := opts.scenarios) == opts
    {
      DecisionsStreamOptionsBuilder(opts.(scenarios := opts.scenarios + [scenario]))
    }

    function ScenarioContaining(scenario: string): (b: DecisionsStreamOptionsBuilder)
      ensures b == Scenario(Containing(scenario))
    {
      DecisionsStreamOptionsBuilder(opts.(scenarios := opts.scenarios + [Containing(scenario)]))
    }

    function ScenarioNotContaining(scenario: string): (b: DecisionsStreamOptionsBuilder)
      ensures b == Scenario(NotContaining(scenario))
    {
      DecisionsStreamOptionsBuilder(opts.(scenarios := opts.scenarios + [NotContaining(scenario)]))
    }

    function Build(): (o: DecisionsStreamOptions)
      ensures o == opts
    {
      opts
    }
  }

  /** A filter added through the builder lands at the end of its own wire
      array and leaves the other array, and every other field, as it was. */
  lemma ScenarioStepSerializes(b: DecisionsStreamOptionsBuilder, e: ScenarioQueryOptions)
    ensures var before := SerializeOptions(b.Build()).fields;
            var after := SerializeOptions(b.Scenario(e).Build()).fields;
            && after["startup"] == before["startup"]
            && after["scopes"] == before["scopes"]
            && after["origins"] == before["origins"]
            && after["scenarios_containing"].items
               == before["scenarios_containing"].items + (if e.Containing? then [JString(e.scenario)] else [])
            && after["scenarios_not_containing"].items
               == before["scenarios_not_containing"].items + (if e.NotContaining? then [JString(e.scenario)] else [])
  {
    SelectAppend(b.opts.scenarios, e, true);
    SelectAppend(b.opts.scenarios, e, false);
  }

  /** `startup(b)` changes the wire form in the `startup` field alone. */
  lemma StartupStepSerializes(b: DecisionsStreamOptionsBuilder, startup: bool)
    ensures SerializeOptions(b.Startup(startup).Build())
         == JObject(SerializeOptions(b.Build()).fields["startup" := JBool(startup)])
  {
  }

  // ---------------------------------------------------------------------------
  // stream_decisions

  /** Why a fetch failed. The fetch is outside the model, so the loop only
      passes these along. */
  datatype FetchError = InvalidUrl | Transport | HttpStatus(code: nat) | Decode(Types.DecodeError)

  /** What happens around one turn of the loop, as seen by its clock:
      `pause` is the time from the end of the previous fetch (or from the
      call, for the first turn) until the consumer pulls again and the loop
      reads the clock; `drift` is the time from that reading, plus any sleep
      the loop asked for, until the clock reading that stamps the fetch; a
      sleep may last longer than asked, and `drift` covers that too;
      `latency` is how long the fetch takes and `outcome` what it returns. */
  datatype Pull = Pull(pause: nat, drift: nat, latency: nat,
                       outcome: Result<Types.DecisionsResponse, FetchError>)

  /** One fetch as the loop issued it: the time the loop read the clock, the
      sleep it asked for, the time it stamped in `last_fetched` just before
      fetching, and the engine's own copy of the options at that moment. */
  datatype Fetch = Fetch(reached: nat, slept: nat, start: nat, held: DecisionsStreamOptions)

  function Max(a: nat, b: nat): nat {
    if a < b then b else a
  }

  /** How the loop times its fetches, one fetch at a time: the first fetch
      reads the clock when first pulled and does not sleep; a later one reads
      the clock after the previous fetch and the consumer's pause, and sleeps
      for what is left of the interval since the previous stamp, or not at
      all; every fetch is stamped after its sleep and drift. */
  predicate Timeline(fetches: seq<Fetch>, pulls: seq<Pull>, clock: nat, waitAtLeast: nat) {
    && |fetches| <= |pulls|
    && (|fetches| > 0 ==> fetches[0].reached == clock + pulls[0].pause && fetches[0].slept == 0)
    && (forall i :: 0 <= i < |fetches| ==>
          fetches[i].start == fetches[i].reached + fetches[i].slept + pulls[i].drift)
    && (forall i :: 0 < i < |fetches| ==>
          fetches[i].reached == fetches[i - 1].start + pulls[i - 1].latency + pulls[i].pause)
    && (forall i :: 0 < i < |fetches| ==>
          var elapsed := fetches[i].reached - fetches[i - 1].start;
          fetches[i].slept == if elapsed < waitAtLeast then waitAtLeast - elapsed else 0)
  }

  /** The spacing guarantee: each fetch starts at least the interval after
      the start of the one before. */
  predicate Spaced(fetches: seq<Fetch>, waitAtLeast: nat) {
    forall i :: 0 < i < |fetches| ==> fetches[i].start >= fetches[i - 1].start + waitAtLeast
  }

  /** With a consumer that pulls at once and no drift, fetches start exactly
      max(interval, latency) apart: the interval runs from the start of a
      fetch, not from its end, so a fetch's latency is not added to it. */
  predicate Paced(fetches: seq<Fetch>, pulls: seq<Pull>, waitAtLeast: nat)
    requires |fetches| <= |pulls|
  {
    forall i :: 0 < i < |fetches| && pulls[i].pause == 0 && pulls[i].drift == 0 ==>
      fetches[i].start == fetches[i - 1].start + Max(waitAtLeast, pulls[i - 1].latency)
  }

  lemma TimelineIsSpacedAndPaced(fetches: seq<Fetch>, pulls: seq<Pull>, clock: nat, waitAtLeast: nat)
    requires Timeline(fetches, pulls, clock, waitAtLeast)
    ensures Spaced(fetches, waitAtLeast)
    ensures Paced(fetches, pulls, waitAtLeast)
  {
  }

  /** One more fetch, timed as the loop times it, keeps the timeline. */
  lemma TimelineExtends(fetches: seq<Fetch>, pulls: seq<Pull>, clock: nat, waitAtLeast: nat, f: Fetch)
    requires Timeline(fetches, pulls, clock, waitAtLeast)
    requires |fetches| < |pulls|
    requires |fetches| == 0 ==> f.reached == clock + pulls[0].pause && f.slept == 0
    requires |fetches| > 0 ==>
      var prev := fetches[|fetches| - 1];
      && f.reached == prev.start + pulls[|fetches| - 1].latency + pulls[|fetches|].pause
      && f.slept == if f.reached - prev.start < waitAtLeast then waitAtLeast - (f.reached - prev.start) else 0
    requires f.start == f.reached + f.slept + pulls[|fetches|].drift
    ensures Timeline(fetches + [f], pulls, clock, waitAtLeast)
  {
  }

  /** The polling loop, driven for as many pulls as the consumer makes.
      `clock` is the time of the call. The stream yields each fetch's result;
      after an error it ends, so later pulls get nothing and fetch nothing.
      The fetches are timed as `Timeline` says, hence spaced by the interval
      (`TimelineIsSpacedAndPaced`). */
  method StreamDecisions(options: DecisionsStreamOptions, waitAtLeast: nat, clock: nat, pulls: seq<Pull>)
    returns (items: seq<Result<Types.DecisionsResponse, FetchError>>, fetches: seq<Fetch>)
    ensures |fetches| == |items| <= |pulls|
    // each fetch's outcome is yielded as it is
    ensures forall i :: 0 <= i < |items| ==> items[i] == pulls[i].outcome
    // the first error is the last item, and only an error ends the stream early
    ensures forall i :: 0 <= i < |items| - 1 ==> items[i].Ok?
    ensures |items| < |pulls| ==> |items| > 0 && items[|items| - 1].Err?
    ensures Timeline(fetches, pulls, clock, waitAtLeast)
    ensures Spaced(fetches, waitAtLeast)
    // the options are held as passed for the first fetch, then with startup cleared
    ensures |fetches| > 0 ==> fetches[0].held == options
    ensures forall i :: 0 < i < |fetches| ==> fetches[i].held == options.(startup := false)
  {
    var opts := options;
    var lastFetched: Option<nat> := None;
    var now := clock;
    var done := false;
    items, fetches := [], [];
    while !done && |items| < |pulls|
      invariant |fetches| == |items| <= |pulls|
      invariant forall i :: 0 <= i < |items| ==> items[i] == pulls[i].outcome
      invariant done <==> |items| > 0 && items[|items| - 1].Err?
      invariant forall i :: 0 <= i < |items| - 1 ==> items[i].Ok?
      invariant lastFetched.None? <==> |fetches| == 0
      invariant |fetches| == 0 ==> now == clock && opts == options
      invariant |fetches| > 0 ==> lastFetched == Some(fetches[|fetches| - 1].start)
      invariant |fetches| > 0 ==> now == fetches[|fetches| - 1].start + pulls[|fetches| - 1].latency
      invariant |fetches| > 0 && !done ==> opts == options.(startup := false)
      invariant Timeline(fetches, pulls, clock, waitAtLeast)
      invariant |fetches| > 0 ==> fetches[0].held == options
      invariant forall i :: 0 < i < |fetches| ==> fetches[i].held == options.(startup := false)
      decreases |pulls| - |items|
    {
      var pull := pulls[|items|];
      now := now + pull.pause;
      var reached := now;
      var slept: nat := 0;
      if lastFetched.Some? {
        var elapsed: nat := now - lastFetched.value;
        if elapsed < waitAtLeast {
          slept := waitAtLeast - elapsed;
        }
      }
      now := now + slept + pull.drift;
      lastFetched := Some(now);
      TimelineExtends(fetches, pulls, clock, waitAtLeast, Fetch(reached, slept, now, opts));
      fetches := fetches + [Fetch(reached, slept, now, opts)];
      now := now + pull.latency;
      items := items + [pull.outcome];
      done := pull.outcome.Err?;
      if pull.outcome.Ok? && opts.startup {
        opts := opts.(startup := false);
      }
    }
    TimelineIsSpacedAndPaced(fetches, pulls, clock, waitAtLeast);
  }
}
