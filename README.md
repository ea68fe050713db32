# crowdsec-gatekeeper: decision stream client, modelled in Dafny

The client polls a CrowdSec local API for the decisions (bans, captchas, …)
added and deleted since its last poll, and hands each decoded response to its
consumer. This project models its core:

- `types.dfy`, module `Types` (src/types.rs): a `Decision`, the
  `DecisionsResponse` that carries the `new` and `deleted` lists, and the three
  open enumerations `Origin`, `Scope` and `DecisionType`. Each enumeration has
  a few known wire spellings and an `Other(s)` variant that keeps any other
  string verbatim. The spellings are derived as serde derives them. The variant
  identifier is lowered to ASCII lowercase where the enum says
  `rename_all = "lowercase"`, and a variant's own `rename` takes precedence.
  That gives `cscli`, `crowdsec`, `CAPI`, `lists` for `Origin`; `Ip` and
  `Range` for `Scope`, which has no `rename_all`; and `ban`, `captcha` for
  `DecisionType`. Decisions and responses are decoded from and encoded to a
  small JSON value (`json.dfy`). An explicit `null` for `new` or `deleted`
  decodes to an empty list.
- `lapi_client.dfy`, module `LapiClient` (src/lapi_client.rs): the query
  options, their consuming builder, and their JSON form. In that form the
  tagged scenario filters are split by a stable partition into the sibling
  arrays `scenarios_containing` and `scenarios_not_containing`. There is no
  `scenarios` key. The module also holds the polling loop of
  `stream_decisions`. It is a `method` with a `while` loop over the
  consumer's pulls. It keeps the loop's state: the `last_fetched` stamp and
  the engine's own copy of the options, whose `startup` flag it clears after
  the first successful item.
- `wrappers.dfy`: `Option` and a failure-compatible `Result`.

Time is a natural number, and the caller supplies every clock reading. For
each pull, the caller also supplies the consumer's pause, the drift between
clock readings (which covers a sleep that lasts longer than asked), the
fetch's latency, and the fetch's outcome. The fetch itself is the outcome the
caller supplies. `get_decisions` never reads the options, so the model does
not claim that the options reach the request. Each `Fetch` record shows the
options the engine held at that moment, and nothing more.

Points of the code the model keeps:
- The known `Scope` spellings are `Ip` and `Range`, not lowercase
  (src/types.rs:63-71). `ip` and `range` decode to `Other`.
- The interval is measured from the stamp taken just before a fetch starts
  (src/lapi_client.rs:65-66), not from the end of the previous fetch.
- A fetch error is yielded once and then the stream ends. This is the `?`
  inside `try_stream!` at src/lapi_client.rs:66. The stream does not go on
  polling after an error.
- No query parameters are sent (src/lapi_client.rs:39-49).

## Model

| member | source | states |
|---|---|---|
| `Types.OriginSpellingsAre` | src/types.rs:38-49 | `rename_all = "lowercase"` plus the `rename` on `Capi` give the wire spellings `cscli`, `crowdsec`, `CAPI`, `lists` |
| `Types.DecodeOrigin` | src/types.rs:38-49 | decoding any string succeeds; it gives a known variant exactly when the string is one of the four spellings (and then the variant whose spelling it is), and `Other(s)` carrying the string itself otherwise |
| `Types.OriginEncodeDecode` | src/types.rs:38-49 | for every string, encode(decode(s)) = s, and what decoding gives never has `Other` carrying a known spelling |
| `Types.OriginDecodeEncode` | src/types.rs:47-48 | decode(encode(o)) = o holds exactly for the values decoding can produce (both directions) |
| `Types.DisplayIsEncode` | src/types.rs:51-61 | `Display for Origin` writes the same text as serialisation, `CAPI` in upper case and `Other(s)` as `s` verbatim |
| `Types.DecodeScope` | src/types.rs:63-71 | decoding is total; `Ip` and `Range` are the known spellings and any other string `s` becomes `Other(s)` |
| `Types.ScopeEncodeDecode` | src/types.rs:63-71 | encode(decode(s)) = s for every string, and decoding gives only canonical values |
| `Types.ScopeDecodeEncode` | src/types.rs:69-70 | decode(encode(v)) = v exactly for values whose `Other` does not carry `Ip` or `Range` |
| `Types.LowercaseScopesAreOther` | src/types.rs:63-71 | with no `rename_all`, `ip` and `range` are unknown scopes and decode to `Other` |
| `Types.DecisionTypeSpellingsAre` | src/types.rs:73-82 | `rename_all = "lowercase"` gives the wire spellings `ban` and `captcha` |
| `Types.DecodeDecisionType` | src/types.rs:73-82 | decoding is total; `ban` and `captcha` are the known spellings, and any other string `s` becomes `Other(s)` |
| `Types.DecisionTypeEncodeDecode` | src/types.rs:73-82 | encode(decode(s)) = s for every string, and decoding gives only canonical values |
| `Types.DecisionTypeDecodeEncode` | src/types.rs:80-81 | decode(encode(v)) = v exactly for values whose `Other` does not carry a known spelling |
| `Types.DefaultDecision` | src/types.rs:14-82 | the default decision has empty `duration`, `scenario` and `value`; `None` for `id`, `simulated`, `until` and `uuid`; and the `#[default]` variants `Cscli`, `Ip` and `Ban`, which encode as `cscli`, `Ip` and `ban` |
| `Types.DecodeDecisionFields` | src/types.rs:14-36 | the fields decode exactly when each required field is present as a string, whatever the string, and each optional field is absent, null or of its own JSON type (`id` within the 64-bit range); each field is read from its own key, `type_` from the key `type`; an absent or null optional field gives `None`, any other gives `Some` of its value; the result is canonical |
| `Types.DecisionFieldsOf` | src/types.rs:14-36 | a decision's fields come from a JSON object by key, or from an array of exactly ten values in declaration order; any other JSON value gives no fields |
| `Types.DecodeDecision` | src/types.rs:14-36 | a decision decodes exactly when its JSON gives fields and those fields decode, and then to what the field decoder gives; an unknown origin, scope or type string never makes it fail |
| `Types.UnknownCategoriesDecode` | src/types.rs:38-82 | a decision with the origin `custom-origin` and an unknown scope and type decodes, keeping the three strings in `Other`, and the origin encodes back to `custom-origin` |
| `Types.EncodeDecision` | src/types.rs:14-36 | the encoded decision has exactly the ten wire keys, with `type` and never `type_` |
| `Types.DecisionRoundTrip` | src/types.rs:14-36 | every decision decoding can produce decodes back from its own encoding unchanged |
| `Types.DecodeEach` | src/types.rs:8-11 | an array decodes when every element does, element by element and in order, to a list of the same length |
| `Types.DecodeDecisionList` | src/types.rs:5-12 | an explicit `null` for a list field decodes to the empty list; an array decodes element by element; a missing key or any other JSON value fails |
| `Types.ResponseFieldsOf` | src/types.rs:5-12 | a response's fields come from a JSON object by key, or from a two-element array holding `new` and `deleted` in that order; any other JSON value gives no fields |
| `Types.DecodeResponse` | src/types.rs:5-12 | a response decodes exactly when its JSON gives fields whose `new` and `deleted` both decode, and carries those two lists |
| `Types.NullListsDecodeEmpty` | src/types.rs:5-12 | `{"new": null, "deleted": null}`, and the positional `[null, null]`, decode to the response with two empty lists |
| `Types.EncodeResponse` | src/types.rs:5-12 | a response encodes to an object with the keys `new` and `deleted`, each an array as long as its list, never `null` |
| `Types.DecodeEachEncoded` | src/types.rs:8-11 | a list of decodable decisions comes back in the same order from the array of its encodings |
| `Types.ResponseRoundTrip` | src/types.rs:5-12 | every response decoding can produce decodes back from its own encoding unchanged |
| `Types.DecodedResponseIsCanonical` | src/types.rs:5-12 | no decoded response carries an `Other` with a known spelling, so `ResponseRoundTrip` applies to every decoded response |
| `LapiClient.DefaultOptions` | src/lapi_client.rs:85-95 | the default options have `startup = false` and three empty lists |
| `LapiClient.SelectMembership` | src/lapi_client.rs:130-132 | an entry is in one group exactly when it is in the list and is of that group's kind |
| `LapiClient.SelectSplits` | src/lapi_client.rs:130-135 | the two groups' lengths sum to the list's length, and together they hold every entry exactly as often as the list does |
| `LapiClient.SelectAppend` | src/lapi_client.rs:130-132 | appending an entry to the list appends it to the end of its own group and leaves the other group unchanged |
| `LapiClient.PartitionFromSelects` | src/lapi_client.rs:130-132 | pushing each entry in order onto one of two accumulators gives the accumulators extended by the two order-preserving filters of the list |
| `LapiClient.Partition` | src/lapi_client.rs:130-132 | `partition` is stable: the first side is the `Containing` entries in their original order, the second the `NotContaining` entries |
| `LapiClient.SerializeScenarios` | src/lapi_client.rs:124-138 | the scenarios become exactly two fields: `scenarios_containing` holds the strings of the `Containing` entries in order, and `scenarios_not_containing` holds those of the `NotContaining` entries |
| `LapiClient.SerializeOptions` | src/lapi_client.rs:85-95 | the options serialise to exactly the keys `startup`, `scopes`, `origins`, `scenarios_containing` and `scenarios_not_containing`, with no `scenarios` key, each holding its field's value |
| `LapiClient.ScenarioArraysAreExact` | src/lapi_client.rs:130-135 | a string is in `scenarios_containing` exactly when a `Containing` entry carries it, and likewise for `scenarios_not_containing`; the two arrays' lengths sum to the number of filters |
| `LapiClient.DefaultOptionsSerialize` | src/lapi_client.rs:85-95 | the default options serialise to `startup = false` and four empty arrays |
| `LapiClient.OneOfEachKindSerializes` | src/lapi_client.rs:101-121 | one `Containing("hello")` and one `NotContaining("world")` serialise to `["hello"]` and `["world"]`, beside `startup = false` and two empty arrays |
| `LapiClient.DecisionsStreamOptionsBuilder.New` | src/lapi_client.rs:143-145 | a new builder builds the default options |
| `LapiClient.DecisionsStreamOptionsBuilder.FromOptions` | src/lapi_client.rs:147-149 | a builder made from options builds those same options |
| `LapiClient.DecisionsStreamOptionsBuilder.Startup` | src/lapi_client.rs:151-155 | `startup(b)` sets `startup` to `b` and leaves the three lists unchanged |
| `LapiClient.DecisionsStreamOptionsBuilder.Scope` | src/lapi_client.rs:157-161 | `scope` appends exactly one element at the end of `scopes`, and every other field is unchanged |
| `LapiClient.DecisionsStreamOptionsBuilder.Origin` | src/lapi_client.rs:163-167 | `origin` appends exactly one element at the end of `origins`, and every other field is unchanged |
| `LapiClient.DecisionsStreamOptionsBuilder.Scenario` | src/lapi_client.rs:169-173 | `scenario` appends exactly one filter at the end of `scenarios`, and every other field is unchanged |
| `LapiClient.DecisionsStreamOptionsBuilder.ScenarioContaining` | src/lapi_client.rs:175-180 | the same as `scenario` with the filter tagged `Containing` |
| `LapiClient.DecisionsStreamOptionsBuilder.ScenarioNotContaining` | src/lapi_client.rs:182-187 | the same as `scenario` with the filter tagged `NotContaining` |
| `LapiClient.DecisionsStreamOptionsBuilder.Build` | src/lapi_client.rs:189-191 | `build()` returns the accumulated options unchanged |
| `LapiClient.ScenarioStepSerializes` | src/lapi_client.rs:169-187 | a filter added through the builder appears at the end of its own wire array; the other array and the other fields are unchanged |
| `LapiClient.StartupStepSerializes` | src/lapi_client.rs:151-155 | `startup(b)` changes the wire form only in the `startup` field |
| `LapiClient.TimelineExtends` | src/lapi_client.rs:57-65 | one more fetch, timed as the loop times it, keeps the timeline's per-fetch facts |
| `LapiClient.TimelineIsSpacedAndPaced` | src/lapi_client.rs:57-66 | on that timeline each fetch starts at least `wait_at_least` after the previous stamp. With no pause and no drift, consecutive fetches start exactly max(`wait_at_least`, latency) apart, so the interval runs from fetch start, not fetch end |
| `LapiClient.StreamDecisions` | src/lapi_client.rs:51-75 | the first fetch happens without sleep; a later one sleeps `wait_at_least - elapsed` when `elapsed < wait_at_least` and not at all otherwise, and that subtraction never goes negative; it stamps before fetching, and successive fetches are at least `wait_at_least` apart; each outcome is yielded as it is; an error is the last item and no fetch follows it, and only an error ends the stream early; the first fetch holds the options as passed, and every later one holds them with `startup` cleared and everything else unchanged |

## Left out

- `LapiClient::try_from_api_key` (src/lapi_client.rs:20-37) is not modelled. Its header validation, sensitive flag, user agent and client construction all happen inside reqwest and http, whose code is not part of this model.
- `get_decisions` (src/lapi_client.rs:39-49) is not modelled. Joining the URL, the HTTP GET, the status check and reading the body are network I/O. The loop takes each fetch's outcome from the caller, and `FetchError` only names the kinds of failure.
- Real clocks, `Instant` and `tokio::time::sleep` are replaced by caller-supplied natural numbers. Because each reading is the previous one plus a natural number, the clock is monotone, so the saturating `Instant` subtraction never saturates here.
- The stream is lazy, infinite and cancellable; the model runs it for a finite number of pulls instead. Dropping the stream mid-sleep or mid-fetch is not modelled.
- `LapiClient.StreamDecisions` clears `startup` in the same turn as the successful item. In the source this happens when the consumer pulls again. The effect is the same on every fetch the stream issues.
- JSON is reduced to null, booleans, integers, strings, arrays and objects keyed by string. Floating-point numbers, duplicate keys and key order are not modelled.
- `Types.DecodeDecision` does not say which error serde would report. Every structural mismatch is the one `DecodeError`. Unknown keys are ignored, as serde ignores them.
- `Types.DecodeDecision` accepts a known enum variant only as a JSON string. serde also accepts the externally tagged object form, such as `{"cscli": null}`; that form is not modelled.
- `until` is kept as its timestamp text. Parsing and printing `OffsetDateTime`, and rejecting a malformed timestamp, are not modelled.
- src/diagnostics.rs (logging and error-report setup) and src/main.rs (an empty entry point) hold no logic of the core and are not part of this model.
