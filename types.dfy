/** The decision data model of the stream (src/types.rs): a decision, the
    response that carries added and deleted decisions, and the three open
    enumerations `Origin`, `Scope` and `DecisionType`, each a set of known
    spellings plus an `Other` variant that keeps any other string verbatim.

    The wire spellings are derived the way serde derives them: from the Rust
    variant identifier, lowered to ASCII lowercase where the enum carries
    `rename_all = "lowercase"`, and replaced outright where a variant carries
    its own `rename`. */
module Types {
  import opened Wrappers
  import opened Json

  /** A signed 64-bit integer, the type of `Decision::id`. */
  const I64Min: int := -0x8000_0000_0000_0000
  const I64Max: int := 0x7FFF_FFFF_FFFF_FFFF
  newtype i64 = x: int | I64Min <= x <= I64Max

  /** serde's only decoding failure, as far as this model distinguishes them. */
  datatype DecodeError = DecodeError

  // ---------------------------------------------------------------------------
  // serde's `rename_all = "lowercase"`: ASCII lowercase of the identifier

  function LowerChar(c: char): char {
    if 'A' <= c <= 'Z' then (c as int + 32) as char else c
  }

  function Lowercase(s: string): (r: string)
    ensures |r| == |s|
    ensures forall i :: 0 <= i < |s| ==> r[i] == LowerChar(s[i])
  {
    seq(|s|, i requires 0 <= i < |s| => LowerChar(s[i]))
  }

  // ---------------------------------------------------------------------------
  // Origin: rename_all = "lowercase", `Capi` renamed "CAPI"

  datatype Origin = Cscli | Crowdsec | Capi | Lists | Other(name: string)

  /** The Rust identifier of a known variant. */
  function OriginIdent(o: Origin): string
    requires !o.Other?
  {
    match o
    case Cscli => "Cscli"
    case Crowdsec => "Crowdsec"
    case Capi => "Capi"
    case Lists => "Lists"
  }

  /** The serde spelling of a known variant. */
  function OriginSpelling(o: Origin): string
    requires !o.Other?
  {
    if o == Capi then "CAPI" else Lowercase(OriginIdent(o))
  }

  const OriginSpellings: set<string> := {"cscli", "crowdsec", "CAPI", "lists"}

  lemma OriginSpellingsAre()
    ensures OriginSpelling(Cscli) == "cscli"
    ensures OriginSpelling(Crowdsec) == "crowdsec"
    ensures OriginSpelling(Capi) == "CAPI"
    ensures OriginSpelling(Lists) == "lists"
  {
  }

  /** Deserialising a string: the known variants are tried first, in order,
      and anything else falls through to the untagged `Other`. */
  function DecodeOrigin(s: string): (o: Origin)
    ensures o.Other? <==> s !in OriginSpellings
    ensures o.Other? ==> o.name == s
    ensures !o.Other? ==> OriginSpelling(o) == s
  {
    OriginSpellingsAre();
    if s == OriginSpelling(Cscli) then Cscli
    else if s == OriginSpelling(Crowdsec) then Crowdsec
    else if s == OriginSpelling(Capi) then Capi
    else if s == OriginSpelling(Lists) then Lists
    else Origin.Other(s)
  }

  /** Serialising: a known variant gives its spelling, `Other(s)` gives `s`. */
  function EncodeOrigin(o: Origin): string {
    match o
    case Other(s) => s
    case _ => OriginSpelling(o)
  }

  /** `impl Display for Origin`, written out with its own literals. */
  function DisplayOrigin(o: Origin): string {
    match o
    case Cscli => "cscli"
    case Crowdsec => "crowdsec"
    case Capi => "CAPI"
    case Lists => "lists"
    case Other(s) => s
  }

  /** A value decoding can produce: `Other` never carries a known spelling. */
  predicate CanonicalOrigin(o: Origin) {
    o.Other? ==> o.name !in OriginSpellings
  }

  lemma OriginEncodeDecode(s: string)
    ensures EncodeOrigin(DecodeOrigin(s)) == s
    ensures CanonicalOrigin(DecodeOrigin(s))
  {
  }

  lemma OriginDecodeEncode(o: Origin)
    ensures DecodeOrigin(EncodeOrigin(o)) == o <==> CanonicalOrigin(o)
  {
    OriginSpellingsAre();
  }

  lemma DisplayIsEncode(o: Origin)
    ensures DisplayOrigin(o) == EncodeOrigin(o)
  {
    OriginSpellingsAre();
  }

  // ---------------------------------------------------------------------------
  // Scope: no rename_all, so the spellings are the identifiers themselves

  datatype Scope = Ip | Range | Other(name: string)

  function ScopeSpelling(sc: Scope): string
    requires !sc.Other?
  {
    match sc
    case Ip => "Ip"
    case Range => "Range"
  }

  const ScopeSpellings: set<string> := {"Ip", "Range"}

  function DecodeScope(s: string): (sc: Scope)
    ensures sc.Other? <==> s !in ScopeSpellings
    ensures sc.Other? ==> sc.name == s
    ensures !sc.Other? ==> ScopeSpelling(sc) == s
  {
    if s == ScopeSpelling(Ip) then Ip
    else if s == ScopeSpelling(Range) then Range
    else Scope.Other(s)
  }

  function EncodeScope(sc: Scope): string {
    match sc
    case Other(s) => s
    case _ => ScopeSpelling(sc)
  }

  predicate CanonicalScope(sc: Scope) {
    sc.Other? ==> sc.name !in ScopeSpellings
  }

  lemma ScopeEncodeDecode(s: string)
    ensures EncodeScope(DecodeScope(s)) == s
    ensures CanonicalScope(DecodeScope(s))
  {
  }

  lemma ScopeDecodeEncode(sc: Scope)
    ensures DecodeScope(EncodeScope(sc)) == sc <==> CanonicalScope(sc)
  {
  }

  /** The lowercase spellings are not known scopes: they decode to `Other`. */
  lemma LowercaseScopesAreOther()
    ensures DecodeScope("ip") == Scope.Other("ip")
    ensures DecodeScope("range") == Scope.Other("range")
  {
  }

  // ---------------------------------------------------------------------------
  // DecisionType: rename_all = "lowercase"

  datatype DecisionType = Ban | Captcha | Other(name: string)

  function DecisionTypeIdent(t: DecisionType): string
    requires !t.Other?
  {
    match t
    case Ban => "Ban"
    case Captcha => "Captcha"
  }

  function DecisionTypeSpelling(t: DecisionType): string
    requires !t.Other?
  {
    Lowercase(DecisionTypeIdent(t))
  }

  const DecisionTypeSpellings: set<string> := {"ban", "captcha"}

  lemma DecisionTypeSpellingsAre()
    ensures DecisionTypeSpelling(Ban) == "ban"
    ensures DecisionTypeSpelling(Captcha) == "captcha"
  {
  }

  function DecodeDecisionType(s: string): (t: DecisionType)
    ensures t.Other? <==> s !in DecisionTypeSpellings
    ensures t.Other? ==> t.name == s
    ensures !t.Other? ==> DecisionTypeSpelling(t) == s
  {
    DecisionTypeSpellingsAre();
    if s == DecisionTypeSpelling(Ban) then Ban
    else if s == DecisionTypeSpelling(Captcha) then Captcha
    else DecisionType.Other(s)
  }

  function EncodeDecisionType(t: DecisionType): string {
    match t
    case Other(s) => s
    case _ => DecisionTypeSpelling(t)
  }

  predicate CanonicalDecisionType(t: DecisionType) {
    t.Other? ==> t.name !in DecisionTypeSpellings
  }

  lemma DecisionTypeEncodeDecode(s: string)
    ensures EncodeDecisionType(DecodeDecisionType(s)) == s
    ensures CanonicalDecisionType(DecodeDecisionType(s))
  {
  }

  lemma DecisionTypeDecodeEncode(t: DecisionType)
    ensures DecodeDecisionType(EncodeDecisionType(t)) == t <==> CanonicalDecisionType(t)
  {
    DecisionTypeSpellingsAre();
  }

  // ---------------------------------------------------------------------------
  // Decision

  /** `until` is an `OffsetDateTime` in the source; here it is the timestamp
      text as it stands on the wire, not parsed. */
  datatype Decision = Decision(
    duration: string,
    id: Option<i64>,
    origin: Origin,
    scenario: string,
    scope: Scope,
    simulated: Option<bool>,
    type_: DecisionType,
    until: Option<string>,
    uuid: Option<string>,
    value: string)

  /** The wire key of every field: each field's own name, except `type_`. */
  const DecisionKeys: set<string> :=
    {"duration", "id", "origin", "scenario", "scope", "simulated", "type", "until", "uuid", "value"}

  /** `#[derive(Default)]`: empty strings, `None`s and the `#[default]` variants. */
  function DefaultDecision(): (d: Decision)
    ensures d.duration == "" && d.scenario == "" && d.value == ""
    ensures d.id.None? && d.simulated.None? && d.until.None? && d.uuid.None?
    ensures d.origin == Cscli && d.scope == Ip && d.type_ == Ban
    ensures EncodeOrigin(d.origin) == "cscli"
    ensures EncodeScope(d.scope) == "Ip"
    ensures EncodeDecisionType(d.type_) == "ban"
  {
    OriginSpellingsAre();
    DecisionTypeSpellingsAre();
    Decision("", None, Cscli, "", Ip, None, Ban, None, None, "")
  }

  predicate CanonicalDecision(d: Decision) {
    CanonicalOrigin(d.origin) && CanonicalScope(d.scope) && CanonicalDecisionType(d.type_)
  }

  // Field readers. A missing key or an explicit null is `None` for the
  // `Option` fields; a required field must be present with the right type.

  function RequiredString(f: map<string, Json>, key: string): (r: Result<string, DecodeError>)
    ensures r.Ok? <==> key in f && f[key].JString?
    ensures r.Ok? ==> f[key] == JString(r.value)
  {
    if key in f && f[key].JString? then Ok(f[key].s) else Err(DecodeError)
  }

  predicate AbsentOrNull(f: map<string, Json>, key: string) {
    key !in f || f[key] == JNull
  }

  function OptionalString(f: map<string, Json>, key: string): Result<Option<string>, DecodeError> {
    if AbsentOrNull(f, key) then Ok(None)
    else if f[key].JString? then Ok(Some(f[key].s))
    else Err(DecodeError)
  }

  function OptionalBool(f: map<string, Json>, key: string): Result<Option<bool>, DecodeError> {
    if AbsentOrNull(f, key) then Ok(None)
    else if f[key].JBool? then Ok(Some(f[key].b))
    else Err(DecodeError)
  }

  /** An integer outside the 64-bit signed range is rejected, as serde rejects it for `i64`. */
  function OptionalI64(f: map<string, Json>, key: string): Result<Option<i64>, DecodeError> {
    if AbsentOrNull(f, key) then Ok(None)
    else if f[key].JInt? && I64Min <= f[key].i <= I64Max then Ok(Some(f[key].i as i64))
    else Err(DecodeError)
  }

  /** When the fields of a decision decode: each required field present as a
      string, whatever the string is, and each optional field absent, null or
      of its own JSON type. */
  predicate DecodableFields(f: map<string, Json>) {
    && (forall key :: key in DecisionRequiredKeys ==> key in f && f[key].JString?)
    && (AbsentOrNull(f, "id") || (f["id"].JInt? && I64Min <= f["id"].i <= I64Max))
    && (AbsentOrNull(f, "simulated") || f["simulated"].JBool?)
    && (AbsentOrNull(f, "until") || f["until"].JString?)
    && (AbsentOrNull(f, "uuid") || f["uuid"].JString?)
  }

  /** The derived visitor over the fields of a decision, by key. */
  function DecodeDecisionFields(f: map<string, Json>): (r: Result<Decision, DecodeError>)
    ensures r.Ok? <==> DecodableFields(f)
    ensures r.Ok? ==> CanonicalDecision(r.value)
    ensures r.Ok? ==> var d := r.value;
      && f["duration"] == JString(d.duration)
      && f["origin"] == JString(EncodeOrigin(d.origin))
      && f["scenario"] == JString(d.scenario)
      && f["scope"] == JString(EncodeScope(d.scope))
      && f["type"] == JString(EncodeDecisionType(d.type_))
      && f["value"] == JString(d.value)
    ensures r.Ok? ==> var d := r.value;
      && (d.id.None? <==> AbsentOrNull(f, "id"))
      && (d.id.Some? ==> f["id"] == JInt(d.id.value as int))
      && (d.simulated.None? <==> AbsentOrNull(f, "simulated"))
      && (d.simulated.Some? ==> f["simulated"] == JBool(d.simulated.value))
      && (d.until.None? <==> AbsentOrNull(f, "until"))
      && (d.until.Some? ==> f["until"] == JString(d.until.value))
      && (d.uuid.None? <==> AbsentOrNull(f, "uuid"))
      && (d.uuid.Some? ==> f["uuid"] == JString(d.uuid.value))
  {
    var duration :- RequiredString(f, "duration");
    var id :- OptionalI64(f, "id");
    var origin :- RequiredString(f, "origin");
    var scenario :- RequiredString(f, "scenario");
    var scope :- RequiredString(f, "scope");
    var simulated :- OptionalBool(f, "simulated");
    var type_ :- RequiredString(f, "type");
    var until :- OptionalString(f, "until");
    var uuid :- OptionalString(f, "uuid");
    var value :- RequiredString(f, "value");
    OriginEncodeDecode(origin);
    ScopeEncodeDecode(scope);
    DecisionTypeEncodeDecode(type_);
    Ok(Decision(duration, id, DecodeOrigin(origin), scenario, DecodeScope(scope),
                simulated, DecodeDecisionType(type_), until, uuid, value))
  }

  /** serde_json reads a struct from an object, by key, or from an array
      holding exactly one value per field in declaration order. */
  function DecisionFieldsOf(j: Json): (r: Option<map<string, Json>>)
    ensures j.JObject? ==> r == Some(j.fields)
    ensures j.JArray? && |j.items| == |DecisionFieldOrder| ==>
      && r.Some? && r.value.Keys == DecisionKeys
      && forall i :: 0 <= i < |DecisionFieldOrder| ==> r.value[DecisionFieldOrder[i]] == j.items[i]
    ensures r.Some? <==> j.JObject? || (j.JArray? && |j.items| == |DecisionFieldOrder|)
  {
    match j
    case JObject(f) => Some(f)
    case JArray(items) =>
      if |items| == 10 then
        Some(map["duration" := items[0], "id" := items[1], "origin" := items[2],
                 "scenario" := items[3], "scope" := items[4], "simulated" := items[5],
                 "type" := items[6], "until" := items[7], "uuid" := items[8],
                 "value" := items[9]])
      else None
    case _ => None
  }

  /** A decision decodes exactly when it is an object or a full positional
      array whose fields decode; an unknown `origin`, `scope` or `type` string
      never makes it fail. */
  function DecodeDecision(j: Json): (r: Result<Decision, DecodeError>)
    ensures r.Ok? <==> DecisionFieldsOf(j).Some? && DecodableFields(DecisionFieldsOf(j).value)
    ensures r.Ok? ==> r == DecodeDecisionFields(DecisionFieldsOf(j).value)
    ensures r.Ok? ==> CanonicalDecision(r.value)
  {
    match DecisionFieldsOf(j)
    case None => Err(DecodeError)
    case Some(f) => DecodeDecisionFields(f)
  }

  /** The declaration order of the fields, as wire keys. */
  const DecisionFieldOrder: seq<string> :=
    ["duration", "id", "origin", "scenario", "scope", "simulated", "type", "until", "uuid", "value"]

  /** A decision from a server that uses a new origin, scope and type still
      decodes, keeping the three strings, and writes them back verbatim. */
  lemma UnknownCategoriesDecode()
    ensures var j := JObject(map["duration" := JString("4h"), "origin" := JString("custom-origin"),
                                 "scenario" := JString("s"), "scope" := JString("username"),
                                 "type" := JString("throttle"), "value" := JString("bob")]);
      && DecodeDecision(j) == Ok(Decision("4h", None, Origin.Other("custom-origin"), "s",
                                          Scope.Other("username"), None, DecisionType.Other("throttle"),
                                          None, None, "bob"))
      && EncodeOrigin(DecodeDecision(j).value.origin) == "custom-origin"
  {
  }

  /** The keys a decision object must carry: the non-`Option` fields. */
  const DecisionRequiredKeys: set<string> := {"duration", "origin", "scenario", "scope", "type", "value"}

  function EncodeOption<T>(o: Option<T>, encode: T -> Json): Json {
    match o
    case None => JNull
    case Some(x) => encode(x)
  }

  /** serde's `Serialize`: every field is written, `None` as null. */
  function EncodeDecision(d: Decision): (j: Json)
    ensures j.JObject? && j.fields.Keys == DecisionKeys
    ensures "type_" !in j.fields && j.fields["type"] == JString(EncodeDecisionType(d.type_))
  {
    JObject(map[
      "duration" := JString(d.duration),
      "id" := EncodeOption(d.id, (i: i64) => JInt(i as int)),
      "origin" := JString(EncodeOrigin(d.origin)),
      "scenario" := JString(d.scenario),
      "scope" := JString(EncodeScope(d.scope)),
      "simulated" := EncodeOption(d.simulated, (b: bool) => JBool(b)),
      "type" := JString(EncodeDecisionType(d.type_)),
      "until" := EncodeOption(d.until, (s: string) => JString(s)),
      "uuid" := EncodeOption(d.uuid, (s: string) => JString(s)),
      "value" := JString(d.value)])
  }

  /** Every decision decoding can produce survives a write and a read. */
  lemma DecisionRoundTrip(d: Decision)
    requires CanonicalDecision(d)
    ensures DecodeDecision(EncodeDecision(d)) == Ok(d)
  {
    assert DecisionFieldsOf(EncodeDecision(d)) == Some(EncodeDecision(d).fields);
    OriginDecodeEncode(d.origin);
    ScopeDecodeEncode(d.scope);
    DecisionTypeDecodeEncode(d.type_);
    var f := EncodeDecision(d).fields;
    assert RequiredString(f, "duration") == Ok(d.duration);
    assert OptionalI64(f, "id") == Ok(d.id);
    assert RequiredString(f, "origin") == Ok(EncodeOrigin(d.origin));
    assert RequiredString(f, "scenario") == Ok(d.scenario);
    assert RequiredString(f, "scope") == Ok(EncodeScope(d.scope));
    assert OptionalBool(f, "simulated") == Ok(d.simulated);
    assert RequiredString(f, "type") == Ok(EncodeDecisionType(d.type_));
    assert OptionalString(f, "until") == Ok(d.until);
    assert OptionalString(f, "uuid") == Ok(d.uuid);
    assert RequiredString(f, "value") == Ok(d.value);
  }

  // ---------------------------------------------------------------------------
  // DecisionsResponse: `DefaultOnNull<Vec<_>>` on both fields

  /** `new` is a Dafny keyword, hence `new_`. */
  datatype DecisionsResponse = DecisionsResponse(new_: seq<Decision>, deleted: seq<Decision>)

  /** Decodes an array element by element, failing if any element fails. */
  function DecodeEach(items: seq<Json>): (r: Result<seq<Decision>, DecodeError>)
    ensures r.Ok? <==> forall i :: 0 <= i < |items| ==> DecodeDecision(items[i]).Ok?
    ensures r.Ok? ==> |r.value| == |items|
    ensures r.Ok? ==> forall i :: 0 <= i < |items| ==> Ok(r.value[i]) == DecodeDecision(items[i])
  {
    if items == [] then Ok([])
    else
      var first :- DecodeDecision(items[0]);
      var rest :- DecodeEach(items[1..]);
      Ok([first] + rest)
  }

  /** One of the two list fields: an explicit null is the empty list, an array
      is decoded in order, and anything else (a missing key too) fails. */
  function DecodeDecisionList(f: map<string, Json>, key: string): (r: Result<seq<Decision>, DecodeError>)
    ensures key in f && f[key] == JNull ==> r == Ok([])
    ensures key in f && f[key].JArray? ==> r == DecodeEach(f[key].items)
    ensures r.Ok? ==> key in f && (f[key].JNull? || f[key].JArray?)
  {
    if key !in f then Err(DecodeError)
    else match f[key]
      case JNull => Ok([])
      case JArray(items) => DecodeEach(items)
      case _ => Err(DecodeError)
  }

  /** The fields of a response: an object by key, or a two-element array
      holding `new` and `deleted` in that order. */
  function ResponseFieldsOf(j: Json): (r: Option<map<string, Json>>)
    ensures j.JObject? ==> r == Some(j.fields)
    ensures j.JArray? && |j.items| == 2 ==> r == Some(map["new" := j.items[0], "deleted" := j.items[1]])
    ensures r.Some? <==> j.JObject? || (j.JArray? && |j.items| == 2)
  {
    match j
    case JObject(f) => Some(f)
    case JArray(items) => if |items| == 2 then Some(map["new" := items[0], "deleted" := items[1]]) else None
    case _ => None
  }

  function DecodeResponse(j: Json): (r: Result<DecisionsResponse, DecodeError>)
    ensures r.Ok? <==> ResponseFieldsOf(j).Some?
                       && DecodeDecisionList(ResponseFieldsOf(j).value, "new").Ok?
                       && DecodeDecisionList(ResponseFieldsOf(j).value, "deleted").Ok?
    ensures r.Ok? ==> r.value.new_ == DecodeDecisionList(ResponseFieldsOf(j).value, "new").value
    ensures r.Ok? ==> r.value.deleted == DecodeDecisionList(ResponseFieldsOf(j).value, "deleted").value
  {
    match ResponseFieldsOf(j)
    case None => Err(DecodeError)
    case Some(f) =>
      var added :- DecodeDecisionList(f, "new");
      var deleted :- DecodeDecisionList(f, "deleted");
      Ok(DecisionsResponse(added, deleted))
  }

  /** `{"new": null, "deleted": null}`, and its positional form `[null, null]`,
      are the empty response. */
  lemma NullListsDecodeEmpty()
    ensures DecodeResponse(JObject(map["new" := JNull, "deleted" := JNull]))
         == Ok(DecisionsResponse([], []))
    ensures DecodeResponse(JArray([JNull, JNull])) == Ok(DecisionsResponse([], []))
  {
  }

  /** The lists are written as arrays, never as null. */
  function EncodeResponse(r: DecisionsResponse): (j: Json)
    ensures j.JObject? && j.fields.Keys == {"new", "deleted"}
    ensures j.fields["new"].JArray? && |j.fields["new"].items| == |r.new_|
    ensures j.fields["deleted"].JArray? && |j.fields["deleted"].items| == |r.deleted|
  {
    JObject(map[
      "new" := JArray(EncodeEach(r.new_)),
      "deleted" := JArray(EncodeEach(r.deleted))])
  }

  function EncodeEach(ds: seq<Decision>): (items: seq<Json>)
    ensures |items| == |ds|
    ensures forall i :: 0 <= i < |ds| ==> items[i] == EncodeDecision(ds[i])
  {
    seq(|ds|, i requires 0 <= i < |ds| => EncodeDecision(ds[i]))
  }

  lemma DecodeEachEncoded(ds: seq<Decision>)
    requires forall i :: 0 <= i < |ds| ==> CanonicalDecision(ds[i])
    ensures DecodeEach(EncodeEach(ds)) == Ok(ds)
  {
    var items := EncodeEach(ds);
    forall i | 0 <= i < |ds|
      ensures DecodeDecision(items[i]) == Ok(ds[i])
    {
      DecisionRoundTrip(ds[i]);
    }
    var r := DecodeEach(items);
    assert r.Ok?;
    assert forall i :: 0 <= i < |ds| ==> r.value[i] == ds[i];
    assert r.value == ds;
  }

  predicate CanonicalResponse(r: DecisionsResponse) {
    && (forall i :: 0 <= i < |r.new_| ==> CanonicalDecision(r.new_[i]))
    && (forall i :: 0 <= i < |r.deleted| ==> CanonicalDecision(r.deleted[i]))
  }

  lemma ResponseRoundTrip(r: DecisionsResponse)
    requires CanonicalResponse(r)
    ensures DecodeResponse(EncodeResponse(r)) == Ok(r)
  {
    DecodeEachEncoded(r.new_);
    DecodeEachEncoded(r.deleted);
    var f := EncodeResponse(r).fields;
    assert DecodeDecisionList(f, "new") == Ok(r.new_);
    assert DecodeDecisionList(f, "deleted") == Ok(r.deleted);
  }

  /** A decoded response never carries an `Other` with a known spelling. */
  lemma DecodedResponseIsCanonical(j: Json)
    requires DecodeResponse(j).Ok?
    ensures CanonicalResponse(DecodeResponse(j).value)
  {
  }
}
