/**
 * The per-route field rules, and the part of Joi's object validation they rely
 * on: fields are checked one after the other in declaration order, each against
 * presence, then its list of allowed values, then its type, then its range; the
 * first failure is the error, and absent fields with a default receive it.
 */
module Schemas {
  import opened Wrappers
  import opened Strings
  import opened JsValues
  import opened Http

  /** `.optional()`, `.required()`, or `.when(field, {is: value, then: required, otherwise: optional})`. */
  datatype Presence = Optional | Required | RequiredWhen(field: string, value: JsVal)

  /** `Joi.string()`, `Joi.number().integer().min(lo).max(hi)`, `Joi.boolean()`. */
  datatype Kind = StringKind | IntegerKind(lo: int, hi: int) | BooleanKind

  /** One field: its name, type, presence, the `.valid(...)` list if any, the `.default(...)`
      if any, and the custom text replacing both 'any.required' and 'string.empty', if any. */
  datatype Rule = Rule(key: string, kind: Kind, presence: Presence, valid: Option<seq<string>>, default: Option<JsVal>, custom: Option<string>)

  type Schema = seq<Rule>

  // ---------------------------------------------------------------------------
  // Joi's default messages, with the label in double quotes

  function Label(key: string): string {
    "\"" + key + "\""
  }

  /** `[a, b, c]`, as Joi writes the allowed values. */
  function ListText(vs: seq<string>): string
    decreases |vs|
  {
    if |vs| == 0 then ""
    else if |vs| == 1 then vs[0]
    else vs[0] + ", " + ListText(vs[1..])
  }

  function RequiredMessage(r: Rule): string {
    if r.custom.Some? then r.custom.value else Label(r.key) + " is required"
  }

  function EmptyMessage(r: Rule): string {
    if r.custom.Some? then r.custom.value else Label(r.key) + " is not allowed to be empty"
  }

  function OnlyMessage(key: string, valid: seq<string>): string {
    Label(key) + " must be one of [" + ListText(valid) + "]"
  }

  /** The largest integer a JavaScript number holds exactly. */
  const MaxSafeInteger := 9007199254740991

  // ---------------------------------------------------------------------------
  // checking one field

  /** Whether the field is required, given the fields validated so far (a `when`
      reference sees the sibling's value after its own default). */
  predicate IsRequired(r: Rule, current: Container) {
    match r.presence
    case Optional => false
    case Required => true
    case RequiredWhen(f, v) => Field(current, f) == v
  }

  /** The type and range checks of a present value that is not in an allowed list. */
  function CheckKind(r: Rule, v: JsVal): (res: Result<JsVal, string>)
    ensures res.Ok? ==> res.value == v
    ensures res.Ok? ==> match r.kind
      case StringKind => v.Str? && v.s != ""
      case IntegerKind(lo, hi) => v.Num? && lo <= v.n <= hi && -MaxSafeInteger <= v.n <= MaxSafeInteger
      case BooleanKind => v.Bool?
  {
    match r.kind
    case StringKind =>
      if !v.Str? then Err(Label(r.key) + " must be a string")
      else if v.s == "" then Err(EmptyMessage(r))
      else Ok(v)
    case IntegerKind(lo, hi) =>
      if !v.Num? then Err(Label(r.key) + " must be a number")
      else if v.n < -MaxSafeInteger || v.n > MaxSafeInteger then Err(Label(r.key) + " must be a safe number")
      else if v.n < lo then Err(Label(r.key) + " must be greater than or equal to " + IntToString(lo))
      else if v.n > hi then Err(Label(r.key) + " must be less than or equal to " + IntToString(hi))
      else Ok(v)
    case BooleanKind =>
      if !v.Bool? then Err(Label(r.key) + " must be a boolean") else Ok(v)
  }

  /** One field: the value to store (`None`: the field stays absent), or the error message. */
  function CheckField(r: Rule, current: Container): (res: Result<Option<JsVal>, string>)
    ensures Field(current, r.key) == Undefined && IsRequired(r, current) ==> res == Err(RequiredMessage(r))
    ensures Field(current, r.key) == Undefined && !IsRequired(r, current) ==> res == Ok(r.default)
    ensures res.Ok? && Field(current, r.key) != Undefined ==> res.value == Some(Field(current, r.key))
    ensures res.Ok? && Field(current, r.key) != Undefined && r.valid.Some? ==>
      Field(current, r.key).Str? && Field(current, r.key).s in r.valid.value
  {
    var v := Field(current, r.key);
    if v == Undefined then
      if IsRequired(r, current) then Err(RequiredMessage(r)) else Ok(r.default)
    else if r.valid.Some? then
      if v.Str? && v.s in r.valid.value then Ok(Some(v)) else Err(OnlyMessage(r.key, r.valid.value))
    else
      match CheckKind(r, v)
      case Err(m) => Err(m)
      case Ok(w) => Ok(Some(w))
  }

  /** `schema.validate(value)`: the fields in order, stopping at the first error. Validation
      only adds defaults: every key keeps its place, and every value that is present stays. */
  function ValidateFields(schema: Schema, current: Container): (res: Result<Container, string>)
    decreases |schema|
    ensures res.Ok? ==> current.Keys <= res.value.Keys
    ensures res.Ok? ==> forall k :: k in current && current[k] != Undefined ==> res.value[k] == current[k]
  {
    if |schema| == 0 then Ok(current)
    else
      match CheckField(schema[0], current)
      case Err(m) => Err(m)
      case Ok(None) => ValidateFields(schema[1..], current)
      case Ok(Some(v)) => ValidateFields(schema[1..], current[schema[0].key := v])
  }

  /** A field that passes with a value to store: validation goes on with the rest of the
      schema on the updated object. */
  lemma StepSome(schema: Schema, cur: Container, v: JsVal)
    requires |schema| > 0 && CheckField(schema[0], cur) == Ok(Some(v))
    ensures ValidateFields(schema, cur) == ValidateFields(schema[1..], cur[schema[0].key := v])
  {
  }

  // ---------------------------------------------------------------------------
  // the route schemas

  const Periods := ["12mo", "6mo", "month", "30d", "7d", "day", "custom"]
  const Intervals := ["date", "month"]
  const Properties := [
    "visit:source", "visit:utm_source", "visit:utm_medium", "visit:utm_campaign",
    "visit:device", "visit:browser", "visit:os", "visit:country", "visit:region",
    "visit:city", "event:page", "event:name"]

  const SiteIdRequired := "Le site_id est requis"
  const ApiKeyRequired := "La clé API est requise"

  const SiteIdRule := Rule("site_id", StringKind, Required, None, None, None)
  const PeriodRule := Rule("period", StringKind, Optional, Some(Periods), Some(Str("7d")), None)
  const MetricsRule := Rule("metrics", StringKind, Optional, None, Some(Str("visitors")), None)
  const IntervalRule := Rule("interval", StringKind, Optional, Some(Intervals), Some(Str("date")), None)
  const DateRule := Rule("date", StringKind, RequiredWhen("period", Str("custom")), None, None, None)
  const PropertyRule := Rule("property", StringKind, Required, Some(Properties), None, None)
  const LimitRule := Rule("limit", IntegerKind(1, 100), Optional, None, Some(Num(10)), None)
  const AggregateMetricsRule := Rule("metrics", StringKind, Optional, None, Some(Str("visitors,pageviews,bounce_rate,visit_duration")), None)
  const CompareRule := Rule("compare", BooleanKind, Optional, None, Some(Bool(false)), None)
  const FiltersRule := Rule("filters", StringKind, Optional, None, None, None)
  const ApiKeyRule := Rule("api_key", StringKind, Required, None, None, Some(ApiKeyRequired))
  const CustomSiteIdRule := Rule("site_id", StringKind, Required, None, None, Some(SiteIdRequired))

  const RealtimeSchema: Schema := [CustomSiteIdRule]
  const TimeseriesSchema: Schema := [SiteIdRule, PeriodRule, MetricsRule, IntervalRule, DateRule]
  const BreakdownSchema: Schema := [SiteIdRule, PropertyRule, PeriodRule, MetricsRule, LimitRule]
  const AggregateSchema: Schema := [SiteIdRule, PeriodRule, AggregateMetricsRule, CompareRule, FiltersRule]
  const TestConnectionSchema: Schema := [ApiKeyRule, CustomSiteIdRule]

  // ---------------------------------------------------------------------------
  // properties of the field rules

  /** `period` is one of the seven periods, "7d" when absent (the same rule in every schema). */
  lemma PeriodField(cur: Container)
    ensures var v := Field(cur, "period");
      CheckField(PeriodRule, cur) == if v == Undefined then Ok(Some(Str("7d")))
        else if v.Str? && v.s in Periods then Ok(Some(v))
        else Err(OnlyMessage("period", Periods))
  {
  }

  /** `interval` is "date" or "month", "date" when absent; anything else is refused with the
      list of the two. */
  lemma IntervalField(cur: Container)
    ensures var v := Field(cur, "interval");
      CheckField(IntervalRule, cur) == if v == Undefined then Ok(Some(Str("date")))
        else if v == Str("date") || v == Str("month") then Ok(Some(v))
        else Err(OnlyMessage("interval", Intervals))
    ensures ListText(Intervals) == "date, month"
  {
    assert ListText(Intervals) == "date" + ", " + ListText(["month"]);
  }

  /** `date` is required exactly when the period is "custom", and is otherwise optional
      with no default. */
  lemma DateField(cur: Container)
    ensures Field(cur, "date") == Undefined && Field(cur, "period") == Str("custom") ==>
      CheckField(DateRule, cur) == Err("\"date\" is required")
    ensures Field(cur, "date") == Undefined && Field(cur, "period") != Str("custom") ==>
      CheckField(DateRule, cur) == Ok(None)
    ensures Field(cur, "date").Str? && Field(cur, "date").s != "" ==> CheckField(DateRule, cur) == Ok(Some(Field(cur, "date")))
  {
    assert RequiredMessage(DateRule) == "\"date\" is required";
  }

  /** `property` is required and must be one of the twelve properties. */
  lemma PropertyField(cur: Container)
    ensures Field(cur, "property") == Undefined ==> CheckField(PropertyRule, cur) == Err("\"property\" is required")
    ensures Field(cur, "property") != Undefined ==>
      (CheckField(PropertyRule, cur).Ok? <==> Field(cur, "property").Str? && Field(cur, "property").s in Properties)
    ensures |Properties| == 12
  {
    assert RequiredMessage(PropertyRule) == "\"property\" is required";
  }

  /** The bounds of `limit` as Joi writes them in its messages. */
  lemma LimitBoundsText()
    ensures IntToString(1) == "1" && IntToString(100) == "100"
  {
    assert IntToString(100) == "100" by {
      assert NatToString(100) == NatToString(10) + [DigitChar(0)];
      assert NatToString(10) == NatToString(1) + [DigitChar(0)];
    }
  }

  /** `limit` is an integer from 1 to 100, 10 when absent. */
  lemma LimitField(cur: Container)
    ensures Field(cur, "limit") == Undefined ==> CheckField(LimitRule, cur) == Ok(Some(Num(10)))
    ensures Field(cur, "limit") != Undefined ==>
      (CheckField(LimitRule, cur).Ok? <==> Field(cur, "limit").Num? && 1 <= Field(cur, "limit").n <= 100)
    ensures Field(cur, "limit") == Num(0) ==> CheckField(LimitRule, cur) == Err(Label("limit") + " must be greater than or equal to 1")
    ensures Field(cur, "limit") == Num(101) ==> CheckField(LimitRule, cur) == Err(Label("limit") + " must be less than or equal to 100")
  {
    LimitBoundsText();
    var l := Label("limit");
    assert l + " must be greater than or equal to " + "1" == l + " must be greater than or equal to 1";
    assert l + " must be less than or equal to " + "100" == l + " must be less than or equal to 100";
  }

  /** `compare` is a boolean, false when absent; `filters` is an optional string. */
  lemma CompareAndFiltersFields(cur: Container)
    ensures Field(cur, "compare") == Undefined ==> CheckField(CompareRule, cur) == Ok(Some(Bool(false)))
    ensures Field(cur, "compare") != Undefined ==> (CheckField(CompareRule, cur).Ok? <==> Field(cur, "compare").Bool?)
    ensures Field(cur, "filters") == Undefined ==> CheckField(FiltersRule, cur) == Ok(None)
  {
  }

  /** `site_id` is required by every schema, and the connection test also requires `api_key`;
      the realtime and connection-test schemas use their own French texts for both a missing
      and an empty value. */
  lemma SiteIdRequiredEverywhere(cur: Container)
    requires Field(cur, "site_id") == Undefined
    ensures ValidateFields(RealtimeSchema, cur) == Err(SiteIdRequired)
    ensures ValidateFields(TimeseriesSchema, cur) == Err("\"site_id\" is required")
    ensures ValidateFields(BreakdownSchema, cur) == Err("\"site_id\" is required")
    ensures ValidateFields(AggregateSchema, cur) == Err("\"site_id\" is required")
    ensures ValidateFields(TestConnectionSchema, cur).Err?
  {
    assert RequiredMessage(SiteIdRule) == "\"site_id\" is required";
    var r := TestConnectionSchema[0];
    match CheckField(r, cur)
    case Err(_) =>
    case Ok(v) =>
      assert v.Some?;
      var next := cur[r.key := v.value];
      assert Field(next, "site_id") == Undefined;
      assert ValidateFields(TestConnectionSchema, cur) == ValidateFields(TestConnectionSchema[1..], next);
  }

  /** The connection test checks `api_key` before `site_id`: a missing or empty key is
      reported whatever `site_id` holds. */
  lemma ApiKeyRequiredForTest(cur: Container)
    requires Field(cur, "api_key") == Undefined || Field(cur, "api_key") == Str("")
    ensures ValidateFields(TestConnectionSchema, cur) == Err(ApiKeyRequired)
  {
  }

  /** An empty `site_id` is refused: with the custom French text where the schema sets one,
      with Joi's 'string.empty' text elsewhere. */
  lemma EmptySiteId(cur: Container)
    requires Field(cur, "site_id") == Str("")
    ensures ValidateFields(RealtimeSchema, cur) == Err(SiteIdRequired)
    ensures ValidateFields(TimeseriesSchema, cur) == Err(Label("site_id") + " is not allowed to be empty")
    ensures Label("site_id") == "\"site_id\""
  {
  }

  // ---------------------------------------------------------------------------
  // whole schemas

  /** A timeseries query holding only `site_id` gets the three defaults. */
  lemma TimeseriesDefaults(site: string)
    requires site != ""
    ensures ValidateFields(TimeseriesSchema, map["site_id" := Str(site)])
      == Ok(map["site_id" := Str(site), "period" := Str("7d"), "metrics" := Str("visitors"), "interval" := Str("date")])
  {
    var c0 := map["site_id" := Str(site)];
    var c1 := c0["period" := Str("7d")];
    var c2 := c1["metrics" := Str("visitors")];
    var c3 := c2["interval" := Str("date")];
    assert c0["site_id" := Str(site)] == c0;
    assert Field(c3, "period") == Str("7d") && Field(c3, "date") == Undefined;
    assert ValidateFields(TimeseriesSchema[4..], c3) == Ok(c3);
    assert ValidateFields(TimeseriesSchema[3..], c2) == Ok(c3);
    assert ValidateFields(TimeseriesSchema[2..], c1) == Ok(c3);
    assert ValidateFields(TimeseriesSchema[1..], c0) == Ok(c3);
  }

  /** A breakdown query holding only `site_id` and a listed `property` gets the period,
      metrics and limit defaults. */
  lemma BreakdownDefaults(site: string, property: string)
    requires site != "" && property in Properties
    ensures ValidateFields(BreakdownSchema, map["site_id" := Str(site), "property" := Str(property)])
      == Ok(map["site_id" := Str(site), "property" := Str(property), "period" := Str("7d"), "metrics" := Str("visitors"), "limit" := Num(10)])
  {
    var c0 := map["site_id" := Str(site), "property" := Str(property)];
    var c1 := c0["period" := Str("7d")];
    var c2 := c1["metrics" := Str("visitors")];
    var c3 := c2["limit" := Num(10)];
    assert c0["site_id" := Str(site)] == c0 && c0["property" := Str(property)] == c0;
    assert ValidateFields(BreakdownSchema[4..], c2) == Ok(c3);
    assert ValidateFields(BreakdownSchema[3..], c1) == Ok(c3);
    assert ValidateFields(BreakdownSchema[2..], c0) == Ok(c3);
    assert ValidateFields(BreakdownSchema[1..], c0) == Ok(c3);
  }

  /** An aggregate query holding only `site_id` gets the period, the four-metric list and
      `compare: false`, and no `filters`. */
  lemma AggregateDefaults(site: string)
    requires site != ""
    ensures ValidateFields(AggregateSchema, map["site_id" := Str(site)])
      == Ok(map["site_id" := Str(site), "period" := Str("7d"),
                "metrics" := Str("visitors,pageviews,bounce_rate,visit_duration"), "compare" := Bool(false)])
  {
    var c0 := map["site_id" := Str(site)];
    var c1 := c0["period" := Str("7d")];
    var c2 := c1["metrics" := Str("visitors,pageviews,bounce_rate,visit_duration")];
    var c3 := c2["compare" := Bool(false)];
    assert c0["site_id" := Str(site)] == c0;
    assert Field(c3, "filters") == Undefined;
    assert ValidateFields(AggregateSchema[4..], c3) == Ok(c3);
    assert ValidateFields(AggregateSchema[3..], c2) == Ok(c3);
    assert ValidateFields(AggregateSchema[2..], c1) == Ok(c3);
    assert ValidateFields(AggregateSchema[1..], c0) == Ok(c3);
  }

  /** The timeseries query with its defaults filled in, as the first four rules leave it. */
  function TimeseriesDefaulted(cur: Container): Container {
    var period := if Field(cur, "period") == Undefined then Str("7d") else Field(cur, "period");
    var metrics := if Field(cur, "metrics") == Undefined then Str("visitors") else Field(cur, "metrics");
    var interval := if Field(cur, "interval") == Undefined then Str("date") else Field(cur, "interval");
    cur["period" := period]["metrics" := metrics]["interval" := interval]
  }

  /** A valid site, period, metrics and interval pass, with their defaults filled in. */
  lemma TimeseriesFirstFourRules(cur: Container)
    requires Field(cur, "site_id").Str? && Field(cur, "site_id").s != ""
    requires Field(cur, "period") == Undefined || (Field(cur, "period").Str? && Field(cur, "period").s in Periods)
    requires Field(cur, "metrics") == Undefined || (Field(cur, "metrics").Str? && Field(cur, "metrics").s != "")
    requires Field(cur, "interval") == Undefined || Field(cur, "interval") == Str("date") || Field(cur, "interval") == Str("month")
    ensures ValidateFields(TimeseriesSchema, cur) == ValidateFields([DateRule], TimeseriesDefaulted(cur))
  {
    var site := Field(cur, "site_id");
    var period := if Field(cur, "period") == Undefined then Str("7d") else Field(cur, "period");
    var metrics := if Field(cur, "metrics") == Undefined then Str("visitors") else Field(cur, "metrics");
    var interval := if Field(cur, "interval") == Undefined then Str("date") else Field(cur, "interval");
    var c1 := cur["period" := period];
    var c2 := c1["metrics" := metrics];
    assert CheckField(SiteIdRule, cur) == Ok(Some(site));
    assert cur["site_id" := site] == cur;
    StepSome(TimeseriesSchema, cur, site);
    PeriodField(cur);
    StepSome(TimeseriesSchema[1..], cur, period);
    assert Field(c1, "metrics") == Field(cur, "metrics");
    StepSome(TimeseriesSchema[2..], c1, metrics);
    assert Field(c2, "interval") == Field(cur, "interval");
    IntervalField(c2);
    StepSome(TimeseriesSchema[3..], c2, interval);
    assert TimeseriesSchema[4..] == [DateRule];
  }

  /** In an otherwise valid timeseries query without `date`, validation fails exactly when
      the period is "custom", and then with the 'any.required' text for `date`. */
  lemma TimeseriesDateRequiredIffCustom(cur: Container)
    requires Field(cur, "site_id").Str? && Field(cur, "site_id").s != ""
    requires Field(cur, "period") == Undefined || (Field(cur, "period").Str? && Field(cur, "period").s in Periods)
    requires Field(cur, "metrics") == Undefined || (Field(cur, "metrics").Str? && Field(cur, "metrics").s != "")
    requires Field(cur, "interval") == Undefined || Field(cur, "interval") == Str("date") || Field(cur, "interval") == Str("month")
    requires Field(cur, "date") == Undefined
    ensures ValidateFields(TimeseriesSchema, cur).Err? <==> Field(cur, "period") == Str("custom")
    ensures ValidateFields(TimeseriesSchema, cur).Err? ==> ValidateFields(TimeseriesSchema, cur).error == "\"date\" is required"
  {
    TimeseriesFirstFourRules(cur);
    var c := TimeseriesDefaulted(cur);
    assert Field(c, "date") == Undefined;
    assert Field(c, "period") == Str("custom") <==> Field(cur, "period") == Str("custom");
    DateField(c);
  }
}
