/**
Layered sampling parameters (backend/app/services/llm_config_service.py: `resolve_for_conversation`,
`_global_sampling_dict`, `_row_sampling`, `_merge_sampling`, `_resolve_merged_sampling`, `_same_deployment`,
`_sampling_sources`).

A dictionary of parameters is its values, each possibly null, and the set of names listed under
"model_defaults", if that entry is there at all.
*/
module Sampling {
  import opened Common

  type Name = string
  type Value = string

  datatype Params = Params(values: map<Name, Option<Value>>, defaults: Option<set<Name>>)

  function Listed(p: Params): set<Name> {
    if p.defaults.Some? then p.defaults.value else {}
  }

  // What one layer says about a name.  A value wins over a listing in the same layer.
  datatype Setting = Unset | ModelDefault | Given(value: Value)

  function SettingOf(p: Params, n: Name): Setting {
    if n in p.values && p.values[n].Some? then Given(p.values[n].value)
    else if n in Listed(p) then ModelDefault
    else Unset
  }

  function Override(base: Setting, over: Setting): Setting {
    if over.Unset? then base else over
  }

  // ------------------------------------------------------------------------------------------
  // Merging
  // ------------------------------------------------------------------------------------------

  function GivenNames(p: Params): set<Name> {
    set n | n in p.values && p.values[n].Some?
  }

  function Merge(base: Params, over: Params): Params {
    Params(
      map n | n in base.values.Keys + Listed(over) + GivenNames(over) ::
        if n in GivenNames(over) then over.values[n] else if n in Listed(over) then None else base.values[n],
      if base.defaults.Some? || over.defaults.Some? then Some((Listed(base) + Listed(over)) - GivenNames(over)) else None)
  }

  type Values = map<Name, Option<Value>>

  function Cleared(values: Values, names: set<Name>): Values {
    map n | n in values.Keys + names :: if n in names then None else values[n]
  }

  function WithGiven(values: Values, over: Params, names: set<Name>): Values {
    map n | n in values.Keys + (GivenNames(over) * names) ::
      if n in GivenNames(over) * names then over.values[n] else values[n]
  }

  // The loop over the listed names of the upper layer.
  method ClearListed(values: Values, defaults: set<Name>, listed: set<Name>) returns (values': Values, defaults': set<Name>)
    ensures values' == Cleared(values, listed) && defaults' == defaults + listed
  {
    values', defaults' := values, defaults;
    var todo := listed;
    while todo != {}
      invariant todo <= listed && values' == Cleared(values, listed - todo) && defaults' == defaults + (listed - todo)
      decreases todo
    {
      var n :| n in todo;
      values', defaults', todo := values'[n := None], defaults' + {n}, todo - {n};
    }
    assert listed - {} == listed;
  }

  // The loop over its entries.
  method SetGiven(values: Values, defaults: set<Name>, over: Params) returns (values': Values, defaults': set<Name>)
    ensures values' == WithGiven(values, over, over.values.Keys) && defaults' == defaults - GivenNames(over)
  {
    values', defaults' := values, defaults;
    var todo := over.values.Keys;
    while todo != {}
      invariant todo <= over.values.Keys
      invariant values' == WithGiven(values, over, over.values.Keys - todo)
      invariant defaults' == defaults - (GivenNames(over) - todo)
      decreases todo
    {
      var n :| n in todo;
      if over.values[n].Some? {
        values', defaults' := values'[n := over.values[n]], defaults' - {n};
      }
      todo := todo - {n};
    }
    assert over.values.Keys - {} == over.values.Keys;
  }

  /** `_merge_sampling`. */
  method MergeSampling(base: Params, over: Params) returns (merged: Params)
    ensures merged == Merge(base, over)
  {
    var values, defaults := ClearListed(base.values, Listed(base), Listed(over));
    values, defaults := SetGiven(values, defaults, over);
    merged := Params(values, if defaults != {} || base.defaults.Some? || over.defaults.Some? then Some(defaults) else None);
    assert merged.values == Merge(base, over).values;
  }

  /** Per name, a merge is last writer wins over {unset, model default, value}. */
  lemma {:induction false} MergeOverrides(base: Params, over: Params, n: Name)
    ensures SettingOf(Merge(base, over), n) == Override(SettingOf(base, n), SettingOf(over, n))
  {
  }

  lemma {:induction false} MergedParts(base: Params, over: Params)
    ensures GivenNames(Merge(base, over)) == (GivenNames(base) - Listed(over)) + GivenNames(over)
    ensures Listed(Merge(base, over)) == (Listed(base) + Listed(over)) - GivenNames(over)
    ensures Merge(base, over).values.Keys == base.values.Keys + Listed(over) + GivenNames(over)
  {
  }

  // The value a merge leaves at a name it has.
  function MergedValue(base: Values, over: Params, n: Name): Option<Value> {
    if n in GivenNames(over) then over.values[n]
    else if n in Listed(over) || n !in base then None
    else base[n]
  }

  lemma {:induction false} MergedValueIs(base: Params, over: Params, n: Name)
    requires n in Merge(base, over).values
    ensures Merge(base, over).values[n] == MergedValue(base.values, over, n)
  {
  }

  /** Merging is associative, as dictionaries and not just in effect. */
  lemma {:induction false} MergeIsAssociative(a: Params, b: Params, c: Params)
    ensures Merge(Merge(a, b), c) == Merge(a, Merge(b, c))
  {
    var left, right := Merge(Merge(a, b), c), Merge(a, Merge(b, c));
    MergedNamesAssociate(a, b, c);
    forall n | n in left.values ensures left.values[n] == right.values[n] {
      MergedValuesAssociate(a, b, c, n);
    }
    assert left.values == right.values;
  }

  lemma {:induction false} MergedNamesAssociate(a: Params, b: Params, c: Params)
    ensures Listed(Merge(Merge(a, b), c)) == Listed(Merge(a, Merge(b, c)))
    ensures Merge(Merge(a, b), c).values.Keys == Merge(a, Merge(b, c)).values.Keys
  {
    MergedParts(a, b);
    MergedParts(b, c);
    MergedParts(Merge(a, b), c);
    MergedParts(a, Merge(b, c));
  }

  lemma {:induction false} MergedValuesAssociate(a: Params, b: Params, c: Params, n: Name)
    requires n in Merge(Merge(a, b), c).values && n in Merge(a, Merge(b, c)).values
    ensures Merge(Merge(a, b), c).values[n] == Merge(a, Merge(b, c)).values[n]
  {
    MergedParts(a, b);
    MergedParts(b, c);
    MergedValueIs(Merge(a, b), c, n);
    MergedValueIs(a, Merge(b, c), n);
    if n in Merge(a, b).values {
      MergedValueIs(a, b, n);
    }
    if n in Merge(b, c).values {
      MergedValueIs(b, c, n);
    }
  }

  // A name that is left to the model has no value.
  predicate ListedHaveNoValue(p: Params) {
    forall n | n in Listed(p) :: n in p.values ==> p.values[n] == None
  }

  lemma {:induction false} MergeKeepsListedEmpty(base: Params, over: Params)
    requires ListedHaveNoValue(base)
    ensures ListedHaveNoValue(Merge(base, over))
  {
  }

  // ------------------------------------------------------------------------------------------
  // The parameters of one configuration row
  // ------------------------------------------------------------------------------------------

  datatype Format = OpenAiCompatible | OpenAiResponses | AnthropicMessages

  // `effort` is the reasoning effort nested in `extra`, if there is one.
  datatype Row = Row(enabled: bool, model: string, baseUrl: string, format: Format,
                     sampling: Params, extra: Values, effort: Option<Value>)

  datatype RowError = ConflictsWithDefault | SeveralBudgets

  const EXTRA_NAMES: seq<Name> := ["temperature", "frequency_penalty", "presence_penalty", "top_p", "repetition_penalty",
                                   "reasoning_effort", "stop", "seed", "parallel_tool_calls"]

  const BUDGET_NAMES: seq<Name> := ["max_tokens", "max_completion_tokens", "max_output_tokens"]

  function WithEffort(row: Row): Values {
    var v := row.sampling.values;
    if row.format != OpenAiCompatible && row.effort.Some? && ("reasoning_effort" !in v || v["reasoning_effort"].None?)
    then v["reasoning_effort" := row.effort] else v
  }

  function LimitsIn(names: seq<Name>, extra: Values): seq<Option<Value>> {
    if names == [] then []
    else
      var last := names[|names| - 1];
      LimitsIn(names[..|names| - 1], extra) + if last in extra then [extra[last]] else []
  }

  function ExtraIn(names: seq<Name>, extra: Values): set<Name> {
    set n | n in names && n in extra
  }

  function WithExtra(values: Values, names: set<Name>, extra: Values): Values
    requires names <= extra.Keys
  {
    map n | n in values.Keys + names :: if n in names then extra[n] else values[n]
  }

  // Old extra fields take the place of the sampling field; a budget may be given under one of three names.
  function RowSampling(row: Row): Result<Params, RowError> {
    var names := ExtraIn(EXTRA_NAMES, row.extra);
    var limits := LimitsIn(BUDGET_NAMES, row.extra);
    if names * Listed(row.sampling) != {} then Err(ConflictsWithDefault)
    else if |limits| > 1 then Err(SeveralBudgets)
    else
      var values := WithExtra(WithEffort(row), names, row.extra);
      Ok(Params(if |limits| == 1 then values["max_output_tokens" := limits[0]] else values, row.sampling.defaults))
  }

  // The loop over the extra fields; None if one of them is also left to the model.
  method ApplyExtra(row: Row) returns (r: Option<Values>)
    ensures r == if ExtraIn(EXTRA_NAMES, row.extra) * Listed(row.sampling) != {} then None
                 else Some(WithExtra(WithEffort(row), ExtraIn(EXTRA_NAMES, row.extra), row.extra))
  {
    var values := WithEffort(row);
    var i := 0;
    while i < |EXTRA_NAMES|
      invariant i <= |EXTRA_NAMES|
      invariant values == WithExtra(WithEffort(row), ExtraIn(EXTRA_NAMES[..i], row.extra), row.extra)
      invariant ExtraIn(EXTRA_NAMES[..i], row.extra) * Listed(row.sampling) == {}
    {
      var n := EXTRA_NAMES[i];
      OneMoreExtra(i, row.extra);
      if n in row.extra {
        if n in Listed(row.sampling) {
          assert n in ExtraIn(EXTRA_NAMES, row.extra) * Listed(row.sampling);
          return None;
        }
        OneMoreValue(WithEffort(row), ExtraIn(EXTRA_NAMES[..i], row.extra), row.extra, n);
        values := values[n := row.extra[n]];
      }
      i := i + 1;
    }
    assert EXTRA_NAMES[..i] == EXTRA_NAMES;
    r := Some(values);
  }

  method RowSamplingOf(row: Row) returns (r: Result<Params, RowError>)
    ensures r == RowSampling(row)
  {
    var extended := ApplyExtra(row);
    if extended.None? {
      return Err(ConflictsWithDefault);
    }
    var values := extended.value;
    var limits := LimitsIn(BUDGET_NAMES, row.extra);
    if |limits| > 1 {
      return Err(SeveralBudgets);
    }
    if |limits| == 1 {
      values := values["max_output_tokens" := limits[0]];
    }
    r := Ok(Params(values, row.sampling.defaults));
  }

  lemma {:induction false} OneMoreValue(values: Values, names: set<Name>, extra: Values, n: Name)
    requires names <= extra.Keys && n in extra
    ensures WithExtra(values, names + {n}, extra) == WithExtra(values, names, extra)[n := extra[n]]
  {
  }

  lemma {:induction false} OneMoreExtra(i: nat, extra: Values)
    requires i < |EXTRA_NAMES|
    ensures ExtraIn(EXTRA_NAMES[..i + 1], extra) ==
      ExtraIn(EXTRA_NAMES[..i], extra) + if EXTRA_NAMES[i] in extra then {EXTRA_NAMES[i]} else {}
  {
    assert EXTRA_NAMES[..i + 1] == EXTRA_NAMES[..i] + [EXTRA_NAMES[i]];
  }

  // The names under which a budget may be given.
  predicate IsBudget(n: Name) {
    n == "max_tokens" || n == "max_completion_tokens" || n == "max_output_tokens"
  }

  // The old extra fields that still count as parameters.
  predicate IsExtra(n: Name) {
    || n == "temperature" || n == "frequency_penalty" || n == "presence_penalty" || n == "top_p" || n == "repetition_penalty"
    || n == "reasoning_effort" || n == "stop" || n == "seed" || n == "parallel_tool_calls"
  }

  lemma {:induction false} ExtraNamesAre(n: Name)
    ensures n in EXTRA_NAMES <==> IsExtra(n)
    ensures n in BUDGET_NAMES <==> IsBudget(n)
  {
    assert EXTRA_NAMES[0] == "temperature" && EXTRA_NAMES[1] == "frequency_penalty" && EXTRA_NAMES[2] == "presence_penalty";
    assert EXTRA_NAMES[3] == "top_p" && EXTRA_NAMES[4] == "repetition_penalty" && EXTRA_NAMES[5] == "reasoning_effort";
    assert EXTRA_NAMES[6] == "stop" && EXTRA_NAMES[7] == "seed" && EXTRA_NAMES[8] == "parallel_tool_calls";
    assert BUDGET_NAMES[0] == "max_tokens" && BUDGET_NAMES[1] == "max_completion_tokens" && BUDGET_NAMES[2] == "max_output_tokens";
  }

  function OneLimit(extra: Values, n: Name): seq<Option<Value>> {
    if n in extra then [extra[n]] else []
  }

  lemma {:induction false} LimitsAre(extra: Values)
    ensures LimitsIn(BUDGET_NAMES, extra) ==
      OneLimit(extra, "max_tokens") + OneLimit(extra, "max_completion_tokens") + OneLimit(extra, "max_output_tokens")
  {
    var two := ["max_tokens", "max_completion_tokens"];
    assert BUDGET_NAMES[..2] == two && two[..1] == ["max_tokens"] && ["max_tokens"][..0] == [];
    assert LimitsIn(["max_tokens"], extra) == OneLimit(extra, "max_tokens");
    assert LimitsIn(two, extra) == OneLimit(extra, "max_tokens") + OneLimit(extra, "max_completion_tokens");
  }

  // No name is both an extra field and left to the model, and at most one budget is given.
  predicate RowIsClear(row: Row) {
    NoneListed(row) && OneBudget(row)
  }

  // What a row says about a parameter: a budget of the extra fields; else an extra field; else its sampling,
  // where an effort nested in the extra fields stands in for a missing one, except in the oldest format.
  predicate RowSays(row: Row, values: Values, n: Name) {
    if n == "max_output_tokens" && exists b :: IsBudget(b) && b in row.extra then
      n in values && exists b :: IsBudget(b) && b in row.extra && values[n] == row.extra[b]
    else if IsExtra(n) && n in row.extra then n in values && values[n] == row.extra[n]
    else if n == "reasoning_effort" && row.effort.Some? && row.format != OpenAiCompatible
            && !(n in row.sampling.values && row.sampling.values[n].Some?) then n in values && values[n] == row.effort
    else (n in values <==> n in row.sampling.values) && (n in values ==> values[n] == row.sampling.values[n])
  }

  predicate NoneListed(row: Row) {
    forall n | IsExtra(n) && n in row.extra :: n !in Listed(row.sampling)
  }

  predicate OneBudget(row: Row) {
    forall n, m | IsBudget(n) && IsBudget(m) && n in row.extra && m in row.extra :: n == m
  }

  lemma {:induction false} NoneListedIs(row: Row)
    ensures NoneListed(row) <==> ExtraIn(EXTRA_NAMES, row.extra) * Listed(row.sampling) == {}
  {
    var both := ExtraIn(EXTRA_NAMES, row.extra) * Listed(row.sampling);
    forall n ensures n in both <==> IsExtra(n) && n in row.extra && n in Listed(row.sampling) {
      ExtraNamesAre(n);
    }
    if n :| n in both {
    } else {
      assert both == {};
    }
  }

  lemma {:induction false} OneBudgetIs(row: Row)
    ensures OneBudget(row) <==> |LimitsIn(BUDGET_NAMES, row.extra)| <= 1
  {
    LimitsAre(row.extra);
    assert IsBudget("max_tokens") && IsBudget("max_completion_tokens") && IsBudget("max_output_tokens");
  }

  lemma {:induction false} ClearRows(row: Row)
    ensures RowSampling(row).Ok? <==> RowIsClear(row)
  {
    NoneListedIs(row);
    OneBudgetIs(row);
  }

  /** A row is accepted exactly if it is clear, and then says of each parameter what its fields say. */
  lemma {:induction false} RowsMeanWhatTheySay(row: Row, n: Name)
    ensures RowSampling(row).Ok? <==> RowIsClear(row)
    ensures RowSampling(row).Ok? ==> RowSays(row, RowSampling(row).value.values, n)
    ensures RowSampling(row).Ok? ==> RowSampling(row).value.defaults == row.sampling.defaults
  {
    ClearRows(row);
    LimitsAre(row.extra);
    ExtraNamesAre(n);
    assert IsBudget("max_tokens") && IsBudget("max_completion_tokens") && IsBudget("max_output_tokens");
  }

  // ------------------------------------------------------------------------------------------
  // Which rows take part
  // ------------------------------------------------------------------------------------------

  // The environment's defaults; they apply to the globally configured model only.
  datatype Settings = Settings(model: string, baseUrl: string, temperature: Option<Value>,
                               frequencyPenalty: Option<Value>, presencePenalty: Option<Value>)

  function Stripped(url: string): string {
    if url != "" && url[|url| - 1] == '/' then Stripped(url[..|url| - 1]) else url
  }

  // The deployment a row or a resolved configuration points at; an empty revision is none.
  datatype Deployment = Deployment(model: string, baseUrl: string, format: Format, revision: string)

  function RevisionOf(p: Params): string {
    if "deployment_revision" in p.values && p.values["deployment_revision"].Some?
    then p.values["deployment_revision"].value else ""
  }

  function DeploymentOf(row: Row, p: Params): Deployment {
    Deployment(row.model, row.baseUrl, row.format, RevisionOf(p))
  }

  predicate SameDeployment(a: Deployment, b: Deployment) {
    && a.model == b.model && Stripped(a.baseUrl) == Stripped(b.baseUrl) && a.format == b.format
    && !(a.revision != "" && b.revision != "" && a.revision != b.revision)
  }

  // `target` resolved, with the parameters `p`, is the deployment of the row.
  predicate Fits(row: Row, target: Row, p: Params) {
    SameDeployment(DeploymentOf(row, row.sampling), DeploymentOf(target, p))
  }

  function GlobalSampling(settings: Settings, target: Option<Row>): Params {
    var applicable := target.None? ||
      (target.value.model == settings.model && Stripped(target.value.baseUrl) == Stripped(settings.baseUrl)
       && target.value.format == OpenAiCompatible);
    Params(map["temperature" := if applicable then settings.temperature else None,
               "frequency_penalty" := if applicable then settings.frequencyPenalty else None,
               "presence_penalty" := if applicable then settings.presencePenalty else None,
               "top_p" := None, "repetition_penalty" := None, "reasoning_effort" := None],
           None)
  }

  predicate Enabled(row: Option<Row>) {
    row.Some? && row.value.enabled
  }

  function MergeRow(base: Result<Params, RowError>, row: Row): Result<Params, RowError> {
    if base.Err? then base
    else
      var sampling := RowSampling(row);
      if sampling.Err? then sampling else Ok(Merge(base.value, sampling.value))
  }

  // `resolve_for_conversation`, the parameters of the request.
  function RuntimeSampling(settings: Settings, platform: Option<Row>, user: Option<Row>): Result<Params, RowError> {
    if !Enabled(user) && !Enabled(platform) then Ok(GlobalSampling(settings, None))
    else
      var main := if Enabled(user) then user.value else platform.value;
      var own := RowSampling(main);
      if own.Err? then own
      else
        var base := GlobalSampling(settings, Some(main));
        var withPlatform :=
          if Enabled(platform) && Fits(platform.value, main, own.value) then MergeRow(Ok(base), platform.value) else Ok(base);
        if Enabled(user) then MergeRow(withPlatform, user.value) else withPlatform
  }

  // `_resolve_merged_sampling`, the parameters shown to the user.
  function SummarySampling(settings: Settings, platform: Option<Row>, user: Option<Row>): Result<Params, RowError> {
    var target := if Enabled(user) then user else platform;
    var base := GlobalSampling(settings, if Enabled(target) then target else None);
    var withPlatform :=
      if Enabled(platform) && (target.None? || Fits(platform.value, target.value, target.value.sampling))
      then MergeRow(Ok(base), platform.value) else Ok(base);
    if Enabled(user) then MergeRow(withPlatform, user.value) else withPlatform
  }

  // Taking in the extra fields leaves the deployment revision alone.
  lemma {:induction false} RevisionUntouched(row: Row)
    requires RowSampling(row).Ok?
    ensures SettingOf(RowSampling(row).value, "deployment_revision") == SettingOf(row.sampling, "deployment_revision")
    ensures RevisionOf(RowSampling(row).value) == RevisionOf(row.sampling)
  {
    assert "deployment_revision" !in ExtraIn(EXTRA_NAMES, row.extra);
  }

  /** Both give the same parameters for the same rows, and both fail on the same rows. */
  lemma {:induction false} SummaryShowsRuntime(settings: Settings, platform: Option<Row>, user: Option<Row>)
    ensures RuntimeSampling(settings, platform, user).Ok? <==> SummarySampling(settings, platform, user).Ok?
    ensures RuntimeSampling(settings, platform, user).Ok? ==>
      RuntimeSampling(settings, platform, user) == SummarySampling(settings, platform, user)
  {
    if Enabled(user) && RowSampling(user.value).Ok? {
      RevisionUntouched(user.value);
    }
    if Enabled(platform) && RowSampling(platform.value).Ok? {
      RevisionUntouched(platform.value);
    }
  }

  // ------------------------------------------------------------------------------------------
  // Where each parameter comes from
  // ------------------------------------------------------------------------------------------

  datatype Label = Platform | User

  datatype Source = Global | ModelsOwn | FromLayer(layer: Label) | DefaultByLayer(layer: Label)

  type Sources = map<Name, Source>

  function BaseSources(p: Params): Sources {
    map n | n in p.values :: if p.values[n].None? then ModelsOwn else Global
  }

  function LayerSources(sources: Sources, layer: Label, p: Params): Sources {
    map n | n in sources.Keys + Listed(p) + GivenNames(p) ::
      if n in GivenNames(p) then FromLayer(layer) else if n in Listed(p) then DefaultByLayer(layer) else sources[n]
  }

  // A row takes part if it is enabled and fits the resolved deployment with the merged parameters.
  function AddRow(sources: Sources, layer: Label, row: Option<Row>, target: Row, merged: Params): Sources {
    if Enabled(row) && Fits(row.value, target, merged) && RowSampling(row.value).Ok?
    then LayerSources(sources, layer, RowSampling(row.value).value) else sources
  }

  function SamplingSources(merged: Params, platform: Option<Row>, user: Option<Row>, target: Row): Sources {
    AddRow(AddRow(BaseSources(merged), Platform, platform, target, merged), User, user, target, merged)
  }

  function Marked(sources: Sources, names: set<Name>, mark: Source): Sources {
    map n | n in sources.Keys + names :: if n in names then mark else sources[n]
  }

  method MarkAll(sources: Sources, names: set<Name>, mark: Source) returns (sources': Sources)
    ensures sources' == Marked(sources, names, mark)
  {
    sources' := sources;
    var todo := names;
    while todo != {}
      invariant todo <= names && sources' == Marked(sources, names - todo, mark)
      decreases todo
    {
      var n :| n in todo;
      sources', todo := sources'[n := mark], todo - {n};
    }
    assert names - {} == names;
  }

  /** The inner loops of `_sampling_sources` for one row. */
  method AddLayer(sources: Sources, layer: Label, p: Params) returns (sources': Sources)
    ensures sources' == LayerSources(sources, layer, p)
  {
    sources' := MarkAll(sources, Listed(p), DefaultByLayer(layer));
    sources' := MarkAll(sources', GivenNames(p), FromLayer(layer));
    assert sources'.Keys == LayerSources(sources, layer, p).Keys;
  }

  // The setting of a layer that takes part, or none.
  function LayerSetting(row: Option<Row>, takesPart: bool, n: Name): Setting {
    if row.Some? && takesPart && RowSampling(row.value).Ok? then SettingOf(RowSampling(row.value).value, n) else Unset
  }

  // The highest layer that says anything about a name, and what it says.
  function Supplier(platform: Setting, user: Setting, merged: Option<Value>): Source {
    match user
    case Given(_) => FromLayer(User)
    case ModelDefault => DefaultByLayer(User)
    case Unset =>
      match platform
      case Given(_) => FromLayer(Platform)
      case ModelDefault => DefaultByLayer(Platform)
      case Unset => if merged.None? then ModelsOwn else Global
  }

  // The platform row is merged exactly when it fits the row that was chosen.
  predicate PlatformMerged(platform: Option<Row>, main: Row) {
    Enabled(platform) && Fits(platform.value, main, main.sampling)
  }

  /** The report judges the rows against the merged parameters and not against the chosen row; it still
      covers exactly the rows that were merged. */
  lemma {:induction false} SameRowsReported(settings: Settings, platform: Option<Row>, user: Option<Row>)
    requires RuntimeSampling(settings, platform, user).Ok? && (Enabled(user) || Enabled(platform))
    ensures var main := if Enabled(user) then user.value else platform.value;
      var merged := RuntimeSampling(settings, platform, user).value;
      && (Enabled(platform) && Fits(platform.value, main, merged) <==> PlatformMerged(platform, main))
      && (Enabled(user) ==> Fits(user.value, main, merged))
  {
    var main := if Enabled(user) then user.value else platform.value;
    var base := GlobalSampling(settings, Some(main));
    RevisionUntouched(main);
    if PlatformMerged(platform, main) {
      RevisionUntouched(platform.value);
      MergeOverrides(base, RowSampling(platform.value).value, "deployment_revision");
      if Enabled(user) {
        MergeOverrides(Merge(base, RowSampling(platform.value).value), RowSampling(user.value).value, "deployment_revision");
      }
    } else {
      MergeOverrides(base, RowSampling(main).value, "deployment_revision");
    }
  }

  function Reported(below: Source, layer: Label, setting: Setting): Source {
    match setting
    case Given(_) => FromLayer(layer)
    case ModelDefault => DefaultByLayer(layer)
    case Unset => below
  }

  lemma {:induction false} AddRowReports(sources: Sources, layer: Label, row: Option<Row>, target: Row, merged: Params, n: Name)
    requires n in sources
    ensures var takesPart := Enabled(row) && Fits(row.value, target, merged);
      && n in AddRow(sources, layer, row, target, merged)
      && AddRow(sources, layer, row, target, merged)[n] == Reported(sources[n], layer, LayerSetting(row, takesPart, n))
  {
  }

  /** The effective setting of a parameter: environment, then platform if it was merged, then user. */
  lemma {:induction false} EffectiveSetting(settings: Settings, platform: Option<Row>, user: Option<Row>, n: Name)
    requires RuntimeSampling(settings, platform, user).Ok? && (Enabled(user) || Enabled(platform))
    ensures var main := if Enabled(user) then user.value else platform.value;
      SettingOf(RuntimeSampling(settings, platform, user).value, n) ==
        Override(Override(SettingOf(GlobalSampling(settings, Some(main)), n), LayerSetting(platform, PlatformMerged(platform, main), n)),
                 LayerSetting(user, Enabled(user), n))
  {
    var main := if Enabled(user) then user.value else platform.value;
    var base := GlobalSampling(settings, Some(main));
    RevisionUntouched(main);
    if PlatformMerged(platform, main) {
      MergeOverrides(base, RowSampling(platform.value).value, n);
      if Enabled(user) {
        MergeOverrides(Merge(base, RowSampling(platform.value).value), RowSampling(user.value).value, n);
      }
    } else {
      MergeOverrides(base, RowSampling(main).value, n);
    }
  }

  /** For every parameter the report names the layer that supplied the effective value: the highest one that
      gives a value or leaves the parameter to the model; if there is none, the environment or the model itself. */
  lemma {:induction false} SourcesNameSupplier(settings: Settings, platform: Option<Row>, user: Option<Row>, n: Name)
    requires RuntimeSampling(settings, platform, user).Ok? && (Enabled(user) || Enabled(platform))
    requires n in RuntimeSampling(settings, platform, user).value.values
    ensures var main := if Enabled(user) then user.value else platform.value;
      var merged := RuntimeSampling(settings, platform, user).value;
      var p := LayerSetting(platform, PlatformMerged(platform, main), n);
      var u := LayerSetting(user, Enabled(user), n);
      var sources := SamplingSources(merged, platform, user, main);
      && n in sources && sources[n] == Supplier(p, u, merged.values[n])
  {
    var main := if Enabled(user) then user.value else platform.value;
    var merged := RuntimeSampling(settings, platform, user).value;
    SameRowsReported(settings, platform, user);
    var base := BaseSources(merged);
    AddRowReports(base, Platform, platform, main, merged, n);
    AddRowReports(AddRow(base, Platform, platform, main, merged), User, user, main, merged, n);
  }

  /** The highest layer that speaks decides: the user's row, then the platform's if it fits, then the environment. */
  lemma {:induction false} HighestLayerDecides(settings: Settings, platform: Option<Row>, user: Option<Row>, n: Name)
    requires RuntimeSampling(settings, platform, user).Ok? && (Enabled(user) || Enabled(platform))
    requires n in RuntimeSampling(settings, platform, user).value.values
    ensures var main := if Enabled(user) then user.value else platform.value;
      var value := RuntimeSampling(settings, platform, user).value.values[n];
      var p := LayerSetting(platform, PlatformMerged(platform, main), n);
      var u := LayerSetting(user, Enabled(user), n);
      && (u.Given? ==> value == Some(u.value))
      && (u.ModelDefault? ==> value == None)
      && (u.Unset? && p.Given? ==> value == Some(p.value))
      && (u.Unset? && p.ModelDefault? ==> value == None)
      && (u.Unset? && p.Unset? ==>
            SettingOf(RuntimeSampling(settings, platform, user).value, n) == SettingOf(GlobalSampling(settings, Some(main)), n))
  {
    EffectiveSetting(settings, platform, user, n);
  }

  // The row points at the globally configured model.
  predicate IsGlobalModel(settings: Settings, row: Row) {
    row.model == settings.model && Stripped(row.baseUrl) == Stripped(settings.baseUrl) && row.format == OpenAiCompatible
  }

  /** The environment's values reach requests without a row and rows of the globally configured model, and no other;
      whatever is not configured is left to the model. */
  lemma {:induction false} EnvironmentReachesItsModel(settings: Settings, row: Option<Row>)
    ensures var values := GlobalSampling(settings, row).values;
      && values.Keys == {"temperature", "frequency_penalty", "presence_penalty", "top_p", "repetition_penalty", "reasoning_effort"}
      && values["top_p"] == values["repetition_penalty"] == values["reasoning_effort"] == None
      && (row.None? || IsGlobalModel(settings, row.value) ==>
            && values["temperature"] == settings.temperature && values["frequency_penalty"] == settings.frequencyPenalty
            && values["presence_penalty"] == settings.presencePenalty)
      && (row.Some? && !IsGlobalModel(settings, row.value) ==> forall n | n in values :: values[n] == None)
    ensures !Enabled(row) ==> RuntimeSampling(settings, None, row) == Ok(GlobalSampling(settings, None))
  {
  }

  /** URLs are compared without the slashes at their end. */
  lemma {:induction false} StrippedIs(url: string)
    ensures Stripped(url) <= url && (Stripped(url) != "" ==> url[|Stripped(url)| - 1] != '/')
    ensures forall i | |Stripped(url)| <= i < |url| :: url[i] == '/'
  {
    if url != "" && url[|url| - 1] == '/' {
      StrippedIs(url[..|url| - 1]);
    }
  }

  /** Who takes part: an enabled user's row always; an enabled platform's row if it points at the same model, URL and
      format as the row that was chosen, and the two do not name different revisions of the deployment. */
  lemma {:induction false} PlatformTakesPart(platform: Row, main: Row)
    ensures PlatformMerged(Some(platform), main) <==>
      && platform.enabled && platform.model == main.model && platform.format == main.format
      && Stripped(platform.baseUrl) == Stripped(main.baseUrl)
      && match (SettingOf(platform.sampling, "deployment_revision"), SettingOf(main.sampling, "deployment_revision"))
         case (Given(a), Given(b)) => a == "" || b == "" || a == b
         case _ => true
    ensures Enabled(Some(main)) <==> main.enabled
    ensures !Enabled(None)
  {
  }
}
