/** The four section resolvers `validate_variables`, `validate_providers`,
    `validate_control_planes` and `validate_generic_resources`. Each turns
    every expected record into one ValidationResult: check the identifying
    field, look up the actual node, apply the `should_not_exist` /
    `count_only` modifiers, strip identifying and control fields, compare
    with `is_subset`. */
module Resolvers {
  import opened Wrappers
  import opened Text
  import opened Values
  import opened Subset
  import opened Mismatch

  /** Outcome of one expected record. In `expected` and `actual`, Null is
      Python's None (the default), as the source cannot tell them apart. */
  datatype ValidationResult = ValidationResult(
    found: bool,
    message: string,
    detail: Option<string>,
    expected: Json,
    actual: Json)

  datatype SectionValidation = SectionValidation(
    allFound: bool,
    results: seq<ValidationResult>,
    summary: string)

  /** A found result carries no detail: details explain failures. */
  predicate Consistent(r: ValidationResult) {
    r.found ==> r.detail.None?
  }

  function Failed(message: string, detail: Option<string>): ValidationResult {
    ValidationResult(false, message, detail, Null, Null)
  }

  function InvalidMessage(field: string): string {
    "❌ Invalid test configuration: missing '" + field + "'"
  }

  /** `expected.get(flag, False)`, tested for truth. */
  predicate Flag(rec: Fields, flag: string) {
    Truthy(GetOr(rec, flag, Bool(false)))
  }

  function ReasonText(reason: Option<string>): string {
    match reason
    case Some(s) => s
    case None => "None"
  }

  /** The detail of a property mismatch: both sides and the explainer's reason. */
  function MismatchDetail(props: Fields, node: Json): string {
    "Expected:\n" + Render(Obj(props)) + "\nActual:\n" + Render(node)
    + "\nReason: " + ReasonText(Reason(Obj(props), node, ""))
  }

  /** The not-found, count-only and property steps that the variable,
      control-plane and resource checks share; `subject` names the record
      in messages and `kind` says what was not found. */
  function Judge(subject: string, kind: string, notFoundDetail: string,
                 props: Fields, node: Json, countOnly: bool): (r: ValidationResult)
    ensures Consistent(r)
    ensures node.Null? ==> !r.found && r.detail == Some(notFoundDetail)
    ensures !node.Null? && countOnly ==> r.found
    ensures !node.Null? && !countOnly ==> r.found == IsSubset(Obj(props), node)
    ensures !r.found && !node.Null? ==> r.detail == Some(MismatchDetail(props, node))
  {
    if node.Null? then
      Failed("❌ " + subject + " missing (" + kind + " not found)", Some(notFoundDetail))
    else if countOnly then
      ValidationResult(true, "✅ " + subject + " exists", None, Null, Null)
    else if IsSubset(Obj(props), node) then
      ValidationResult(true, "✅ " + subject + " found with matching properties", None, Null, Null)
    else
      Failed("❌ " + subject + " missing (properties don't match)", Some(MismatchDetail(props, node)))
  }

  // ---------------------------------------------------------------------
  // Variables

  const VariableControlKeys: seq<string> := ["variable_name", "count_only", "should_not_exist"]

  /** `actual_config.get("variable", {})`. */
  function VariablesNode(actual: Fields): Json {
    GetOr(actual, "variable", Obj([]))
  }

  /** One iteration of the loop in `validate_variables`. */
  function CheckVariable(rec: Fields, vars: Json): (r: Result<ValidationResult, PyException>)
    ensures r.Success? ==> Consistent(r.value)
    ensures !HasKey(rec, "variable_name") ==>
      r.Success? && !r.value.found && r.value.message == InvalidMessage("variable_name")
    ensures HasKey(rec, "variable_name") ==>
      var lookup := PyGet(vars, Lookup(rec, "variable_name").value, Null);
      && (r.Failure? <==> lookup.Failure?)
      && (r.Success? && Flag(rec, "should_not_exist") ==> (r.value.found <==> lookup.value.Null?))
      && (r.Success? && !Flag(rec, "should_not_exist") && lookup.value.Null? ==> !r.value.found)
      && (r.Success? && !Flag(rec, "should_not_exist") && !lookup.value.Null? && Flag(rec, "count_only") ==> r.value.found)
      && (r.Success? && !Flag(rec, "should_not_exist") && !lookup.value.Null? && !Flag(rec, "count_only") ==>
            r.value.found == IsSubset(Obj(Without(rec, VariableControlKeys)), lookup.value))
  {
    if !HasKey(rec, "variable_name") then
      Success(Failed(InvalidMessage("variable_name"), Some("Expected variable config: " + Render(Obj(rec)))))
    else
      var name := Lookup(rec, "variable_name").value;
      var countOnly := Flag(rec, "count_only");
      var shouldNotExist := Flag(rec, "should_not_exist");
      match PyGet(vars, name, Null)
      case Failure(x) => Failure(x)
      case Success(node) =>
        var props := Without(rec, VariableControlKeys);
        var n := PyStr(name);
        if shouldNotExist then
          if node.Null? then
            Success(ValidationResult(true, "✅ Variable " + n + " does not exist as expected", None, Null, node))
          else
            Success(ValidationResult(false, "❌ Variable " + n + " exists but should not",
                                     Some("Variable found: " + Render(node)), Null, node))
        else
          var r := Judge("Variable " + n, "variable", "Variable not found in actual config", props, node, countOnly);
          Success(r.(expected := if countOnly then Null else Obj(props), actual := node))
  }

  // ---------------------------------------------------------------------
  // Providers

  const SupportedProviders: seq<string> := ["konnect", "aws", "vault"]

  /** `provider_name in supported_providers`, a membership test by `==`. */
  predicate IsSupported(name: Json) {
    exists i | 0 <= i < |SupportedProviders| :: PyEq(name, Str(SupportedProviders[i]))
  }

  /** `actual_config.get("provider", {})`. */
  function ProvidersNode(actual: Fields): Json {
    GetOr(actual, "provider", Obj([]))
  }

  /** A provider block is a list of instances or a single instance. */
  function Instances(config: Json): seq<Json> {
    if config.Arr? then config.items else [config]
  }

  /** `p.get("alias") == expected_alias`, when `p` is a dict. */
  predicate AliasIs(p: Json, alias: Json) {
    p.Obj? && PyEq(GetOr(p.fields, "alias", Null), alias)
  }

  /** `[p for p in configs if p.get("alias") == alias]`: raises at the first
      instance that is not a dict; otherwise keeps, in order, the instances
      whose alias equals the expected one. */
  function AliasMatches(configs: seq<Json>, alias: Json): Result<seq<Json>, PyException> {
    if configs == [] then Success([])
    else
      var n := |configs| - 1;
      match AliasMatches(configs[..n], alias)
      case Failure(x) => Failure(x)
      case Success(kept) =>
        match PyGet(configs[n], Str("alias"), Null)
        case Failure(x) => Failure(x)
        case Success(a) => Success(if PyEq(a, alias) then kept + [configs[n]] else kept)
  }

  /** The filter raises exactly when some instance is not a dict, and then
      with the first such instance. */
  lemma {:induction false} AliasMatchesRaises(configs: seq<Json>, alias: Json)
    ensures AliasMatches(configs, alias).Success? <==> forall i | 0 <= i < |configs| :: configs[i].Obj?
    ensures AliasMatches(configs, alias).Failure? ==>
      exists i | 0 <= i < |configs| ::
        && AliasMatches(configs, alias).error == NoGetAttribute(configs[i])
        && !configs[i].Obj?
        && forall j | 0 <= j < i :: configs[j].Obj?
  {
    if configs != [] {
      var n := |configs| - 1;
      AliasMatchesRaises(configs[..n], alias);
      assert forall i | 0 <= i < n :: configs[..n][i] == configs[i];
    }
  }

  /** On success the filter keeps exactly the instances whose alias equals
      the expected one. */
  lemma {:induction false} AliasMatchesKeeps(configs: seq<Json>, alias: Json)
    requires AliasMatches(configs, alias).Success?
    ensures forall x | x in AliasMatches(configs, alias).value :: x in configs && AliasIs(x, alias)
    ensures forall x | x in configs && AliasIs(x, alias) :: x in AliasMatches(configs, alias).value
  {
    if configs != [] {
      var n := |configs| - 1;
      var front, last := configs[..n], configs[n];
      assert configs == front + [last];
      AliasMatchesKeeps(front, alias);
      var kept := AliasMatches(front, alias).value;
      assert last.Obj?;
      if AliasIs(last, alias) {
        assert AliasMatches(configs, alias).value == kept + [last];
      } else {
        assert AliasMatches(configs, alias).value == kept;
      }
    }
  }

  /** On success the first kept instance is the first instance whose alias
      equals the expected one: the one the provider check compares. */
  lemma {:induction false} AliasMatchesFirst(configs: seq<Json>, alias: Json)
    requires AliasMatches(configs, alias).Success? && AliasMatches(configs, alias).value != []
    ensures exists i | 0 <= i < |configs| ::
      && AliasMatches(configs, alias).value[0] == configs[i]
      && AliasIs(configs[i], alias)
      && forall j | 0 <= j < i :: !AliasIs(configs[j], alias)
  {
    var n := |configs| - 1;
    var front, last := configs[..n], configs[n];
    assert configs == front + [last];
    var kept := AliasMatches(front, alias).value;
    assert last.Obj?;
    if kept != [] {
      AliasMatchesFirst(front, alias);
      var i :| 0 <= i < |front| && kept[0] == front[i] && AliasIs(front[i], alias)
               && forall j | 0 <= j < i :: !AliasIs(front[j], alias);
      assert configs[i] == front[i];
      assert forall j | 0 <= j < i :: configs[j] == front[j];
    } else {
      AliasMatchesKeeps(front, alias);
      assert forall j | 0 <= j < n :: !AliasIs(configs[j], alias) by {
        forall j | 0 <= j < n ensures !AliasIs(configs[j], alias) {
          assert configs[j] == front[j] && front[j] in front;
        }
      }
    }
  }

  /** The filter raises at the first instance that is not a dict. */
  lemma FirstNonDictRaises(configs: seq<Json>, alias: Json, i: nat)
    requires i < |configs| && !configs[i].Obj?
    requires forall j | 0 <= j < i :: configs[j].Obj?
    ensures AliasMatches(configs, alias) == Failure(NoGetAttribute(configs[i]))
  {
    AliasMatchesRaises(configs, alias);
    var r := AliasMatches(configs, alias);
    var k :| 0 <= k < |configs| && r.error == NoGetAttribute(configs[k]) && !configs[k].Obj?
             && forall j | 0 <= j < k :: configs[j].Obj?;
    assert k == i;
  }

  /** The candidate instances: all of them, or only those with the
      expected alias when the record names a (truthy) alias. */
  function Candidates(configs: seq<Json>, alias: Json): Result<seq<Json>, PyException> {
    if Truthy(alias) then AliasMatches(configs, alias) else Success(configs)
  }

  /** The candidate filter, as the loop of the source's list comprehension. */
  method SelectCandidates(configs: seq<Json>, alias: Json) returns (r: Result<seq<Json>, PyException>)
    ensures r == Candidates(configs, alias)
  {
    if !Truthy(alias) {
      return Success(configs);
    }
    var matching: seq<Json> := [];
    var i := 0;
    while i < |configs|
      invariant 0 <= i <= |configs|
      invariant forall j | 0 <= j < i :: configs[j].Obj?
      invariant AliasMatches(configs[..i], alias) == Success(matching)
    {
      var p := configs[i];
      var pAlias := PyGet(p, Str("alias"), Null);
      if pAlias.Failure? {
        FirstNonDictRaises(configs, alias, i);
        return Failure(pAlias.error);
      }
      assert configs[..i + 1][..i] == configs[..i] && configs[..i + 1][i] == p;
      if PyEq(pAlias.value, alias) {
        matching := matching + [p];
      }
      i := i + 1;
    }
    assert configs[..i] == configs;
    return Success(matching);
  }

  /** One iteration of the loop in `validate_providers`. */
  function CheckProvider(rec: Fields, providers: Json): (r: Result<ValidationResult, PyException>)
    ensures r.Success? ==> Consistent(r.value)
    ensures !HasKey(rec, "provider") ==>
      r.Success? && !r.value.found && r.value.message == InvalidMessage("provider")
    ensures HasKey(rec, "provider") && !IsSupported(Lookup(rec, "provider").value) ==>
      r.Success? && !r.value.found
    ensures r.Success? ==> (r.value.found <==>
      && HasKey(rec, "provider") && IsSupported(Lookup(rec, "provider").value)
      && var config := PyGet(providers, Lookup(rec, "provider").value, Null);
      && config.Success? && !config.value.Null?
      && var props := Without(rec, ["provider"]);
      && var cands := Candidates(Instances(config.value), GetOr(props, "alias", Null));
      && cands.Success? && cands.value != [] && IsSubset(Obj(props), cands.value[0]))
  {
    if !HasKey(rec, "provider") then
      Success(Failed(InvalidMessage("provider"), Some("Expected provider config: " + Render(Obj(rec)))))
    else
      var name := Lookup(rec, "provider").value;
      var n := PyStr(name);
      if !IsSupported(name) then
        Success(Failed("❌ Unsupported provider '" + n + "'. Supported: " + Join(SupportedProviders, ", "), None))
      else
        match PyGet(providers, name, Null)
        case Failure(x) => Failure(x)
        case Success(config) =>
          if config.Null? then
            Success(Failed("❌ Provider '" + n + "' not found",
                           Some("No provider block for '" + n + "' in actual config")))
          else
            var props := Without(rec, ["provider"]);
            var alias := GetOr(props, "alias", Null);
            match Candidates(Instances(config), alias)
            case Failure(x) => Failure(x)
            case Success(cands) =>
              if cands == [] then
                Success(Failed("❌ Provider '" + n + "' with expected configuration missing",
                               Some(if Truthy(alias) then "No matching provider instance found (alias: " + PyStr(alias) + ")"
                                    else "No provider instances found")))
              else if IsSubset(Obj(props), cands[0]) then
                Success(ValidationResult(true, "✅ Provider '" + n + "' with expected configuration found", None, Null, Null))
              else
                Success(Failed("❌ Provider '" + n + "' with expected configuration missing",
                               Some(MismatchDetail(props, cands[0]))))
  }

  /** The body of the provider loop, step by step with early exits. */
  method ResolveProvider(rec: Fields, providers: Json) returns (r: Result<ValidationResult, PyException>)
    ensures r == CheckProvider(rec, providers)
  {
    if !HasKey(rec, "provider") {
      return Success(Failed(InvalidMessage("provider"), Some("Expected provider config: " + Render(Obj(rec)))));
    }
    var name := Lookup(rec, "provider").value;
    var n := PyStr(name);
    if !IsSupported(name) {
      return Success(Failed("❌ Unsupported provider '" + n + "'. Supported: " + Join(SupportedProviders, ", "), None));
    }
    var config := PyGet(providers, name, Null);
    if config.Failure? {
      return Failure(config.error);
    }
    if config.value.Null? {
      return Success(Failed("❌ Provider '" + n + "' not found",
                            Some("No provider block for '" + n + "' in actual config")));
    }
    var configs := Instances(config.value);
    var props := Without(rec, ["provider"]);
    var alias := GetOr(props, "alias", Null);
    var candidates := SelectCandidates(configs, alias);
    if candidates.Failure? {
      return Failure(candidates.error);
    }
    if candidates.value == [] {
      var detail := if Truthy(alias) then "No matching provider instance found (alias: " + PyStr(alias) + ")"
                    else "No provider instances found";
      return Success(Failed("❌ Provider '" + n + "' with expected configuration missing", Some(detail)));
    }
    var best := candidates.value[0];
    if IsSubset(Obj(props), best) {
      r := Success(ValidationResult(true, "✅ Provider '" + n + "' with expected configuration found", None, Null, Null));
    } else {
      r := Success(Failed("❌ Provider '" + n + "' with expected configuration missing",
                          Some(MismatchDetail(props, best))));
    }
  }

  // ---------------------------------------------------------------------
  // Control planes and generic resources

  const ResourceControlKeys: seq<string> := ["resource_name", "resource_type", "count_only"]

  /** `actual_config.get("resource", {})`. */
  function ResourcesNode(actual: Fields): Json {
    GetOr(actual, "resource", Obj([]))
  }

  /** `actual_config.get("resource", {}).get("konnect_gateway_control_plane", {})`,
      evaluated once before the loop. */
  function ControlPlanesNode(actual: Fields): Result<Json, PyException> {
    PyGet(ResourcesNode(actual), Str("konnect_gateway_control_plane"), Obj([]))
  }

  /** One iteration of the loop in `validate_control_planes`. */
  function CheckControlPlane(rec: Fields, cps: Json): (r: Result<ValidationResult, PyException>)
    ensures r.Success? ==> Consistent(r.value)
    ensures !HasKey(rec, "resource_name") ==>
      r.Success? && !r.value.found && r.value.message == InvalidMessage("resource_name")
    ensures HasKey(rec, "resource_name") ==>
      var lookup := PyGet(cps, Lookup(rec, "resource_name").value, Null);
      && (r.Failure? <==> lookup.Failure?)
      && (r.Success? && lookup.value.Null? ==> !r.value.found)
      && (r.Success? && !lookup.value.Null? && Flag(rec, "count_only") ==> r.value.found)
      && (r.Success? && !lookup.value.Null? && !Flag(rec, "count_only") ==>
            r.value.found == IsSubset(Obj(Without(rec, ResourceControlKeys)), lookup.value))
  {
    if !HasKey(rec, "resource_name") then
      Success(Failed(InvalidMessage("resource_name"), Some("Expected control plane config: " + Render(Obj(rec)))))
    else
      var name := Lookup(rec, "resource_name").value;
      match PyGet(cps, name, Null)
      case Failure(x) => Failure(x)
      case Success(node) =>
        var n := PyStr(name);
        Success(Judge("Control plane " + n, "resource",
                      "Control plane resource '" + n + "' not found in actual config",
                      Without(rec, ResourceControlKeys), node, Flag(rec, "count_only")))
  }

  /** One iteration of the loop in `validate_generic_resources`: the
      resource is looked up by type, then by name. */
  function CheckResource(rec: Fields, actual: Fields): (r: Result<ValidationResult, PyException>)
    ensures r.Success? ==> Consistent(r.value)
    ensures !HasKey(rec, "resource_type") ==>
      r.Success? && !r.value.found && r.value.message == InvalidMessage("resource_type")
    ensures HasKey(rec, "resource_type") && !HasKey(rec, "resource_name") ==>
      r.Success? && !r.value.found && r.value.message == InvalidMessage("resource_name")
    ensures HasKey(rec, "resource_type") && HasKey(rec, "resource_name") ==>
      var byType := PyGet(ResourcesNode(actual), Lookup(rec, "resource_type").value, Obj([]));
      var lookup := if byType.Success? then PyGet(byType.value, Lookup(rec, "resource_name").value, Null) else byType;
      && (r.Failure? <==> lookup.Failure?)
      && (r.Success? && lookup.value.Null? ==> !r.value.found)
      && (r.Success? && !lookup.value.Null? && Flag(rec, "count_only") ==> r.value.found)
      && (r.Success? && !lookup.value.Null? && !Flag(rec, "count_only") ==>
            r.value.found == IsSubset(Obj(Without(rec, ResourceControlKeys)), lookup.value))
  {
    if !HasKey(rec, "resource_type") then
      Success(Failed(InvalidMessage("resource_type"), Some("Expected resource config: " + Render(Obj(rec)))))
    else if !HasKey(rec, "resource_name") then
      Success(Failed(InvalidMessage("resource_name"), Some("Expected resource config: " + Render(Obj(rec)))))
    else
      var rtype := Lookup(rec, "resource_type").value;
      var name := Lookup(rec, "resource_name").value;
      match PyGet(ResourcesNode(actual), rtype, Obj([]))
      case Failure(x) => Failure(x)
      case Success(byType) =>
        match PyGet(byType, name, Null)
        case Failure(x) => Failure(x)
        case Success(node) =>
          var subject := PyStr(rtype) + "." + PyStr(name);
          Success(Judge(subject, "resource", "Resource " + subject + " not found in actual config",
                        Without(rec, ResourceControlKeys), node, Flag(rec, "count_only")))
  }

  // ---------------------------------------------------------------------
  // The shared loop and the section summary

  /** The results of a resolver loop over `records`: one per record, in
      order, unless a record raises, which ends the loop with the first
      exception. */
  function CheckAll(check: Fields -> Result<ValidationResult, PyException>, records: seq<Fields>)
    : (r: Result<seq<ValidationResult>, PyException>)
    ensures r.Success? <==> forall i | 0 <= i < |records| :: check(records[i]).Success?
    ensures r.Success? ==>
      && |r.value| == |records|
      && forall i | 0 <= i < |records| :: Success(r.value[i]) == check(records[i])
    ensures r.Failure? ==>
      exists i | 0 <= i < |records| ::
        && check(records[i]) == Failure(r.error)
        && forall j | 0 <= j < i :: check(records[j]).Success?
  {
    if records == [] then Success([])
    else
      var n := |records| - 1;
      assert records == records[..n] + [records[n]];
      match CheckAll(check, records[..n])
      case Failure(x) => Failure(x)
      case Success(rs) =>
        match check(records[n])
        case Failure(x) => Failure(x)
        case Success(last) => Success(rs + [last])
  }

  predicate AllFound(results: seq<ValidationResult>) {
    forall i | 0 <= i < |results| :: results[i].found
  }

  /** A section's `all_found` is the AND of its results' `found`. */
  predicate Tallied(sv: SectionValidation) {
    sv.allFound == AllFound(sv.results)
  }

  /** `sum(1 for r in results if r.found)`. */
  function CountFound(results: seq<ValidationResult>): (c: nat)
    ensures c <= |results|
  {
    if results == [] then 0
    else CountFound(results[..|results| - 1]) + (if results[|results| - 1].found then 1 else 0)
  }

  /** The `SectionValidation` a resolver returns after its loop. */
  function Section(results: seq<ValidationResult>, noun: string): SectionValidation {
    SectionValidation(
      AllFound(results),
      results,
      NatToString(CountFound(results)) + "/" + NatToString(|results|) + " expected " + noun + " found")
  }

  function SectionOf(checked: Result<seq<ValidationResult>, PyException>, noun: string)
    : Result<SectionValidation, PyException>
  {
    match checked
    case Success(results) => Success(Section(results, noun))
    case Failure(x) => Failure(x)
  }

  /** A resolver loop ends with the exception of the first record that raises. */
  lemma FirstRaiseEndsLoop(check: Fields -> Result<ValidationResult, PyException>, records: seq<Fields>, i: nat)
    requires i < |records| && check(records[i]).Failure?
    requires forall j | 0 <= j < i :: check(records[j]).Success?
    ensures CheckAll(check, records) == Failure(check(records[i]).error)
  {
    var r := CheckAll(check, records);
    var k :| 0 <= k < |records| && check(records[k]) == Failure(r.error)
             && forall j | 0 <= j < k :: check(records[j]).Success?;
    assert k == i;
  }

  /** One more record that does not raise extends the loop's results. */
  lemma CheckAllStep(check: Fields -> Result<ValidationResult, PyException>, records: seq<Fields>, i: nat,
                     results: seq<ValidationResult>)
    requires i < |records| && CheckAll(check, records[..i]) == Success(results)
    requires check(records[i]).Success?
    ensures CheckAll(check, records[..i + 1]) == Success(results + [check(records[i]).value])
  {
    assert records[..i + 1][..i] == records[..i];
  }

  /** The first record that raises, after a prefix that did not, ends the loop. */
  lemma CheckAllStops(check: Fields -> Result<ValidationResult, PyException>, records: seq<Fields>, i: nat)
    requires i < |records| && CheckAll(check, records[..i]).Success?
    requires check(records[i]).Failure?
    ensures CheckAll(check, records) == Failure(check(records[i]).error)
  {
    assert forall j | 0 <= j < i :: records[..i][j] == records[j];
    FirstRaiseEndsLoop(check, records, i);
  }

  /** The loop the variable, control-plane and resource resolvers share:
      append one result per record, stop at the first exception. */
  method CollectResults(check: Fields -> Result<ValidationResult, PyException>, records: seq<Fields>)
    returns (r: Result<seq<ValidationResult>, PyException>)
    ensures r == CheckAll(check, records)
  {
    var results: seq<ValidationResult> := [];
    var i := 0;
    while i < |records|
      invariant 0 <= i <= |records|
      invariant forall j | 0 <= j < i :: check(records[j]).Success?
      invariant CheckAll(check, records[..i]) == Success(results)
    {
      var c := check(records[i]);
      if c.Failure? {
        FirstRaiseEndsLoop(check, records, i);
        return Failure(c.error);
      }
      assert records[..i + 1][..i] == records[..i] && records[..i + 1][i] == records[i];
      results := results + [c.value];
      i := i + 1;
    }
    assert records[..i] == records;
    return Success(results);
  }

  /** What each resolver returns, or the exception it raises. */
  function VariablesSection(records: seq<Fields>, actual: Fields): (r: Result<SectionValidation, PyException>)
    ensures r.Success? ==> Tallied(r.value)
  {
    SectionOf(CheckAll(rec => CheckVariable(rec, VariablesNode(actual)), records), "variables")
  }

  function ProvidersSection(records: seq<Fields>, actual: Fields): (r: Result<SectionValidation, PyException>)
    ensures r.Success? ==> Tallied(r.value)
  {
    SectionOf(CheckAll(rec => CheckProvider(rec, ProvidersNode(actual)), records), "providers")
  }

  function ControlPlanesSection(records: seq<Fields>, actual: Fields): (r: Result<SectionValidation, PyException>)
    ensures r.Success? ==> Tallied(r.value)
  {
    match ControlPlanesNode(actual)
    case Failure(x) => Failure(x)
    case Success(cps) => SectionOf(CheckAll(rec => CheckControlPlane(rec, cps), records), "control planes")
  }

  function ResourcesSection(records: seq<Fields>, actual: Fields): (r: Result<SectionValidation, PyException>)
    ensures r.Success? ==> Tallied(r.value)
  {
    SectionOf(CheckAll(rec => CheckResource(rec, actual), records), "resources")
  }

  /** `validate_variables`. */
  method ValidateVariables(records: seq<Fields>, actual: Fields) returns (r: Result<SectionValidation, PyException>)
    ensures r == VariablesSection(records, actual)
  {
    var vars := VariablesNode(actual);
    var results := CollectResults(rec => CheckVariable(rec, vars), records);
    r := SectionOf(results, "variables");
  }

  /** The loop of `validate_providers`: its body is ResolveProvider. */
  method ResolveProviders(records: seq<Fields>, providers: Json) returns (r: Result<seq<ValidationResult>, PyException>)
    ensures r == CheckAll(rec => CheckProvider(rec, providers), records)
  {
    ghost var check := rec => CheckProvider(rec, providers);
    var results: seq<ValidationResult> := [];
    var i := 0;
    while i < |records|
      invariant 0 <= i <= |records|
      invariant CheckAll(check, records[..i]) == Success(results)
    {
      var c := ResolveProvider(records[i], providers);
      assert c == check(records[i]);
      if c.Failure? {
        CheckAllStops(check, records, i);
        return Failure(c.error);
      }
      CheckAllStep(check, records, i, results);
      results := results + [c.value];
      i := i + 1;
    }
    assert records[..i] == records;
    return Success(results);
  }

  /** `validate_providers`. */
  method ValidateProviders(records: seq<Fields>, actual: Fields) returns (r: Result<SectionValidation, PyException>)
    ensures r == ProvidersSection(records, actual)
  {
    var providers := ProvidersNode(actual);
    var results := ResolveProviders(records, providers);
    r := SectionOf(results, "providers");
  }

  /** `validate_control_planes`: the control-plane node is looked up once,
      before the loop, so a badly shaped `resource` node raises even when
      there are no records. */
  method ValidateControlPlanes(records: seq<Fields>, actual: Fields) returns (r: Result<SectionValidation, PyException>)
    ensures r == ControlPlanesSection(records, actual)
  {
    var cps := ControlPlanesNode(actual);
    if cps.Failure? {
      return Failure(cps.error);
    }
    var node := cps.value;
    var results := CollectResults(rec => CheckControlPlane(rec, node), records);
    r := SectionOf(results, "control planes");
  }

  /** `validate_generic_resources`. */
  method ValidateGenericResources(records: seq<Fields>, actual: Fields) returns (r: Result<SectionValidation, PyException>)
    ensures r == ResourcesSection(records, actual)
  {
    var results := CollectResults(rec => CheckResource(rec, actual), records);
    r := SectionOf(results, "resources");
  }

  // ---------------------------------------------------------------------
  // Properties of a section

  /** A section holds one result per record, in record order, each with no
      detail when found; its `all_found` flag is the conjunction of the
      results' `found`. */
  lemma SectionShape(check: Fields -> Result<ValidationResult, PyException>, records: seq<Fields>, noun: string)
    requires forall rec :: check(rec).Success? ==> Consistent(check(rec).value)
    requires SectionOf(CheckAll(check, records), noun).Success?
    ensures var sv := SectionOf(CheckAll(check, records), noun).value;
      && |sv.results| == |records|
      && (forall i | 0 <= i < |records| :: Success(sv.results[i]) == check(records[i]))
      && (forall i | 0 <= i < |records| :: Consistent(sv.results[i]))
      && (sv.allFound <==> forall i | 0 <= i < |records| :: sv.results[i].found)
  {
  }

  /** The summary's count is the number of found results, so the summary
      reads "n/n" exactly when every result was found. */
  lemma {:induction false} CountFoundIsNumberFound(results: seq<ValidationResult>)
    ensures CountFound(results) == |set i | 0 <= i < |results| && results[i].found|
    ensures CountFound(results) == |results| <==> AllFound(results)
  {
    if results != [] {
      var n := |results| - 1;
      var front := results[..n];
      CountFoundIsNumberFound(front);
      var before := set i | 0 <= i < n && front[i].found;
      var now := set i | 0 <= i < |results| && results[i].found;
      assert forall i | 0 <= i < n :: front[i] == results[i];
      if results[n].found {
        assert now == before + {n};
      } else {
        assert now == before;
      }
      if CountFound(results) == |results| {
        assert CountFound(front) == n && results[n].found;
      }
      if AllFound(results) {
        assert AllFound(front);
      }
    }
  }

  /** A record without its identifying field yields one failed result with
      the invalid-configuration message naming that field, in every
      section; the result is not an exception, so the loop goes on with the
      next record. */
  lemma MissingIdentifierIsInvalid(rec: Fields, vars: Json, providers: Json, cps: Json, actual: Fields)
    ensures !HasKey(rec, "variable_name") ==>
      CheckVariable(rec, vars).Success? && !CheckVariable(rec, vars).value.found
      && CheckVariable(rec, vars).value.message == InvalidMessage("variable_name")
    ensures !HasKey(rec, "provider") ==>
      CheckProvider(rec, providers).Success? && !CheckProvider(rec, providers).value.found
      && CheckProvider(rec, providers).value.message == InvalidMessage("provider")
    ensures !HasKey(rec, "resource_name") ==>
      CheckControlPlane(rec, cps).Success? && !CheckControlPlane(rec, cps).value.found
      && CheckControlPlane(rec, cps).value.message == InvalidMessage("resource_name")
    ensures !HasKey(rec, "resource_type") ==>
      CheckResource(rec, actual).Success? && !CheckResource(rec, actual).value.found
      && CheckResource(rec, actual).value.message == InvalidMessage("resource_type")
    ensures HasKey(rec, "resource_type") && !HasKey(rec, "resource_name") ==>
      CheckResource(rec, actual).Success? && !CheckResource(rec, actual).value.found
      && CheckResource(rec, actual).value.message == InvalidMessage("resource_name")
  {
  }

  /** Without a (truthy) alias, a supported provider whose block exists is
      compared with the block itself when it is a single instance, and with
      its first instance when it is a list; an empty list is reported
      missing. No exception is raised on this path. */
  lemma ProviderWithoutAlias(rec: Fields, providers: Fields, name: string, block: Json)
    requires Lookup(rec, "provider") == Some(Str(name)) && name in SupportedProviders
    requires Lookup(providers, name) == Some(block) && !block.Null?
    requires !Truthy(GetOr(rec, "alias", Null))
    ensures CheckProvider(rec, Obj(providers)).Success?
    ensures !block.Arr? ==>
      (CheckProvider(rec, Obj(providers)).value.found <==> IsSubset(Obj(Without(rec, ["provider"])), block))
    ensures block.Arr? && block.items == [] ==>
      !CheckProvider(rec, Obj(providers)).value.found
      && CheckProvider(rec, Obj(providers)).value.detail == Some("No provider instances found")
    ensures block.Arr? && block.items != [] ==>
      (CheckProvider(rec, Obj(providers)).value.found <==> IsSubset(Obj(Without(rec, ["provider"])), block.items[0]))
  {
    var i :| 0 <= i < |SupportedProviders| && SupportedProviders[i] == name;
    assert PyEq(Str(name), Str(SupportedProviders[i]));
    assert GetOr(Without(rec, ["provider"]), "alias", Null) == GetOr(rec, "alias", Null);
  }

  /** A variable declared with a JSON null value cannot be told from a
      missing one: `should_not_exist` accepts it, and any other record
      reports it as not found. */
  lemma NullVariableIsAbsent(rec: Fields, vars: Fields, name: string)
    requires Lookup(rec, "variable_name") == Some(Str(name))
    requires Lookup(vars, name) == Some(Null)
    ensures CheckVariable(rec, Obj(vars)).Success?
    ensures CheckVariable(rec, Obj(vars)).value.found <==> Flag(rec, "should_not_exist")
  {
  }
}
