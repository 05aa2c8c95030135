# Partial JSON validator (kontfix test suite)

The kontfix repository tests its Terraform modules with a partial-match
validator, `tests/validators/main.py`. It checks that an "expected" JSON
document appears inside the Terraform JSON that a module generates. Extra
content in the generated document is allowed. For every mismatch it
explains what differs.

This project models that validator in Dafny:

- `Values` (values.dfy) holds the untyped JSON tree. It also models the
  Python operations the validator applies to the tree:
  - `==`, truthiness, `key in d`, `d.get`;
  - dict comprehensions that drop keys;
  - `str()`.
  Two exceptions are modelled: `.get` on a node that is not a dict raises
  AttributeError, and a list or dict key raises TypeError. They are
  carried through `Result` as `PyException`.
- `Subset` (subset.dfy) is the comparator `is_subset`.
- `Mismatch` (mismatch.dfy) is the explainer `get_mismatch_reason` as it
  runs when DeepDiff or colorama is missing. It comes as a
  function and as a method with the source's loop over the expected keys.
- `Resolvers` (resolvers.dfy) holds `ValidationResult`,
  `SectionValidation` and the four section resolvers. Each resolver is a
  loop over the expected records, proved equal to a pure per-record check
  mapped over the records.
- `Report` (report.dfy) is `validate_config` once both documents are
  loaded:
  - it runs the four resolvers in order;
  - it takes the AND of their verdicts;
  - it assembles the report lines.
- `Text` (text.dfy) holds `str.join`, `str.split` and integer formatting.

Python's `dict.get` returns `None` both for a missing key and for a key
whose value is JSON `null`. The model keeps that behaviour.
`Resolvers.NullVariableIsAbsent` states the consequence: a variable
declared as `null` counts as absent.

## Model

| member | source | states |
|---|---|---|
| Text.Join | tests/validators/main.py:575 | `sep.join(parts)`: empty for no parts, the part itself for one |
| Text.Split | tests/validators/main.py:557 | `s.split(c)`: at least one piece, and no piece contains the separator |
| Text.JoinSplit | tests/validators/main.py:557-575 | joining the pieces of a split with the separator gives back the string |
| Values.Lookup | tests/validators/main.py:66-70 | `key in d` and `d[key]`: a value is found exactly when the key is present, and it belongs to a member with that key |
| Values.LookupDistinct | tests/validators/main.py:66-70 | in a dict with distinct keys, the value of every member is what a lookup of its key finds |
| Values.LookupAppend | tests/validators/main.py:66-70 | a lookup in two concatenated member lists finds the first list's value when the key is there, otherwise the second's |
| Values.GetOr | tests/validators/main.py:167-168 | `expected.get(k, default)` gives the record's value when the key is present and the default otherwise |
| Values.Without | tests/validators/main.py:171-174 | the dict comprehension that strips identifying and control keys: dropped keys are not found, every other key keeps its value, every kept member comes from the dict with a name not dropped, and the size never grows |
| Values.WithoutKeepsOrder | tests/validators/main.py:171-174 | the comprehension keeps members in their original order: the result is the dict's members at strictly increasing positions, and every member whose name is not dropped is at one of them |
| Values.WithoutDistinct | tests/validators/main.py:171-174 | stripping keys from a dict leaves distinct keys |
| Values.PyEq | tests/validators/main.py:79-85 | defines Python `==` on documents: `True == 1` and `False == 0`, lists element by element, dicts by key set and value per key regardless of order |
| Values.Truthy | tests/validators/main.py:176-189 | defines Python truthiness: None, False, 0, the empty string, list and dict are false |
| Values.PyEqReflexive | tests/validators/main.py:79 | Python `==` is reflexive on documents whose dicts have distinct keys |
| Values.PyGet | tests/validators/main.py:169 | `node.get(key, default)` raises exactly when the node is not a dict or the key is a list or dict; it finds a string key's value when present and otherwise yields the default |
| Values.PyStr | tests/validators/main.py:179 | `str()` inside an f-string inserts a string unchanged |
| Subset.IsSubset | tests/validators/main.py:61-79 | defines `is_subset`: None only against None (by `==`), dict against dict key by key, list against list element by element, anything else by `==` |
| Subset.CoveredBy | tests/validators/main.py:74-77 | defines the inner `any`: some actual element has the expected element as a subset |
| Subset.ObjectSubsetIff | tests/validators/main.py:66-70 | dict against dict: a subset exactly when every expected key is an actual key and each expected value is a subset of the actual value |
| Subset.SubsetDependsOnExpectedKeys | tests/validators/main.py:66-70 | two actual dicts that agree on the expected keys give the same answer |
| Subset.ExtraActualKeysIgnored | tests/validators/main.py:66-70 | adding actual keys the expected dict does not mention, before or after the others, never changes the answer |
| Subset.RemovedKeyFails | tests/validators/main.py:66-70 | removing an expected key from the actual dict makes the answer false |
| Subset.ListCoveringIgnoresOrder | tests/validators/main.py:72-77 | the empty list is covered by any list, and reordering the actual list (same multiset) never changes the answer |
| Subset.MixedKindsFail | tests/validators/main.py:63-64 | a null matches only a null, and a dict, list or scalar never matches a node of another kind |
| Subset.SubsetReflexive | tests/validators/main.py:61-79 | every well-formed document is a subset of itself |
| Subset.NotSymmetric | tests/validators/main.py:61-79 | `{"a":1}` is a subset of `{"a":1,"b":2}` and not the other way round; `[1,1]` is a subset of `[1]`, because one actual element covers several expected ones |
| Subset.EqualImpliesSubset | tests/validators/main.py:61-79 | nodes equal under Python `==` are subsets, so the explainer's equality exit never contradicts the comparator |
| Subset.SubsetRespectsEquality | tests/validators/main.py:61-79 | a subset of `b` is a subset of every `c == b` |
| Mismatch.Reason | tests/validators/main.py:82-140 | `get_mismatch_reason` with the enhanced branch off: a reason, when there is one, is never empty |
| Mismatch.KeyParts | tests/validators/main.py:119-129 | the messages the key loop collects are all non-empty |
| Mismatch.KeyPart | tests/validators/main.py:122-127 | one key's contribution, when there is one, is non-empty |
| Mismatch.MismatchReason | tests/validators/main.py:82-140 | the explainer with its loop over the expected keys returns what `Reason` specifies |
| Mismatch.KeyPartsArePresent | tests/validators/main.py:120-127 | the messages the key loop collects are the contributions of the expected keys that have one, in key order |
| Mismatch.PresentInOrder | tests/validators/main.py:120-127 | collecting present contributions keeps one message per contribution, at the position given by the number before it, and collects nothing exactly when none is present |
| Mismatch.OnePartPerFailingKey | tests/validators/main.py:119-129 | one message per failing key, in expected-key order: the message of key i is at the position given by the number of failing keys before it; the list is empty exactly when no key fails (`ObjectReasonIff` turns this into the result None) |
| Mismatch.MissingKeyPart | tests/validators/main.py:122-124 | a missing key is reported as `'<path.key>' missing`, or `'<key>' missing` at the root |
| Mismatch.ObjectReasonIff | tests/validators/main.py:119-129 | dict against dict: there is a reason exactly when some expected key is missing or has a reason of its own |
| Mismatch.ReasonOfEqualIsNone | tests/validators/main.py:85-86 | a document compared with itself has no reason |
| Mismatch.ReasonExplainsEveryFailure | tests/validators/main.py:82-140 | whenever `is_subset` fails, the explainer gives a reason, so a failed detail never reads `Reason: None` |
| Mismatch.CoarseListAndLeafReasons | tests/validators/main.py:131-140 | two different lists get one message that depends only on the path; a differing leaf is `expected X, got Y`, followed by ` at <path>` below the root and by nothing at the root |
| Resolvers.Flag | tests/validators/main.py:167-189 | defines `expected.get(flag, False)` tested for truth |
| Resolvers.MismatchDetail | tests/validators/main.py:202-207 | defines a property-mismatch detail: the expected and actual nodes, then the explainer's reason |
| Resolvers.Judge | tests/validators/main.py:356-380 | the shared not-found / count_only / property steps: not found is a failure with its detail, count_only accepts without comparing, otherwise found is `is_subset`, and a property failure carries the mismatch detail |
| Resolvers.CheckVariable | tests/validators/main.py:154-216 | one variable record: a missing `variable_name` fails with the invalid-configuration message; with `should_not_exist` found means the lookup gave None; otherwise a missing variable fails, count_only accepts, and the stripped record must be a subset; a lookup error raises |
| Resolvers.IsSupported | tests/validators/main.py:247 | defines `provider_name in supported_providers`, a membership test by `==` |
| Resolvers.AliasMatches | tests/validators/main.py:279-280 | defines the alias filter: raises at the first instance that is not a dict, otherwise keeps the instances whose alias equals the expected one, in order |
| Resolvers.Candidates | tests/validators/main.py:277-282 | defines the candidates: the alias filter when the expected alias is truthy, otherwise every instance |
| Resolvers.AliasMatchesRaises | tests/validators/main.py:279-280 | the alias filter raises exactly when some instance is not a dict, with the first such instance |
| Resolvers.AliasMatchesKeeps | tests/validators/main.py:279-280 | the alias filter keeps exactly the instances whose alias equals the expected one |
| Resolvers.AliasMatchesFirst | tests/validators/main.py:279-296 | the first candidate is the first instance whose alias equals the expected one |
| Resolvers.FirstNonDictRaises | tests/validators/main.py:279-280 | the filter raises AttributeError at the first instance that is not a dict |
| Resolvers.SelectCandidates | tests/validators/main.py:277-282 | the candidate loop returns every instance when the alias is falsy, and otherwise the alias filter's result |
| Resolvers.CheckProvider | tests/validators/main.py:233-317 | one provider record: a missing `provider` or an unsupported name fails; otherwise found exactly when the block exists, the candidates are non-empty, and the record without `provider` is a subset of the first candidate |
| Resolvers.ResolveProvider | tests/validators/main.py:233-317 | the loop body of `validate_providers`, with its early exits, computes `CheckProvider` |
| Resolvers.ProviderWithoutAlias | tests/validators/main.py:256-296 | with a falsy alias and an existing block for a supported provider: no exception; a single block is found exactly when the record without `provider` is a subset of it; a list is compared through its first instance, and an empty list fails with "No provider instances found" |
| Resolvers.CheckControlPlane | tests/validators/main.py:335-386 | one control-plane record: a missing `resource_name` fails with the invalid-configuration message; otherwise not found fails, count_only accepts, and the stripped record must be a subset |
| Resolvers.CheckResource | tests/validators/main.py:401-467 | one resource record: a missing `resource_type`, then a missing `resource_name`, fails; the resource is looked up by type, then by name; the same not-found, count_only and subset steps follow |
| Resolvers.CheckAll | tests/validators/main.py:399-467 | a resolver loop: succeeds exactly when no record raises; then it gives one result per record, in record order; otherwise it stops with the first record's exception |
| Resolvers.CountFound | tests/validators/main.py:469 | the found count never exceeds the number of results |
| Resolvers.FirstRaiseEndsLoop | tests/validators/main.py:401-467 | the first record that raises ends the loop with its exception |
| Resolvers.CheckAllStep | tests/validators/main.py:463-467 | a record that does not raise appends its result |
| Resolvers.CheckAllStops | tests/validators/main.py:401-467 | after a prefix that does not raise, the first record that raises ends the loop |
| Resolvers.CollectResults | tests/validators/main.py:399-467 | the shared loop computes `CheckAll` |
| Resolvers.Section | tests/validators/main.py:218-223 | defines a section from its results: `all_found`, the results, and the summary `<found>/<total> expected <noun> found` |
| Resolvers.VariablesSection | tests/validators/main.py:218-223 | `all_found` is the AND of every variable result's `found` |
| Resolvers.ProvidersSection | tests/validators/main.py:319-324 | `all_found` is the AND of every provider result's `found` |
| Resolvers.ControlPlanesSection | tests/validators/main.py:388-393 | `all_found` is the AND of every control-plane result's `found` |
| Resolvers.ResourcesSection | tests/validators/main.py:469-474 | `all_found` is the AND of every resource result's `found` |
| Resolvers.ValidateVariables | tests/validators/main.py:148-223 | `validate_variables` returns the section its loop specifies, or raises |
| Resolvers.ResolveProviders | tests/validators/main.py:233-317 | the provider loop computes `CheckAll` over `CheckProvider` |
| Resolvers.ValidateProviders | tests/validators/main.py:226-324 | `validate_providers` returns the section its loop specifies, or raises |
| Resolvers.ValidateControlPlanes | tests/validators/main.py:327-393 | `validate_control_planes` looks up the control-plane node once, before the loop, then returns the section its loop specifies, or raises |
| Resolvers.ValidateGenericResources | tests/validators/main.py:396-474 | `validate_generic_resources` returns the section its loop specifies, or raises |
| Resolvers.SectionShape | tests/validators/main.py:218-223 | a section has exactly one result per expected record, in record order; no found result carries a detail; `all_found` holds exactly when every result is found |
| Resolvers.CountFoundIsNumberFound | tests/validators/main.py:469-474 | the summary's count is the number of found results, and it equals the total exactly when `all_found` holds |
| Resolvers.MissingIdentifierIsInvalid | tests/validators/main.py:156-164 | in every section, a record without its identifying field gives one failed result, does not raise, and carries the invalid-configuration message naming that field: `resource_type` before `resource_name` for generic resources |
| Resolvers.NullVariableIsAbsent | tests/validators/main.py:169-185 | a variable whose value is JSON null is treated as absent: `should_not_exist` accepts it, and any other record fails |
| Report.DetailLines | tests/validators/main.py:556-559 | at least one line; every line starts with the arrow and contains no newline; without the arrows, the lines joined by newlines give back the detail |
| Report.ResultLines | tests/validators/main.py:549-559 | defines one result's lines: its message, then its detail lines when it failed with a non-empty detail |
| Report.AllPassed | tests/validators/main.py:520-525 | defines `all_passed`, the AND of the four sections' `all_found` |
| Report.ReportLines | tests/validators/main.py:528-567 | defines the report lines: header, underline, blank, the four summaries, blank, every result's lines, blank, verdict, blank |
| Report.Repeat | tests/validators/main.py:529 | the underline is the header's length in `=` |
| Report.AppendResult | tests/validators/main.py:549-559 | a result appends its message, then its arrow lines only when it failed with a non-empty detail |
| Report.AppendResults | tests/validators/main.py:547-559 | a section's results append their lines in order |
| Report.AppendSections | tests/validators/main.py:547-559 | the four sections' results append their lines, section after section |
| Report.AssembleReport | tests/validators/main.py:528-575 | the report is the header, the underline, the four summaries, every result's lines and the verdict, joined by newlines |
| Report.Sections | tests/validators/main.py:500-518 | the run succeeds exactly when all four resolvers do, and then the sections are the providers, control-plane, resource and variable sections in that order, each `all_found` the AND of its results; otherwise the exception is that of the first resolver, in that order, that raises |
| Report.ValidateConfig | tests/validators/main.py:499-575 | after loading: the first resolver exception propagates; otherwise the verdict is the AND of the four sections and the text is the assembled report |
| Report.PassedIffEveryResultFound | tests/validators/main.py:520-525 | the overall verdict holds exactly when every result in every section was found |
| Report.DetailLinesOnlyForFailures | tests/validators/main.py:556-559 | a found result contributes only its message; the arrow lines of a failed result, without their arrows and joined by newlines, give back its detail |
| Report.ReportFrame | tests/validators/main.py:528-567 | the report opens with the header and an underline of equal length, and ends with the verdict line and an empty line |

## Left out

- The DeepDiff branch of `get_mismatch_reason` (tests/validators/main.py:89-116) is not modelled. It translates the diff tree of an external library. The model fixes `ENHANCED_MODE` to false, so the fallback branch runs.
- `colorize` (tests/validators/main.py:28-40) is not modelled. With `ENHANCED_MODE` false it returns its text unchanged, so report lines carry no color codes. The enhanced-mode indicator line is never added.
- File loading in `validate_config` (tests/validators/main.py:479-497) is not modelled, nor is its mapping of missing or malformed files to messages. `main`, argparse and the exit code (tests/validators/main.py:578-601) are also left out. This is file I/O and command-line glue.
- Values.Render: a compact stand-in for `json.dumps` and `format_json_compact`. It does not reproduce their escaping, indentation or key sorting, and no property depends on its text.
- Values.PyStr: renders lists and dicts through `Render`, not through Python's `repr`.
- Floating-point JSON numbers are not modelled. Scalars are null, booleans, integers and strings. Python's `True == 1` equality is modelled.
- Expected records that are not JSON objects are not modelled. Nor is an expected document whose sections are not lists. `Report.Expected` holds the four sections after `expected_config.get(..., [])`, as lists of objects.
- The actual document is modelled as a dict, because `actual_config.get` is called on it.
- JSON documents with duplicate member names are not modelled: `json.load` keeps the last value, while `Values.Lookup` finds the first. Properties that need distinct keys say so with `WellFormed` or `DistinctKeys`.
- The `expected` and `actual` fields of `ValidationResult` are filled as the source fills them. No property is stated about them, because the report does not print them.
