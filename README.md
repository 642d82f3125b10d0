# Cloud cost optimizer: the extraction pipeline, verified in Dafny

This project models the core of the `ai-cloud-cost-optimizer` pipeline. The
pipeline asks a text-generation model for structured data at each stage:

- a project profile from a description;
- synthetic billing records from the profile;
- optimisation recommendations from the profile and a cost summary.

It recovers that data from the model's free-form replies, and between the
billing and recommendation stages it analyses the costs itself, with no
model call.

The model has six modules, one per source file plus the Python values they
share:

- `PyValue` (`py_value.dfy`): decoded JSON values, Python truthiness and
  `dict.get(key, default)`.
- `LlmClient` (`llm_client.dfy`):
  - `extract_json_from_text`. The fenced-block regex is written out as
    string search. The `{`/`[` … `}`/`]` fallback is written with explicit
    `find`/`rfind`. `json.loads` is a parameter `parse: string -> Option<Json>`.
  - The retry loop of `query_llm` over an abstract sequence of POST outcomes.
- `CostAnalyzer` (`cost_analyzer.dfy`): `analyze_costs`, as a method whose
  loop folds the records into the total and the insertion-ordered
  service-to-cost dict. The method is proved against reference functions
  over the records.
  - The stable descending sort is an insertion sort. It is proved to be
    the one arrangement of the dict's items that `sorted(..., reverse=True)`
    can return.
  - The top three services are the first three items of that sorted list.
- `BillingGenerator` (`billing_generator.dfy`), `RecommendationEngine`
  (`recommendation_engine.dfy`) and `ProfileExtractor`
  (`profile_extractor.dfy`): each stage is a function of its inputs, the
  model given as a function from the prompt's values to an `LlmReply`, and
  the parser.

## Model

| member | source | states |
|---|---|---|
| PyValue.Truthy | cloud-cost-optimizer/modules/cost_analyzer.py:8 | Python truthiness, used by every `if not …`/`if …` guard (also billing_generator.py lines 9, 37, 40 and recommendation_engine.py lines 8, 58): None, False, 0, the empty string, the empty list and the empty dict are false |
| PyValue.Get | cloud-cost-optimizer/modules/recommendation_engine.py:12-17 | `dict.get(key, default)`: the key's value when present, otherwise the default (also the `.get` calls of billing_generator.py and cost_analyzer.py) |
| LlmClient.Answer | cloud-cost-optimizer/modules/llm_client.py:50-54 | a reply that was not a transport failure raises exactly when `choices` is missing/empty or the message has no content, and is text exactly when the content is a string |
| LlmClient.QueryLlm | cloud-cost-optimizer/modules/llm_client.py:27-63 | no token raises before any attempt; zero retries return None; otherwise attempts stop at the first one that is not a RequestException, all earlier attempts failed, and only a failure on attempt `retries` raises RetriesExhausted; a bad response shape is not retried |
| LlmClient.FindFence | cloud-cost-optimizer/modules/llm_client.py:71 | the result is a fence at or after the start index and no fence lies between the two |
| LlmClient.FencePair | cloud-cost-optimizer/modules/llm_client.py:71-72 | a match opens at the first fence of the text and closes at the first fence that does not overlap it |
| LlmClient.NoFencePairIff | cloud-cost-optimizer/modules/llm_client.py:71-72 | the regex finds no match if and only if the text has no two non-overlapping fences |
| LlmClient.SkipSpaces | cloud-cost-optimizer/modules/llm_client.py:71 | the greedy `\s*` after the tag: it stops at the first non-whitespace character before the closing fence, or at the fence |
| LlmClient.BackOverSpaces | cloud-cost-optimizer/modules/llm_client.py:71 | where the lazy group ends: the earliest point from which only whitespace runs up to the closing fence |
| LlmClient.SkipSpacesTrims | cloud-cost-optimizer/modules/llm_client.py:71 | skipping the leading `\s*` is stripping leading whitespace from the text before the fence |
| LlmClient.BackOverSpacesTrims | cloud-cost-optimizer/modules/llm_client.py:71 | stopping before the trailing `\s*` is stripping trailing whitespace from the text before the fence |
| LlmClient.FenceContent | cloud-cost-optimizer/modules/llm_client.py:71-73 | group 1 fits between the fences and neither begins nor ends with whitespace |
| LlmClient.FenceContentIsTrimmedBlock | cloud-cost-optimizer/modules/llm_client.py:71-73 | group 1 is the text between the fences with a leading lowercase `json` tag dropped and surrounding whitespace stripped |
| LlmClient.FenceContentHasNoFence | cloud-cost-optimizer/modules/llm_client.py:71-73 | the lazy group never contains a fence |
| LlmClient.Find | cloud-cost-optimizer/modules/llm_client.py:77-78 | `str.find`: -1 exactly when the character is absent, otherwise its first index |
| LlmClient.RFind | cloud-cost-optimizer/modules/llm_client.py:93-94 | `str.rfind`: -1 exactly when the character is absent, otherwise its last index |
| LlmClient.BracketStart | cloud-cost-optimizer/modules/llm_client.py:77-87 | `start` is -1 exactly when there is no `{` or `[`, otherwise the smallest index holding one |
| LlmClient.BracketEnd | cloud-cost-optimizer/modules/llm_client.py:93-102 | `end` is -1 exactly when there is no `}` or `]`, otherwise the largest index holding one |
| LlmClient.BracketSpan | cloud-cost-optimizer/modules/llm_client.py:77-105 | a bracket span starts at the first opening bracket and ends, strictly later, at the last closing bracket |
| LlmClient.NoBracketSpanIff | cloud-cost-optimizer/modules/llm_client.py:89-105 | there is no bracket span if and only if no opening bracket comes before a closing bracket |
| LlmClient.Candidate | cloud-cost-optimizer/modules/llm_client.py:71-107 | without a fence, a candidate begins with an opening bracket and ends with a closing bracket |
| LlmClient.ExtractJson | cloud-cost-optimizer/modules/llm_client.py:65-112 | no candidate gives None; otherwise the result is what the parser makes of the candidate; a candidate that does not parse gives None, never a JSONDecodeError |
| LlmClient.FenceWins | cloud-cost-optimizer/modules/llm_client.py:71-73 | with a fence pair, the result is the parse of the trimmed block between the first pair, whatever brackets the text holds and whether or not that block parses |
| LlmClient.BracketSliceCandidate | cloud-cost-optimizer/modules/llm_client.py:74-107 | without a fence pair, the candidate is the inclusive slice from the first opening to the last closing bracket |
| LlmClient.NoBracketPairNoValue | cloud-cost-optimizer/modules/llm_client.py:89-105 | without a fence pair, a text with no opening bracket before a closing one gives None for every parser |
| LlmClient.TaggedBlockExample | cloud-cost-optimizer/modules/llm_client.py:71-73 | a `json`-tagged block holding `[1]` yields the candidate `[1]` |
| LlmClient.ProseAroundObjectExample | cloud-cost-optimizer/modules/llm_client.py:77-107 | an object inside prose, with no fence, yields exactly the object |
| LlmClient.UnclosedObjectExample | cloud-cost-optimizer/modules/llm_client.py:104-105 | an object that is never closed yields None |
| CostAnalyzer.ServiceOf | cloud-cost-optimizer/modules/cost_analyzer.py:21 | `record.get('service', 'Other')`: the record's service, or `Other` when the field is absent |
| CostAnalyzer.CostOf | cloud-cost-optimizer/modules/cost_analyzer.py:20 | `record.get('cost_inr', 0)`: the record's cost, or 0 when the field is absent |
| CostAnalyzer.CostIn | cloud-cost-optimizer/modules/cost_analyzer.py:24 | `service_costs.get(service, 0)`: the service's running entry, or 0 before its first record |
| CostAnalyzer.FirstSeen | cloud-cost-optimizer/modules/cost_analyzer.py:19-24 | the dict's key order lists each service once |
| CostAnalyzer.FirstBilled | cloud-cost-optimizer/modules/cost_analyzer.py:19-21 | the index of the first record billed to a service (`Other` for a record without one), or -1 when no record is |
| CostAnalyzer.FirstSeenOrder | cloud-cost-optimizer/modules/cost_analyzer.py:19-24 | of two keys of `service_costs`, the earlier one was billed first: the first record of the earlier key precedes the first record of the later one |
| CostAnalyzer.FirstSeenIndexOrder | cloud-cost-optimizer/modules/cost_analyzer.py:19-24 | a key's position in `service_costs` is its rank by first record, in both directions |
| CostAnalyzer.FirstSeenListsEveryService | cloud-cost-optimizer/modules/cost_analyzer.py:19-24 | a service is a key exactly when some record is billed to it (`Other` for a record without a service) |
| CostAnalyzer.SumCostsBump | cloud-cost-optimizer/modules/cost_analyzer.py:24 | adding a cost to one existing entry adds it to the sum of the dict's values |
| CostAnalyzer.SumCostsFrame | cloud-cost-optimizer/modules/cost_analyzer.py:24 | writing the entry of a key not yet listed leaves the sum of the listed entries unchanged |
| CostAnalyzer.ServiceTotals | cloud-cost-optimizer/modules/cost_analyzer.py:19-24 | the dict the loop builds, record by record, with line 24's `.get(service, 0) + cost` update; its keys and values are stated by the two lemmas below |
| CostAnalyzer.ServiceTotalsKeys | cloud-cost-optimizer/modules/cost_analyzer.py:19-24 | the dict built by the loop has exactly the services of the records as keys |
| CostAnalyzer.ServiceTotalsValues | cloud-cost-optimizer/modules/cost_analyzer.py:19-24 | each entry of the dict is the sum of the costs of that service's records, a missing cost counting 0 |
| CostAnalyzer.ServiceTotalsSum | cloud-cost-optimizer/modules/cost_analyzer.py:19-24 | the dict's values add up to the total cost |
| CostAnalyzer.ServiceTotalsTable | cloud-cost-optimizer/modules/cost_analyzer.py:19-24 | the dict and its key order form a well-formed table of per-service totals summing to the total |
| CostAnalyzer.Ranking | cloud-cost-optimizer/modules/cost_analyzer.py:30 | `service_costs.items()`: item `i` is the `i`-th key with its cost |
| CostAnalyzer.Insert | cloud-cost-optimizer/modules/cost_analyzer.py:30 | inserting an item keeps every item and adds exactly the new one |
| CostAnalyzer.InsertKeepsOrder | cloud-cost-optimizer/modules/cost_analyzer.py:30 | inserting into a list sorted by cost descending, ties by position, keeps it sorted |
| CostAnalyzer.SortByCost | cloud-cost-optimizer/modules/cost_analyzer.py:30 | the result is a permutation of the items, sorted by cost descending with equal costs in insertion order |
| CostAnalyzer.SortedHeadsAgree | cloud-cost-optimizer/modules/cost_analyzer.py:30 | two sorted arrangements of the same items start with the same item |
| CostAnalyzer.SameItemsAfterHead | cloud-cost-optimizer/modules/cost_analyzer.py:30 | with equal heads, two arrangements of the same items have the same items after the head |
| CostAnalyzer.SortedTail | cloud-cost-optimizer/modules/cost_analyzer.py:30 | the tail of a sorted list is sorted |
| CostAnalyzer.SortedArrangementIsUnique | cloud-cost-optimizer/modules/cost_analyzer.py:30 | two sorted arrangements of the same items are equal: a stable descending sort has only one possible result |
| CostAnalyzer.SortedItems | cloud-cost-optimizer/modules/cost_analyzer.py:30 | `sorted_services` is a sorted permutation of the dict's items and every element is an item of the dict |
| CostAnalyzer.StableSortIsSortedItems | cloud-cost-optimizer/modules/cost_analyzer.py:30 | any arrangement of the items that a stable sort by cost, reversed, could return is `sorted_services` |
| CostAnalyzer.ItemIsSorted | cloud-cost-optimizer/modules/cost_analyzer.py:30 | every item of the dict appears in `sorted_services` |
| CostAnalyzer.TableOf | cloud-cost-optimizer/modules/cost_analyzer.py:31 | the dict comprehension over items with distinct keys has those keys, in order, with their costs |
| CostAnalyzer.TopItems | cloud-cost-optimizer/modules/cost_analyzer.py:30-31 | `sorted_services[:3]` has min(3, n) items, is a prefix of the sorted list, is itself sorted, and holds distinct services with their dict costs |
| CostAnalyzer.TopServices | cloud-cost-optimizer/modules/cost_analyzer.py:30-31 | `high_cost_services` is a well-formed dict of min(3, n) entries, each a service of `service_costs` with the same cost |
| CostAnalyzer.LeftOutServiceRanksLower | cloud-cost-optimizer/modules/cost_analyzer.py:30-31 | a service left out of `high_cost_services` costs less than every kept one, or the same but was seen later |
| CostAnalyzer.LeftOutServicesRankLower | cloud-cost-optimizer/modules/cost_analyzer.py:30-31 | for every dict, each service kept in `high_cost_services` comes before each service left out in the cost-descending, first-seen order |
| CostAnalyzer.TopPairDescends | cloud-cost-optimizer/modules/cost_analyzer.py:30-31 | of two entries of `high_cost_services`, the earlier one costs more, or the same and was seen first |
| CostAnalyzer.TieBreakIsFirstBilled | cloud-cost-optimizer/modules/cost_analyzer.py:19-31 | the tie-break among equal costs, a service's position among the keys, is the order in which the services were first billed |
| CostAnalyzer.TopServicesDescend | cloud-cost-optimizer/modules/cost_analyzer.py:30-31 | `high_cost_services` lists its entries by cost descending, ties in first-seen order |
| CostAnalyzer.AccumulateStep | cloud-cost-optimizer/modules/cost_analyzer.py:20-24 | one more record adds its cost to the total, appends its service to the keys only when the dict lacks it, and adds its cost to that service's entry |
| CostAnalyzer.AccumulateCosts | cloud-cost-optimizer/modules/cost_analyzer.py:16-24 | the loop ends with the total of all costs, the services in first-seen order and the per-service dict |
| CostAnalyzer.BudgetOf | cloud-cost-optimizer/modules/cost_analyzer.py:13 | the budget is the number `profile.get('budget_inr_per_month', 0)` returns, with a boolean budget counting as 1 or 0 as Python's `bool` does in the arithmetic |
| CostAnalyzer.AnalyzeCosts | cloud-cost-optimizer/modules/cost_analyzer.py:4-42 | None exactly for a falsy profile or empty billing; otherwise the total is the sum of all costs, the budget is `budget_inr_per_month` or 0, the variance is total minus budget, the flag is total strictly above budget, `service_costs` maps each service in first-seen order to its own records' sum and its values add up to the total, and `high_cost_services` is the top three |
| BillingGenerator.PromptFor | cloud-cost-optimizer/modules/billing_generator.py:12-19 | the prompt's budget is `budget_inr_per_month`, or 5000 when absent |
| BillingGenerator.BillingFromReply | cloud-cost-optimizer/modules/billing_generator.py:34-51 | records come back exactly when the reply is non-empty text whose extracted value is a non-empty list, and they are that list unchanged; a raised error, an empty or None reply, and any other extracted value give None |
| BillingGenerator.GenerateSyntheticBilling | cloud-cost-optimizer/modules/billing_generator.py:5-51 | a falsy profile gives None with no model call; otherwise the model gets the profile's values and the result is the reply's records; a result is never an empty list |
| RecommendationEngine.PromptFor | cloud-cost-optimizer/modules/recommendation_engine.py:12-17 | the summary values default to 0, 0, 0 and `{}` and the project name to `Unknown Project` when absent, and are taken as they are when present |
| RecommendationEngine.RecommendationsFromReply | cloud-cost-optimizer/modules/recommendation_engine.py:54-69 | an extracted list is returned as it is, a dict with `recommendations` gives that entry unchecked, and everything else (a raised error, empty or None text, None, a dict without the key, a scalar) gives `[]` |
| RecommendationEngine.GenerateRecommendations | cloud-cost-optimizer/modules/recommendation_engine.py:4-69 | a falsy profile or summary gives `[]` with no model call; otherwise the model gets the defaulted values and the result is what the reply yields |
| ProfileExtractor.ExtractProjectProfile | cloud-cost-optimizer/modules/profile_extractor.py:2-15 | a profile results exactly when the model returns text, and is the extraction of that text (None for a JSONDecodeError); an error of the call, or a None reply (a TypeError inside `re.search`), propagates |

## Left out

- The HTTP request of `query_llm` is not modelled: headers, payload, `max_tokens`, `temperature`, the endpoint and the two-second sleep between attempts. Each attempt's outcome is the parameter `post(i)`.
- The `HF_API_TOKEN` lookup is the boolean parameter `hasToken`.
- The text of the RuntimeError message, including the `response.text` it may quote, is not modelled.
- A `content` that is JSON but not a string (a number, a list) is modelled as `Content(None)`, so the reply is `NoContent`. The three stages then behave as Python does: the billing stage gives None (a falsy value is "no response"; a truthy one makes `re.search` raise TypeError, which is caught), the recommendation stage gives `[]` for the same reasons, and the profile stage propagates the TypeError from `re.search`.
- `json.loads` is the uninterpreted parameter `parse`; the JSON grammar is not modelled.
- LlmClient.ExtractJson: only `json.JSONDecodeError` is caught. `json.loads` can also raise RecursionError on a deeply nested candidate and ValueError on an integer literal longer than Python's digit limit; both escape `extract_json_from_text`, and `parse: string -> Option<Json>` cannot express them.
- ProfileExtractor.ExtractProjectProfile: the same RecursionError and ValueError of `json.loads` propagate out of the profile stage and are not modelled. The billing and recommendation stages catch them with `except Exception`, where they behave like any other failure.
- Floating-point costs and budgets are not modelled: `Json` numbers and record costs are integers.
- Prompt wording, `json.dumps` of the prompt values and every `print` are left out. A prompt is the record of values it is built from.
- `main.py` (menu, file I/O, console rendering) and `test.py` (live smoke test) are not part of this model, and neither is the `__main__` block of `llm_client.py`.
- Billing records keep only `service` and `cost_inr`, the two fields `analyze_costs` reads.
- CostAnalyzer.AnalyzeCosts: a record's `service` is a string or absent, and its `cost_inr` an integer or absent. The records are whatever JSON the model returned. A present `"service": null`, or a numeric service, stays the dict key because `record.get('service', 'Other')` returns it; the model has only string keys and does not capture that. A present non-numeric `cost_inr` (null or a string) makes `total_cost += cost` raise TypeError, uncaught; that path is not modelled. A boolean `cost_inr` counts as 1 or 0 and is represented by that integer.
- The unused `project_name` local of `analyze_costs` is not modelled.
- CostAnalyzer.AnalyzeCosts: a missing billing list (`billing_data=None`, which the billing stage returns on failure) is represented by `[]`; both give None at the guard.
- CostAnalyzer.AnalyzeCosts: requires a dict profile whose `budget_inr_per_month`, when present, is a number or a boolean. Any other value (a string, null, a list) makes `total_cost - budget` raise TypeError; that path is not modelled. A boolean budget is echoed in the summary as 1 or 0, not as `True`/`False`, which Python compares equal but serialises differently.
- BillingGenerator.GenerateSyntheticBilling: requires a truthy profile to be a dict. A truthy non-dict raises AttributeError on `.get`, outside the `try`, and that path is not modelled.
- RecommendationEngine.GenerateRecommendations: requires both inputs to be dicts when both are truthy. When both are truthy and one is not a dict, `.get` raises AttributeError outside the `try`, and that path is not modelled. When either is falsy, `[]` is returned before any `.get`, and the model covers that.
- Non-dict billing records (AttributeError on `record.get`) are not modelled; a record is always a dict.

Behaviour of the code that a reader might not expect, all of it modelled as written:

- An empty billing list makes `analyze_costs` return None, not a zero summary.
- The profile stage applies no budget default or coercion, and lets model-call errors propagate.
- The billing and recommendation stages swallow every failure, returning None and `[]` respectively, rather than reporting which stage failed and why.
- The recommendation stage returns the `recommendations` entry verbatim, whatever its type, and gives `[]`, not a failure, for a shape mismatch.
- `high_cost_services` is a dict of up to three entries, with ties kept in first-seen order by the stable sort.
