# Mini Seller Console — a Dafny model of its state and persistence logic

The console lists sales leads. It lets the user search, filter, sort and edit them, and convert a lead into an
opportunity. Everything lives in memory and is mirrored to the browser's local storage. This project models the
non-visual core of the console:

- **Validation** (`validation.dfy`, module `Validation`): the email pattern, and the lead and opportunity validators
  with their exact messages.
- **Persistence adapter** (`local_storage.dfy`, module `LocalStorage`): a `Store` class over a `map<string, Entry>`.
  It offers save, load and clear with defaults, and a typed save/load pair for each of the three keys.
- **Mock data-access layer** (`leads_service.dfy`, module `LeadsService`): the load, update and conversion results.
  The random failure draw, the clock and the fetch outcome are parameters.
- **Leads controller** (`use_leads.dfy`, module `Leads`): the class `LeadsController`, holding the canonical list,
  the visible list, the filters, the sort and the load state. The visible list is derived by a search filter, then a
  status filter, then an in-place sort of an array.
- **Opportunities controller** (`use_opportunities.dfy`, module `Opportunities`): the class
  `OpportunitiesController`. It hydrates from storage, persists the whole list on every change and converts leads.
- Shared records (`domain.dfy`, module `Domain`), and the JavaScript string built-ins the code relies on
  (`js_strings.dfy`, module `JsStrings`): `trim`, `\s`, `toLowerCase`, `includes` and `<` on strings.

Effects become inputs. The outcome of `Math.random()` is a `failure: bool` parameter. `Date.now()` and
`new Date().toISOString()` are the `now` and `timestamp` parameters. The fetch of the seed file is a `FetchOutcome`
parameter. A store that rejects every write (storage over quota) is a `Store` whose `writable` is false; removal still works there.
JSON encoding is the identity: an entry holds the value that was saved, or is `Unreadable` (text that does not parse,
or the empty string).

## Model

| member | source | states |
|---|---|---|
| `JsStrings.TrimStart` | src/utils/validation.js:11 | the result is the suffix left after the leading white space, and it does not start with white space |
| `JsStrings.TrimEnd` | src/utils/validation.js:11 | the result is the prefix left before the trailing white space, and it does not end with white space |
| `JsStrings.Trim` | src/utils/validation.js:11 | the result is a slice of s with only white space before and after it, and it neither starts nor ends with white space |
| `JsStrings.TrimIsEmptyIffAllWhitespace` | src/utils/validation.js:11 | `s.trim() === ""` holds exactly when every character of s is white space |
| `JsStrings.ToLower` | src/hooks/useLeads.js:44-48 | same length, no upper-case letter left, A–Z become a–z (code point + 32) and every other character is kept |
| `JsStrings.ToLowerIdempotent` | src/hooks/useLeads.js:44-48 | lower-casing twice is lower-casing once |
| `JsStrings.ToLowerConcat` | src/hooks/useLeads.js:44-48 | lower-casing a concatenation lower-cases each part |
| `JsStrings.ContainsInfix` | src/hooks/useLeads.js:47-48 | `includes` finds every infix, in particular the empty string, and never finds a needle longer than the haystack |
| `JsStrings.StrLessIsLexLess` | src/hooks/useLeads.js:63-65 | `<` on strings holds exactly when a is a proper prefix of b, or a has the smaller character at the first position where they differ |
| `JsStrings.StrLessIrreflexive` | src/hooks/useLeads.js:63-65 | no string is `<` itself |
| `JsStrings.StrLessAsymmetric` | src/hooks/useLeads.js:63-65 | `a < b` rules out `b < a` |
| `JsStrings.StrLessTransitive` | src/hooks/useLeads.js:63-65 | `<` on strings is transitive |
| `JsStrings.StrLessTotal` | src/hooks/useLeads.js:63-65 | two strings are equal or one is `<` the other |
| `Validation.IsValidEmailIffShape` | src/utils/validation.js:2-5 | the pattern matches exactly when: there is no white space; there is exactly one '@'; something precedes it; and after it there is a '.' that is neither the first nor the last character of the domain |
| `Validation.IsValidEmailExamples` | src/utils/validation.js:2-5 | "a@b.co" matches. "a@b", "ab.c", "a b@c.d", "a@b@c.d" and "a@.bc" do not |
| `Validation.MissingOrTrimmedEmptyIsBlank` | src/utils/validation.js:11 | the test "falsy, or empty after trim" holds exactly for a property that is absent or only white space |
| `Validation.ValidateLead` | src/utils/validation.js:8-29 | the errors map has only the keys name, email and company. "Name is required" / "Company is required" appear exactly when that field is absent or blank. For email it is "Email is required" when blank, else "Invalid email format" when the pattern fails, else nothing. Valid iff the map is empty |
| `Validation.ValidateOpportunity` | src/utils/validation.js:32-54 | "Name is required" and "Stage is required" appear exactly for an absent or blank name or stage. "Amount must be a positive number" appears exactly for a negative number or for text that is not white space alone (white-space text converts to 0). Valid iff the map is empty |
| `Validation.ValidateLeadExample` | src/utils/validation.js:11-23 | `{name:"", email:"bad", company:"Acme"}` gives exactly the name error and the "Invalid email format" error, and no company error |
| `Validation.ValidateOpportunityAmountExamples` | src/utils/validation.js:43-48 | amount -5 and amount "abc" each give only the amount error. No amount, 0, NaN and " " are all accepted |
| `LocalStorage.KeysAreDistinct` | src/utils/localStorage.js:3-7 | the three storage keys differ |
| `LocalStorage.Store.Load` | src/utils/localStorage.js:17-25 | a key that was never saved, or whose item does not parse, gives the default. Otherwise it gives the stored value |
| `LocalStorage.Store.Save` | src/utils/localStorage.js:9-15 | a writable store maps the key to the value, so loading it gives the value back. A failed write changes nothing. Every other key loads as before |
| `LocalStorage.Store.Clear` | src/utils/localStorage.js:27-33 | the key is removed, on every store including one over quota, so loading it gives the default. Clearing an absent key changes nothing. Every other key loads as before |
| `LocalStorage.Store.SaveFilters` | src/utils/localStorage.js:36-38 | writes the filters under "leads-console-filters" and nothing else; they load back unchanged |
| `LocalStorage.Store.LoadFilters` | src/utils/localStorage.js:40-45 | the stored filters, else `{search:"", status:"all"}` |
| `LocalStorage.Store.SaveSort` | src/utils/localStorage.js:47-49 | writes the sort under "leads-console-sort" and nothing else; it loads back unchanged |
| `LocalStorage.Store.LoadSort` | src/utils/localStorage.js:51-56 | the stored sort, else `{field:"score", direction:"desc"}` |
| `LocalStorage.Store.SaveOpportunities` | src/utils/localStorage.js:58-60 | writes the list under "leads-console-opportunities" and nothing else; it loads back unchanged |
| `LocalStorage.Store.LoadOpportunities` | src/utils/localStorage.js:62-64 | the stored list, else `[]` |
| `LeadsService.LoadLeads` | src/services/leadsService.js:7-23 | success exactly for an ok response whose body parses, and the data is that body. A non-ok response fails with "Failed to load leads". A thrown error, from the fetch or from parsing the body of an ok response, fails with its own message |
| `LeadsService.UpdateLead` | src/services/leadsService.js:26-41 | failure gives exactly "Simulated network error". Success echoes `{id, ...updates}` |
| `LeadsService.ConvertToOpportunity` | src/services/leadsService.js:44-69 | failure gives exactly "Simulated conversion error". On success: the id and createdAt are the given clock values and leadId is the lead's id. name, stage and accountName come from the draft when it is truthy, else from lead.name, "Prospecting" and lead.company. The amount is the draft's when truthy, else null |
| `LeadsService.ConvertWithEmptyDraft` | src/services/leadsService.js:54-62 | with the empty draft the opportunity is (now, lead.name, "Prospecting", null, lead.company, lead.id, timestamp) |
| `LeadsService.ConvertedOpportunityHasStage` | src/services/leadsService.js:57-58 | every converted opportunity has a non-empty stage and never keeps an amount of 0 |
| `Leads.Filter` | src/hooks/useLeads.js:45-55 | every element is kept, with its full multiplicity, exactly when the predicate holds of it. Nothing else appears |
| `Leads.SearchIgnoresCase` | src/hooks/useLeads.js:43-49 | the search result does not change when the term, or the lead's name and company, are lower-cased first |
| `Leads.SearchFindsInfix` | src/hooks/useLeads.js:43-49 | any piece of a lead's name or company, used as the term, finds that lead |
| `Leads.KeepsMeaning` | src/hooks/useLeads.js:43-55 | an empty search with status "all" keeps every lead. A status filter keeps only leads of that status. A term longer than both name and company keeps none |
| `Leads.Selected` | src/hooks/useLeads.js:43-55 | a lead survives exactly when the search is empty or its lower-cased name or company contains the lower-cased term, and the status is "all" or equal to the lead's. Multiplicities are kept. An empty search with status "all" returns the list itself |
| `Leads.Compare` | src/hooks/useLeads.js:58-67 | the comparator returns 1 or -1 and never 0 |
| `Leads.CompareAntisymmetric` | src/hooks/useLeads.js:58-67 | on distinct keys the two argument orders give opposite results. On equal keys both orders give -1 |
| `Leads.FieldLessAsymmetric` | src/hooks/useLeads.js:58-67 | a smaller key is neither greater nor equal |
| `Leads.FieldLessTotal` | src/hooks/useLeads.js:58-67 | any two keys of one field are ordered or equal |
| `Leads.FieldLessTransitive` | src/hooks/useLeads.js:58-67 | key order is transitive |
| `Leads.NotLessTransitive` | src/hooks/useLeads.js:58-67 | "not greater" is transitive |
| `Leads.InOrderTransitive` | src/hooks/useLeads.js:58-67 | "the comparator does not put a after b" is transitive, for both directions |
| `Leads.OutOfOrderFlips` | src/hooks/useLeads.js:58-67 | when the comparator puts a after b, b may stand before a |
| `Leads.SortedByMeansMonotone` | src/hooks/useLeads.js:58-67 | sorted by the comparator iff the keys are non-decreasing for "asc" and non-increasing for "desc" |
| `Leads.ScoreSortExample` | src/hooks/useLeads.js:58-67 | any sorted permutation of scores 50, 90, 70 reads 50, 70, 90 ascending and 90, 70, 50 descending |
| `Leads.SortLeads` | src/hooks/useLeads.js:58-67 | the array ends sorted by the comparator and is a permutation of what it held |
| `Leads.Derive` | src/hooks/useLeads.js:39-70 | the visible list is a permutation of the selected leads and is sorted. Each of its leads comes from the canonical list and passes both filters |
| `Leads.MergeFilters` | src/hooks/useLeads.js:75 | fields present in the patch overwrite and absent ones are kept |
| `Leads.MergeFiltersIdempotent` | src/hooks/useLeads.js:75 | merging the same patch again changes nothing |
| `Leads.MergeLead` | src/hooks/useLeads.js:95 | the lead keeps its id, takes each field the patch has and keeps every other field |
| `Leads.ApplyUpdate` | src/hooks/useLeads.js:93-97 | the length and every id are kept. Leads with another id are unchanged. A lead with the id becomes its merge with the patch |
| `Leads.ApplyUpdateIdempotent` | src/hooks/useLeads.js:93-97 | applying the same update twice changes nothing more. When no lead has the id, the list is unchanged |
| `Leads.LeadsController.Refresh` | src/hooks/useLeads.js:39-70 | the visible list is derived again from the canonical list, the filters and the sort; no other field can change |
| `Leads.LeadsController.constructor` | src/hooks/useLeads.js:11-16 | no leads, loading, no error, and filters and sort read back from storage (their defaults when absent) |
| `Leads.LeadsController.CompleteLoad` | src/hooks/useLeads.js:19-36 | loading ends. Either the leads are the loaded data and there is no error, or the leads are unchanged and the error is the failure message. Filters and sort are kept and the visible list is re-derived |
| `Leads.LeadsController.UpdateFilters` | src/hooks/useLeads.js:73-80 | the filters become the merge of the old filters and the patch. Exactly that value is stored under the filters key and no other key changes |
| `Leads.LeadsController.UpdateSort` | src/hooks/useLeads.js:83-86 | the sort is replaced wholesale. Exactly that value is stored under the sort key and no other key changes |
| `Leads.LeadsController.UpdateLeadData` | src/hooks/useLeads.js:89-102 | succeeds exactly when the service's draw does not fail, and the canonical list then becomes the id-matched merge. Otherwise the canonical and visible lists are unchanged and "Simulated network error" is returned. Filters, sort, loading and error never change |
| `Leads.LeadsController.MergeUpdate` | src/hooks/useLeads.js:93-97 | the canonical list becomes the id-matched merge and the visible list is derived again; no other field can change |
| `Opportunities.OpportunitiesController.constructor` | src/hooks/useOpportunities.js:6-19 | the list is what storage held (`[]` when nothing was saved), and storage then holds exactly that list when the store is writable |
| `Opportunities.OpportunitiesController.ConvertLead` | src/hooks/useOpportunities.js:22-37 | returns the service's result and loading ends. On success the opportunity is appended, the error is cleared and the new list is stored. On failure the list and storage are unchanged and the error is "Simulated conversion error". The stored list stays equal to the current one |
| `Opportunities.OpportunitiesController.ClearError` | src/hooks/useOpportunities.js:40-42 | the error is cleared; no other field can change |

## Left out

- Rendering, styling, tabs, the detail panel and the conversion modal (all `.jsx` files), and the page reload on retry.
- The amount parsing with `parseFloat` in the modal, and the currency and date formatting. These are floating point
  and `Intl`/`Date` calls. An amount is a `real`, NaN, absent, or a string.
- Validation.ValidateOpportunity: of the strings JavaScript converts to a number, only white space alone (which
  converts to 0) is recognised. Other numeric text such as "5" or "-5" is treated as not a number and gets the amount
  error, where JavaScript would accept "5" and reject "-5" as negative. The conversion grammar (signs, fractions,
  exponents, hexadecimal, "Infinity") is not modelled; the conversion modal only ever passes numbers or null.
- The simulated latency (`setTimeout`), `fetch` and `response.json()`. Their outcome is the `FetchOutcome` parameter.
- `Math.random()`, `Date.now()` and `toISOString()`. They are parameters.
- JSON encoding. A stored value loads back as itself. A stored value of the wrong shape under a typed key loads as
  that key's default here, whereas JavaScript would return the foreign object.
- `console.warn` / `console.error` logging.
- Overlapping asynchronous calls. Each operation runs from its start to its end without interleaving.
- Leads.SortLeads: an insertion sort stands for the engine's `Array.prototype.sort`. Only sortedness and permutation
  are stated. The comparator never returns 0, so the order of leads with equal keys is engine-defined. For the same
  reason the engine's result is formally implementation-defined; the model assumes it is sorted.
- Leads.SortLeads: a sort field outside the lead attributes (which would compare `undefined` values) is not
  representable. Any sort direction other than "asc" is `Desc`.
- JsStrings.ToLower: lower-cases ASCII letters only; Unicode case folding is not modelled.
- JsStrings.StrLess: orders characters by code point. JavaScript compares UTF-16 code units, which differs only for
  characters outside the Basic Multilingual Plane.
- LocalStorage.Store.Load: a read that throws (storage access denied) is not modelled separately. An unreadable entry
  covers the parse failure and the empty item.
- LocalStorage.Store.Clear: a removal that throws (storage access denied, where reads throw too) is not modelled;
  removal always succeeds.
- LocalStorage.Store.Save: write failure is a fixed property of the store (`writable`) rather than a per-call event.
- Leads.MergeLead: an `updates` object carrying an `id` property is not representable; the lead's id never
  changes.
