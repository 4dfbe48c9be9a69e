/**
 * The records the lead console passes between its hooks, its service layer and
 * its storage adapter. JavaScript objects become datatypes; a property that may
 * be absent (undefined or null) becomes an Option.
 */
module Domain {

  datatype Option<T> = None | Some(value: T)

  /** The `{ success, data }` / `{ success, error }` objects the service layer and the hooks return. */
  datatype Result<T> = Success(data: T) | Failure(error: string)

  /** One record of the seed lead list. */
  datatype Lead = Lead(
    id: int,
    name: string,
    company: string,
    email: string,
    status: string,
    source: string,
    score: int)

  /** The properties present in an `updates` object; `None` is a property the object does not have. */
  datatype LeadPatch = LeadPatch(
    name: Option<string>,
    company: Option<string>,
    email: Option<string>,
    status: Option<string>,
    source: Option<string>,
    score: Option<int>)

  /** What the lead validator reads of a lead: name, email and company, each possibly absent. */
  datatype LeadForm = LeadForm(name: Option<string>, email: Option<string>, company: Option<string>)

  /** Filter configuration: a search term and a status, where "all" means no status filter. */
  datatype Filters = Filters(search: string, status: string)

  /** A partial filter object handed to `updateFilters`. */
  datatype FilterPatch = FilterPatch(search: Option<string>, status: Option<string>)

  /** The lead attribute a sort is keyed on. */
  datatype SortField = Id | Name | Company | Email | Status | Source | Score

  /** "asc" is Asc; every other direction string sorts descending, so it is Desc. */
  datatype Direction = Asc | Desc

  datatype SortConfig = SortConfig(field: SortField, direction: Direction)

  /**
   * The amount of an opportunity draft as a JavaScript value: absent (null or
   * undefined), a number, the number NaN, or a string. A string counts as a
   * number only when it is white space alone (it converts to 0).
   */
  datatype Amount = NoAmount | Number(value: real) | NaN | Text(text: string)

  /** The `opportunityData` object of a conversion (and what `validateOpportunity` reads). */
  datatype OpportunityDraft = OpportunityDraft(
    name: Option<string>,
    stage: Option<string>,
    amount: Amount,
    accountName: Option<string>)

  datatype Opportunity = Opportunity(
    id: int,
    name: string,
    stage: string,
    amount: Amount,
    accountName: string,
    leadId: int,
    createdAt: string)

  /** JavaScript truthiness of an optional string property: present and not "". */
  predicate Truthy(s: Option<string>)
  {
    s.Some? && s.value != ""
  }

  /** JavaScript truthiness of an amount: 0, NaN, "" and null are falsy. */
  predicate AmountTruthy(a: Amount)
  {
    match a
    case NoAmount => false
    case Number(v) => v != 0.0
    case NaN => false
    case Text(t) => t != ""
  }

  /** `x || fallback` for an optional string property. */
  function OrElse(s: Option<string>, fallback: string): string
  {
    if Truthy(s) then s.value else fallback
  }

  /** Spread of one property: `{ ...base, ...patch }` keeps the patch's value when the patch has one. */
  function Override<T>(base: T, patch: Option<T>): T
  {
    if patch.Some? then patch.value else base
  }
}
