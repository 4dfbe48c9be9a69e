/**
 * The leads controller: the canonical lead list, the filter and sort
 * configuration, the load state, and the visible list derived from them
 * (search on name or company, then status, then sort).
 */
module Leads {
  import opened Domain
  import opened JsStrings
  import LeadsService
  import LocalStorage

  // ----- Filtering -----

  /** `s.filter(keep)`: each element is kept, with its multiplicity, exactly when `keep` holds of it. */
  function Filter(s: seq<Lead>, keep: Lead -> bool): (r: seq<Lead>)
    ensures forall x :: multiset(r)[x] == if keep(x) then multiset(s)[x] else 0
  {
    if s == [] then []
    else
      assert s == [s[0]] + s[1..];
      (if keep(s[0]) then [s[0]] else []) + Filter(s[1..], keep)
  }

  /** The search test: the lower-cased term occurs in the lower-cased name or company. */
  predicate MatchesSearch(lead: Lead, search: string)
  {
    var term := ToLower(search);
    Contains(ToLower(lead.name), term) || Contains(ToLower(lead.company), term)
  }

  /** Whether a lead passes both filters (an empty search and status "all" pass everything). */
  predicate Keeps(filters: Filters, lead: Lead)
  {
    && (filters.search == "" || MatchesSearch(lead, filters.search))
    && (filters.status == "all" || lead.status == filters.status)
  }

  /** The search ignores the case of the term and of the lead's name and company. */
  lemma SearchIgnoresCase(lead: Lead, search: string)
    ensures MatchesSearch(lead, search) == MatchesSearch(lead, ToLower(search))
    ensures MatchesSearch(lead, search) ==
            MatchesSearch(lead.(name := ToLower(lead.name), company := ToLower(lead.company)), search)
  {
    ToLowerIdempotent(search);
    ToLowerIdempotent(lead.name);
    ToLowerIdempotent(lead.company);
  }

  /** Any piece of the name or of the company finds the lead. */
  lemma SearchFindsInfix(lead: Lead, p: string, search: string, q: string)
    requires lead.name == p + search + q || lead.company == p + search + q
    ensures MatchesSearch(lead, search)
  {
    ToLowerConcat(p, search);
    ToLowerConcat(p + search, q);
    ContainsInfix(ToLower(p), ToLower(search), ToLower(q));
  }

  /**
   * An empty search and status "all" keep every lead; a status filter keeps
   * only leads of that status; a term longer than both name and company keeps none.
   */
  lemma KeepsMeaning(filters: Filters, lead: Lead)
    ensures Keeps(Filters("", "all"), lead)
    ensures Keeps(filters, lead) && filters.status != "all" ==> lead.status == filters.status
    ensures |filters.search| > |lead.name| && |filters.search| > |lead.company| ==> !Keeps(filters, lead)
  {
    ContainsInfix(ToLower(lead.name), ToLower(filters.search), "");
    ContainsInfix(ToLower(lead.company), ToLower(filters.search), "");
  }

  /** The leads that survive the search filter and then the status filter. */
  function Selected(leads: seq<Lead>, filters: Filters): (r: seq<Lead>)
    ensures forall l :: multiset(r)[l] == if Keeps(filters, l) then multiset(leads)[l] else 0
    ensures filters.search == "" && filters.status == "all" ==> r == leads
  {
    var searched := if filters.search != "" then Filter(leads, (l: Lead) => MatchesSearch(l, filters.search)) else leads;
    if filters.status != "all" then Filter(searched, (l: Lead) => l.status == filters.status) else searched
  }

  // ----- Sorting -----

  /** `a[field] < b[field]`: numbers by value, strings lexicographically. */
  predicate FieldLess(field: SortField, a: Lead, b: Lead)
  {
    match field
    case Id => a.id < b.id
    case Score => a.score < b.score
    case Name => StrLess(a.name, b.name)
    case Company => StrLess(a.company, b.company)
    case Email => StrLess(a.email, b.email)
    case Status => StrLess(a.status, b.status)
    case Source => StrLess(a.source, b.source)
  }

  /** `a[field] === b[field]`. */
  predicate SameKey(field: SortField, a: Lead, b: Lead)
  {
    match field
    case Id => a.id == b.id
    case Score => a.score == b.score
    case Name => a.name == b.name
    case Company => a.company == b.company
    case Email => a.email == b.email
    case Status => a.status == b.status
    case Source => a.source == b.source
  }

  /** The comparator handed to `Array.prototype.sort`; it never returns 0. */
  function Compare(sort: SortConfig, a: Lead, b: Lead): (r: int)
    ensures r == 1 || r == -1
  {
    if sort.direction == Asc then (if FieldLess(sort.field, b, a) then 1 else -1)
    else (if FieldLess(sort.field, a, b) then 1 else -1)
  }

  /**
   * On distinct keys the comparator is antisymmetric; on equal keys it asks
   * for neither order to be swapped, in both argument orders.
   */
  lemma CompareAntisymmetric(sort: SortConfig, a: Lead, b: Lead)
    ensures SameKey(sort.field, a, b) ==> Compare(sort, a, b) == -1 && Compare(sort, b, a) == -1
    ensures !SameKey(sort.field, a, b) ==> Compare(sort, a, b) == -Compare(sort, b, a)
  {
    FieldLessTotal(sort.field, a, b);
    if FieldLess(sort.field, a, b) {
      FieldLessAsymmetric(sort.field, a, b);
    }
    if FieldLess(sort.field, b, a) {
      FieldLessAsymmetric(sort.field, b, a);
    }
  }

  /** a may stand before b: the comparator does not ask for a to come after b. */
  predicate InOrder(sort: SortConfig, a: Lead, b: Lead)
  {
    Compare(sort, a, b) < 0
  }

  predicate SortedBy(v: seq<Lead>, sort: SortConfig)
  {
    forall i, j | 0 <= i < j < |v| :: InOrder(sort, v[i], v[j])
  }

  lemma FieldLessAsymmetric(field: SortField, a: Lead, b: Lead)
    requires FieldLess(field, a, b)
    ensures !FieldLess(field, b, a) && !SameKey(field, a, b)
  {
    match field
    case Id =>
    case Score =>
    case Name => StrLessAsymmetric(a.name, b.name); StrLessIrreflexive(a.name);
    case Company => StrLessAsymmetric(a.company, b.company); StrLessIrreflexive(a.company);
    case Email => StrLessAsymmetric(a.email, b.email); StrLessIrreflexive(a.email);
    case Status => StrLessAsymmetric(a.status, b.status); StrLessIrreflexive(a.status);
    case Source => StrLessAsymmetric(a.source, b.source); StrLessIrreflexive(a.source);
  }

  lemma FieldLessTotal(field: SortField, a: Lead, b: Lead)
    ensures FieldLess(field, a, b) || FieldLess(field, b, a) || SameKey(field, a, b)
  {
    match field
    case Id =>
    case Score =>
    case Name => StrLessTotal(a.name, b.name);
    case Company => StrLessTotal(a.company, b.company);
    case Email => StrLessTotal(a.email, b.email);
    case Status => StrLessTotal(a.status, b.status);
    case Source => StrLessTotal(a.source, b.source);
  }

  lemma FieldLessTransitive(field: SortField, a: Lead, b: Lead, c: Lead)
    requires FieldLess(field, a, b) && FieldLess(field, b, c)
    ensures FieldLess(field, a, c)
  {
    match field
    case Id =>
    case Score =>
    case Name => StrLessTransitive(a.name, b.name, c.name);
    case Company => StrLessTransitive(a.company, b.company, c.company);
    case Email => StrLessTransitive(a.email, b.email, c.email);
    case Status => StrLessTransitive(a.status, b.status, c.status);
    case Source => StrLessTransitive(a.source, b.source, c.source);
  }

  /** Not-greater is transitive: "does not come after" chains. */
  lemma NotLessTransitive(field: SortField, a: Lead, b: Lead, c: Lead)
    requires !FieldLess(field, b, a) && !FieldLess(field, c, b)
    ensures !FieldLess(field, c, a)
  {
    if FieldLess(field, c, a) {
      FieldLessTotal(field, a, b);
      if FieldLess(field, a, b) {
        FieldLessTransitive(field, c, a, b);
      }
    }
  }

  lemma InOrderTransitive(sort: SortConfig, a: Lead, b: Lead, c: Lead)
    requires InOrder(sort, a, b) && InOrder(sort, b, c)
    ensures InOrder(sort, a, c)
  {
    if sort.direction == Asc {
      NotLessTransitive(sort.field, a, b, c);
    } else {
      NotLessTransitive(sort.field, c, b, a);
    }
  }

  /** When the comparator puts a after b, b may stand before a. */
  lemma OutOfOrderFlips(sort: SortConfig, a: Lead, b: Lead)
    requires Compare(sort, a, b) > 0
    ensures InOrder(sort, b, a)
  {
    if sort.direction == Asc {
      FieldLessAsymmetric(sort.field, b, a);
    } else {
      FieldLessAsymmetric(sort.field, a, b);
    }
  }

  /** `a[field] <= b[field]`. */
  predicate FieldAtMost(field: SortField, a: Lead, b: Lead)
  {
    FieldLess(field, a, b) || SameKey(field, a, b)
  }

  /**
   * Being sorted by the comparator means the keys are non-decreasing for "asc"
   * and non-increasing for "desc".
   */
  lemma SortedByMeansMonotone(v: seq<Lead>, sort: SortConfig)
    ensures SortedBy(v, sort) <==>
      if sort.direction == Asc then forall i, j | 0 <= i < j < |v| :: FieldAtMost(sort.field, v[i], v[j])
      else forall i, j | 0 <= i < j < |v| :: FieldAtMost(sort.field, v[j], v[i])
  {
    var f := sort.field;
    forall x, y
      ensures InOrder(sort, x, y) <==>
        if sort.direction == Asc then FieldAtMost(f, x, y) else FieldAtMost(f, y, x)
    {
      FieldLessTotal(f, x, y);
      if FieldLess(f, x, y) { FieldLessAsymmetric(f, x, y); }
      if FieldLess(f, y, x) { FieldLessAsymmetric(f, y, x); }
    }
  }

  /** Scores 50, 90, 70 come out as 50, 70, 90 ascending and as 90, 70, 50 descending. */
  lemma ScoreSortExample(v: seq<Lead>, x: Lead, y: Lead, z: Lead)
    requires x.score == 50 && y.score == 90 && z.score == 70
    requires multiset(v) == multiset([x, y, z])
    ensures |v| == 3
    ensures SortedBy(v, SortConfig(Score, Asc)) ==> [v[0].score, v[1].score, v[2].score] == [50, 70, 90]
    ensures SortedBy(v, SortConfig(Score, Desc)) ==> [v[0].score, v[1].score, v[2].score] == [90, 70, 50]
  {
    assert |multiset(v)| == 3;
    assert x in multiset(v) && y in multiset(v) && z in multiset(v);
    forall i | 0 <= i < |v|
      ensures v[i].score in {50, 70, 90}
    {
      assert v[i] in multiset(v);
    }
  }

  method Swap(a: array<Lead>, i: int, j: int)
    requires 0 <= i < a.Length && 0 <= j < a.Length
    modifies a
    ensures a[..] == old(a[..])[i := old(a[j])][j := old(a[i])]
    ensures multiset(a[..]) == old(multiset(a[..]))
  {
    a[i], a[j] := a[j], a[i];
  }

  /** `filtered.sort(comparator)` in place: insertion sort by adjacent swaps. */
  method SortLeads(a: array<Lead>, sort: SortConfig)
    modifies a
    ensures SortedBy(a[..], sort)
    ensures multiset(a[..]) == old(multiset(a[..]))
  {
    if a.Length == 0 {
      return;
    }
    var i := 1;
    while i < a.Length
      invariant 1 <= i <= a.Length
      invariant forall p, q | 0 <= p < q < i :: InOrder(sort, a[p], a[q])
      invariant multiset(a[..]) == old(multiset(a[..]))
    {
      var j := i;
      while j > 0 && Compare(sort, a[j - 1], a[j]) > 0
        invariant 0 <= j <= i
        invariant forall p, q | 0 <= p < q <= i && p != j && q != j :: InOrder(sort, a[p], a[q])
        invariant forall q | j < q <= i :: InOrder(sort, a[j], a[q])
        invariant multiset(a[..]) == old(multiset(a[..]))
      {
        OutOfOrderFlips(sort, a[j - 1], a[j]);
        Swap(a, j - 1, j);
        j := j - 1;
      }
      forall p, q | 0 <= p < q <= i
        ensures InOrder(sort, a[p], a[q])
      {
        if q == j && p < j - 1 {
          InOrderTransitive(sort, a[p], a[j - 1], a[j]);
        }
      }
      i := i + 1;
    }
  }

  /**
   * The derivation effect: copy the canonical list, apply the search filter
   * when the term is non-empty, the status filter when the status is not
   * "all", and sort the result in place.
   */
  method Derive(leads: seq<Lead>, filters: Filters, sort: SortConfig) returns (visible: seq<Lead>)
    ensures multiset(visible) == multiset(Selected(leads, filters))
    ensures SortedBy(visible, sort)
    ensures forall l | l in visible :: l in leads && Keeps(filters, l)
  {
    var filtered := leads;
    if filters.search != "" {
      filtered := Filter(filtered, (l: Lead) => MatchesSearch(l, filters.search));
    }
    if filters.status != "all" {
      filtered := Filter(filtered, (l: Lead) => l.status == filters.status);
    }
    var a := new Lead[|filtered|](k requires 0 <= k < |filtered| => filtered[k]);
    assert a[..] == filtered;
    SortLeads(a, sort);
    visible := a[..];
    forall l | l in visible
      ensures l in leads && Keeps(filters, l)
    {
      assert multiset(visible)[l] > 0;
    }
  }

  // ----- Merging -----

  /** `{ ...filters, ...patch }`: fields present in the patch overwrite, absent ones are kept. */
  function MergeFilters(filters: Filters, patch: FilterPatch): (r: Filters)
    ensures r.search == (if patch.search.Some? then patch.search.value else filters.search)
    ensures r.status == (if patch.status.Some? then patch.status.value else filters.status)
  {
    Filters(Override(filters.search, patch.search), Override(filters.status, patch.status))
  }

  /** `{ ...lead, ...updates }`: the id is kept, each patched field is taken, the others are kept. */
  function MergeLead(lead: Lead, updates: LeadPatch): (r: Lead)
    ensures r.id == lead.id
    ensures r.name == (if updates.name.Some? then updates.name.value else lead.name)
    ensures r.company == (if updates.company.Some? then updates.company.value else lead.company)
    ensures r.email == (if updates.email.Some? then updates.email.value else lead.email)
    ensures r.status == (if updates.status.Some? then updates.status.value else lead.status)
    ensures r.source == (if updates.source.Some? then updates.source.value else lead.source)
    ensures r.score == (if updates.score.Some? then updates.score.value else lead.score)
  {
    Lead(
      lead.id,
      Override(lead.name, updates.name),
      Override(lead.company, updates.company),
      Override(lead.email, updates.email),
      Override(lead.status, updates.status),
      Override(lead.source, updates.source),
      Override(lead.score, updates.score))
  }

  /**
   * `leads.map(lead => lead.id === id ? { ...lead, ...updates } : lead)`: the
   * length and the ids are kept, every lead with that id takes the patch, and
   * every other lead is unchanged.
   */
  function ApplyUpdate(leads: seq<Lead>, id: int, updates: LeadPatch): (r: seq<Lead>)
    ensures |r| == |leads|
    ensures forall i | 0 <= i < |leads| :: r[i].id == leads[i].id
    ensures forall i | 0 <= i < |leads| && leads[i].id != id :: r[i] == leads[i]
    ensures forall i | 0 <= i < |leads| && leads[i].id == id :: r[i] == MergeLead(leads[i], updates)
  {
    seq(|leads|, i requires 0 <= i < |leads| => if leads[i].id == id then MergeLead(leads[i], updates) else leads[i])
  }

  /** Merging the same filter patch twice changes nothing more. */
  lemma MergeFiltersIdempotent(filters: Filters, patch: FilterPatch)
    ensures MergeFilters(MergeFilters(filters, patch), patch) == MergeFilters(filters, patch)
  {
  }

  /** Applying the same update twice changes nothing more, and leads without the id stay put. */
  lemma {:induction false} ApplyUpdateIdempotent(leads: seq<Lead>, id: int, updates: LeadPatch)
    ensures ApplyUpdate(ApplyUpdate(leads, id, updates), id, updates) == ApplyUpdate(leads, id, updates)
    ensures (forall i | 0 <= i < |leads| :: leads[i].id != id) ==> ApplyUpdate(leads, id, updates) == leads
  {
    var once := ApplyUpdate(leads, id, updates);
    var twice := ApplyUpdate(once, id, updates);
    forall i | 0 <= i < |leads|
      ensures twice[i] == once[i]
    {
      if leads[i].id == id {
        assert MergeLead(once[i], updates) == once[i];
      }
    }
  }

  // ----- The controller -----

  /** `useLeads()`: the state behind the hook and the operations it returns. */
  class LeadsController {
    /** The canonical list (`allLeads`). */
    var leads: seq<Lead>
    /** The filtered and sorted list (`filteredLeads`, returned as `leads`). */
    var visible: seq<Lead>
    var loading: bool
    var error: Option<string>
    var filters: Filters
    var sort: SortConfig
    const storage: LocalStorage.Store

    /** The visible list is the canonical list, filtered and then sorted. */
    ghost predicate Valid()
      reads this
    {
      multiset(visible) == multiset(Selected(leads, filters)) && SortedBy(visible, sort)
    }

    /** The derivation effect: the visible list is derived again from the canonical list, the filters and the sort. */
    method Refresh()
      modifies this`visible
      ensures Valid()
    {
      visible := Derive(leads, filters, sort);
    }

    /** First render: no leads yet, loading, filters and sort read back from storage. */
    constructor (storage: LocalStorage.Store)
      ensures Valid() && this.storage == storage
      ensures leads == [] && visible == [] && loading && error == None
      ensures filters == storage.LoadFilters() && sort == storage.LoadSort()
    {
      this.storage := storage;
      leads := [];
      loading := true;
      error := None;
      filters := storage.LoadFilters();
      sort := storage.LoadSort();
      visible := [];
    }

    /**
     * The mount-time fetch: loading and a clear error, then either the data
     * becomes the canonical list or the error message is kept; loading ends.
     */
    method CompleteLoad(fetched: LeadsService.FetchOutcome)
      modifies this
      ensures Valid()
      ensures !loading
      ensures var r := LeadsService.LoadLeads(fetched);
        if r.Success? then leads == r.data && error == None
        else leads == old(leads) && error == Some(r.error)
      ensures filters == old(filters) && sort == old(sort)
    {
      loading := true;
      error := None;
      var result := LeadsService.LoadLeads(fetched);
      if result.Success? {
        leads := result.data;
      } else {
        error := Some(result.error);
      }
      loading := false;
      Refresh();
    }

    /** `updateFilters(partial)`: merge, persist the merged configuration, re-derive. */
    method UpdateFilters(patch: FilterPatch)
      modifies this, storage
      ensures Valid()
      ensures filters == MergeFilters(old(filters), patch)
      ensures storage.entries == if storage.writable
        then old(storage.entries)[LocalStorage.FiltersKey := LocalStorage.Entry.Json(LocalStorage.FiltersValue(filters))]
        else old(storage.entries)
      ensures leads == old(leads) && sort == old(sort) && loading == old(loading) && error == old(error)
    {
      filters := MergeFilters(filters, patch);
      storage.SaveFilters(filters);
      Refresh();
    }

    /** `updateSort(newSort)`: replace, persist, re-derive. */
    method UpdateSort(newSort: SortConfig)
      modifies this, storage
      ensures Valid()
      ensures sort == newSort
      ensures storage.entries == if storage.writable
        then old(storage.entries)[LocalStorage.SortKey := LocalStorage.Entry.Json(LocalStorage.SortValue(newSort))]
        else old(storage.entries)
      ensures leads == old(leads) && filters == old(filters) && loading == old(loading) && error == old(error)
    {
      sort := newSort;
      storage.SaveSort(newSort);
      Refresh();
    }

    /**
     * `updateLeadData(leadId, updates)`: on success the patch is merged into the
     * leads with that id; on failure the canonical list is left as it was and
     * the service's error is returned.
     */
    method UpdateLeadData(leadId: int, updates: LeadPatch, failure: bool) returns (r: Result<()>)
      requires Valid()
      modifies this`leads, this`visible
      ensures Valid()
      ensures failure <==> r == Failure(LeadsService.UpdateFailedMessage)
      ensures !failure <==> r == Success(())
      ensures r.Success? ==> leads == ApplyUpdate(old(leads), leadId, updates)
      ensures r.Failure? ==> leads == old(leads) && visible == old(visible)
      ensures filters == old(filters) && sort == old(sort) && loading == old(loading) && error == old(error)
    {
      var result := LeadsService.UpdateLead(leadId, updates, failure);
      if result.Success? {
        MergeUpdate(leadId, updates);
        r := Success(());
      } else {
        r := Failure(result.error);
      }
    }

    /** The state update of a successful edit: every lead with the id takes the patch, then the visible list is derived again. */
    method MergeUpdate(leadId: int, updates: LeadPatch)
      modifies this`leads, this`visible
      ensures Valid()
      ensures leads == ApplyUpdate(old(leads), leadId, updates)
    {
      leads := ApplyUpdate(leads, leadId, updates);
      Refresh();
    }
  }
}
