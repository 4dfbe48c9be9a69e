/**
 * The opportunities controller: the opportunity list, hydrated from storage
 * on mount and written back in full whenever it changes, and the conversion
 * of a lead into a new opportunity.
 */
module Opportunities {
  import opened Domain
  import LeadsService
  import LocalStorage

  /** `useOpportunities()`: the state behind the hook and the operations it returns. */
  class OpportunitiesController {
    var opportunities: seq<Opportunity>
    var loading: bool
    var error: Option<string>
    const storage: LocalStorage.Store

    /** The stored opportunity list is the current one (where the store accepts writes). */
    ghost predicate Persisted()
      reads this, storage
    {
      storage.writable ==>
        && LocalStorage.OpportunitiesKey in storage.entries
        && storage.entries[LocalStorage.OpportunitiesKey] == LocalStorage.Json(LocalStorage.OpportunitiesValue(opportunities))
    }

    /**
     * Mount: the hydration effect reads the saved list, the persistence effect
     * then runs once with the initial empty list, and once more with the
     * hydrated list after the state update.
     */
    constructor (storage: LocalStorage.Store)
      modifies storage
      ensures this.storage == storage
      ensures opportunities == old(storage.LoadOpportunities())
      ensures !loading && error == None
      ensures Persisted()
      ensures storage.entries == if storage.writable
        then old(storage.entries)[LocalStorage.OpportunitiesKey := LocalStorage.Json(LocalStorage.OpportunitiesValue(opportunities))]
        else old(storage.entries)
    {
      this.storage := storage;
      loading := false;
      error := None;
      var saved := storage.LoadOpportunities();
      storage.SaveOpportunities([]);
      opportunities := saved;
      storage.SaveOpportunities(saved);
    }

    /**
     * `convertLead(lead, opportunityData)`: clears the error and sets loading,
     * asks the service for an opportunity, appends it on success (and the
     * persistence effect writes the new list), records the error on failure;
     * loading ends either way.
     */
    method ConvertLead(lead: Lead, draft: OpportunityDraft, failure: bool, now: int, timestamp: string)
      returns (r: Result<Opportunity>)
      requires Persisted()
      modifies this, storage
      ensures Persisted()
      ensures r == LeadsService.ConvertToOpportunity(lead, draft, failure, now, timestamp)
      ensures r.Success? ==> opportunities == old(opportunities) + [r.data] && error == None
      ensures r.Failure? ==> opportunities == old(opportunities) && error == Some(LeadsService.ConversionFailedMessage)
      ensures r.Failure? ==> storage.entries == old(storage.entries)
      ensures r.Success? ==> storage.entries == if storage.writable
        then old(storage.entries)[LocalStorage.OpportunitiesKey := LocalStorage.Json(LocalStorage.OpportunitiesValue(opportunities))]
        else old(storage.entries)
      ensures !loading
    {
      loading := true;
      error := None;
      var result := LeadsService.ConvertToOpportunity(lead, draft, failure, now, timestamp);
      if result.Success? {
        opportunities := opportunities + [result.data];
        storage.SaveOpportunities(opportunities);
        loading := false;
        r := Success(result.data);
      } else {
        error := Some(result.error);
        loading := false;
        r := Failure(result.error);
      }
    }

    /** `clearError()`: the error is gone and nothing else changes. */
    method ClearError()
      modifies this`error
      ensures error == None
    {
      error := None;
    }
  }
}
