/**
 * The mock data-access layer. The latency, the random failure draw, the clock
 * and the fetch of the seed file are effects; here they are parameters: the
 * outcome of the fetch, a `failure` flag for the random draw, and the current
 * time as a number (`Date.now()`) and as a string (`toISOString()`).
 */
module LeadsService {
  import opened Domain

  const LoadFailedMessage := "Failed to load leads"
  const UpdateFailedMessage := "Simulated network error"
  const ConversionFailedMessage := "Simulated conversion error"
  const DefaultStage := "Prospecting"

  /** What `response.json()` gives: the parsed lead list, or the message of the error it throws. */
  datatype Body = Parsed(leads: seq<Lead>) | Malformed(message: string)

  /** What `fetch` gives: a thrown error with its message, or a response with its `ok` flag and body. */
  datatype FetchOutcome = NetworkError(message: string) | Response(ok: bool, body: Body)

  /** `loadLeads()`: every failure is caught and returned as a tagged result. */
  function LoadLeads(fetched: FetchOutcome): (r: Result<seq<Lead>>)
    ensures r.Success? <==> fetched.Response? && fetched.ok && fetched.body.Parsed?
    ensures r.Success? ==> r.data == fetched.body.leads
    ensures fetched.Response? && !fetched.ok ==> r == Failure(LoadFailedMessage)
    ensures fetched.NetworkError? ==> r == Failure(fetched.message)
    ensures fetched.Response? && fetched.ok && fetched.body.Malformed? ==> r == Failure(fetched.body.message)
  {
    match fetched
    case NetworkError(message) => Failure(message)
    case Response(ok, body) =>
      if !ok then Failure(LoadFailedMessage)
      else match body
        case Parsed(leads) => Success(leads)
        case Malformed(message) => Failure(message)
  }

  /** The `data` of a successful update: `{ id: leadId, ...updates }`. */
  datatype LeadEcho = LeadEcho(id: int, updates: LeadPatch)

  /** `updateLead(leadId, updates)`: echoes the merged object, or fails with the simulated error. */
  function UpdateLead(leadId: int, updates: LeadPatch, failure: bool): (r: Result<LeadEcho>)
    ensures failure <==> r == Failure(UpdateFailedMessage)
    ensures !failure ==> r.Success? && r.data.id == leadId && r.data.updates == updates
  {
    if failure then Failure(UpdateFailedMessage) else Success(LeadEcho(leadId, updates))
  }

  /** `convertToOpportunity(lead, opportunityData)`. */
  function ConvertToOpportunity(lead: Lead, draft: OpportunityDraft, failure: bool, now: int, timestamp: string)
    : (r: Result<Opportunity>)
    ensures failure <==> r == Failure(ConversionFailedMessage)
    ensures !failure ==> r.Success?
    ensures r.Success? ==>
      var o := r.data;
      && o.id == now
      && o.createdAt == timestamp
      && o.leadId == lead.id
      && (if Truthy(draft.name) then o.name == draft.name.value else o.name == lead.name)
      && (if Truthy(draft.stage) then o.stage == draft.stage.value else o.stage == DefaultStage)
      && (if AmountTruthy(draft.amount) then o.amount == draft.amount else o.amount == NoAmount)
      && (if Truthy(draft.accountName) then o.accountName == draft.accountName.value else o.accountName == lead.company)
  {
    if failure then Failure(ConversionFailedMessage)
    else
      Success(Opportunity(
        now,
        OrElse(draft.name, lead.name),
        OrElse(draft.stage, DefaultStage),
        if AmountTruthy(draft.amount) then draft.amount else NoAmount,
        OrElse(draft.accountName, lead.company),
        lead.id,
        timestamp))
  }

  /** The `{}` draft `convertLead` uses when it is given none. */
  const EmptyDraft := OpportunityDraft(None, None, NoAmount, None)

  /** With an empty draft, the opportunity takes the lead's name and company, stage "Prospecting" and no amount. */
  lemma ConvertWithEmptyDraft(lead: Lead, now: int, timestamp: string)
    ensures ConvertToOpportunity(lead, EmptyDraft, false, now, timestamp)
         == Success(Opportunity(now, lead.name, "Prospecting", NoAmount, lead.company, lead.id, timestamp))
  {
  }

  /**
   * A created opportunity always has a non-empty stage, and a zero amount is
   * stored as no amount.
   */
  lemma ConvertedOpportunityHasStage(lead: Lead, draft: OpportunityDraft, now: int, timestamp: string)
    ensures var r := ConvertToOpportunity(lead, draft, false, now, timestamp);
      r.Success? && r.data.stage != "" && r.data.amount != Number(0.0)
  {
  }
}
