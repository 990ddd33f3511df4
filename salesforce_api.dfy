/**
 * The wrapper around the CRM's REST client: `createDonation`, which sends a
 * payload, classifies the answer and announces a success with the
 * CREATE_DONATION event, and the campaign and recruiter lookups, which build
 * SOQL queries and turn their answers into id => name option lists.
 *
 * The REST client itself is foreign: what it answers to a request is a
 * parameter of the operation that makes the request.
 */
module SalesforceApi {
  import opened PhpValues
  import opened CrmPayload

  /** One entry of a response's `errors` list. */
  datatype ApiError = ApiError(message: string, detail: string)

  /** A REST response; `errors` is None when `$response->data['errors']` is not set. */
  datatype RestResponse = RestResponse(errors: Option<seq<ApiError>>, body: Data)

  /**
   * What the REST client's apiCall() does with a request: it answers, it throws
   * a `Drupal\salesforce\Exception` (the transport's own exception type), or
   * it throws any other exception.
   */
  datatype TransportResult =
    | Responded(response: RestResponse)
    | SalesforceException
    | OtherException

  /** The caller's metadata array: `type`, `submission_data` and `submission`, each possibly absent. */
  datatype Metadata = Metadata(kind: Option<string>, submissionData: Option<Data>, submission: Option<string>)

  /** The empty metadata array `[]`. */
  const NoMetadata := Metadata(None, None, None)

  /** The CREATE_DONATION event: the response and the caller's metadata. */
  datatype SubmissionEvent = SubmissionEvent(response: RestResponse, data: Metadata)

  const CreateDonationEvent := "unhcr_salesforce.create_donation"

  /** How a createDonation() call ends: it returns the response, returns `[]`, or throws. */
  datatype DonationResult = Returned(response: RestResponse) | ReturnedEmpty | Threw

  /** The log line written for one error of a response. */
  function ErrorLine(e: ApiError): string {
    e.message + " " + e.detail
  }

  function ErrorLines(errors: seq<ApiError>): (lines: seq<string>)
    ensures |lines| == |errors|
    ensures forall i :: 0 <= i < |errors| ==> lines[i] == ErrorLine(errors[i])
  {
    seq(|errors|, i requires 0 <= i < |errors| => ErrorLine(errors[i]))
  }

  /**
   * The outcome classification of createDonation(): a response without errors
   * is returned, a response with an errors list ends in the global \Exception,
   * which the handler for the imported `Drupal\salesforce\Exception` does not
   * catch, a transport exception of that imported type is swallowed into `[]`,
   * and any other exception propagates.
   */
  function DonationOutcome(transport: TransportResult): (r: DonationResult)
    ensures r.Returned? <==> transport.Responded? && transport.response.errors.None?
    ensures r.Returned? ==> r.response == transport.response
    ensures r.ReturnedEmpty? <==> transport.SalesforceException?
    ensures r.Threw? <==> transport.OtherException? || (transport.Responded? && transport.response.errors.Some?)
  {
    match transport
    case Responded(response) => if response.errors.Some? then Threw else Returned(response)
    case SalesforceException => ReturnedEmpty
    case OtherException => Threw
  }

  /** addCondition($field, $value, $operator = '='): one condition of a SOQL WHERE clause. */
  datatype Condition = Condition(field: string, operator: string, value: string)

  /** A SOQL query as it is issued. */
  datatype Soql = Soql(objectType: string, fields: seq<string>, conditions: seq<Condition>)

  /** A record returned by a query, reduced to its Id and Name fields. */
  datatype SObject = SObject(id: string, name: string)

  /** What the REST client's query() does: it answers records or throws `Drupal\salesforce\Exception`. */
  datatype QueryResult = Records(records: seq<SObject>) | QueryException

  const IsActiveTrue := Condition("IsActive", "=", "TRUE")

  /** The SelectQuery builder: fields are assigned, conditions appended. */
  class SelectQuery {
    const objectType: string
    var fields: seq<string>
    var conditions: seq<Condition>

    constructor (objectType: string)
      ensures this.objectType == objectType && fields == [] && conditions == []
    {
      this.objectType := objectType;
      fields := [];
      conditions := [];
    }

    method AddCondition(field: string, value: string)
      modifies this
      ensures conditions == old(conditions) + [Condition(field, "=", value)]
      ensures fields == old(fields)
    {
      conditions := conditions + [Condition(field, "=", value)];
    }

    function Snapshot(): Soql
      reads this
    {
      Soql(objectType, fields, conditions)
    }
  }

  /** True when record i is the last of the list with its Id. */
  predicate LastWithId(records: seq<SObject>, i: int)
    requires 0 <= i < |records|
  {
    forall j :: i < j < |records| ==> records[j].id != records[i].id
  }

  /**
   * The loop of getCampaignOptions() and getRecruiterOptions():
   * `$options[$record->field('Id')] = $record->field('Name')` for each record.
   * The keys are exactly the Ids, and each Id maps to the Name of the last
   * record carrying it.
   */
  method IdNameOptions(records: seq<SObject>) returns (options: map<string, string>)
    ensures options.Keys == set r | r in records :: r.id
    ensures forall i :: 0 <= i < |records| && LastWithId(records, i) ==> options[records[i].id] == records[i].name
  {
    options := map[];
    var k := 0;
    while k < |records|
      invariant 0 <= k <= |records|
      invariant options.Keys == set r | r in records[..k] :: r.id
      invariant forall i :: 0 <= i < k && (forall j :: i < j < k ==> records[j].id != records[i].id) ==>
        records[i].id in options && options[records[i].id] == records[i].name
    {
      options := options[records[k].id := records[k].name];
      assert records[..k + 1] == records[..k] + [records[k]];
      k := k + 1;
    }
    assert records[..k] == records;
  }

  /**
   * The Salesforce service. It records what it sends (payloads and SOQL
   * queries), the error lines it logs, and the events it dispatches.
   */
  class SalesforceClient {
    var requests: seq<Payload>
    var queries: seq<Soql>
    var log: seq<string>
    var dispatched: seq<SubmissionEvent>

    constructor ()
      ensures requests == [] && queries == [] && log == [] && dispatched == []
    {
      requests, queries, log, dispatched := [], [], [], [];
    }

    /**
     * createDonation(): PUT the payload, log each error of an error response
     * and throw; otherwise dispatch CREATE_DONATION once, with the response and
     * the caller's metadata, and return the response. A transport exception
     * of the imported type yields `[]` and no event.
     */
    method CreateDonation(data: Payload, metadata: Metadata, transport: TransportResult) returns (r: DonationResult)
      modifies this
      ensures r == DonationOutcome(transport)
      ensures requests == old(requests) + [data]
      ensures log == old(log) + (if transport.Responded? && transport.response.errors.Some?
                                 then ErrorLines(transport.response.errors.value) else [])
      ensures dispatched == old(dispatched) + (if r.Returned? then [SubmissionEvent(r.response, metadata)] else [])
      ensures queries == old(queries)
    {
      requests := requests + [data];
      match transport {
        case SalesforceException =>
          return ReturnedEmpty;
        case OtherException =>
          return Threw;
        case Responded(response) =>
          if response.errors.Some? {
            var errors := response.errors.value;
            var i := 0;
            while i < |errors|
              invariant 0 <= i <= |errors|
              invariant log == old(log) + ErrorLines(errors[..i])
              invariant requests == old(requests) + [data] && dispatched == old(dispatched) && queries == old(queries)
            {
              assert ErrorLines(errors[..i + 1]) == ErrorLines(errors[..i]) + [ErrorLine(errors[i])];
              log := log + [ErrorLine(errors[i])];
              i := i + 1;
            }
            assert errors[..i] == errors;
            return Threw;
          }
          dispatched := dispatched + [SubmissionEvent(response, metadata)];
          return Returned(response);
      }
    }

    /** Issue a query: remember it and take the answer (a caught exception gives no records). */
    method Issue(query: SelectQuery, result: QueryResult) returns (records: seq<SObject>)
      modifies this
      ensures queries == old(queries) + [query.Snapshot()]
      ensures records == if result.Records? then result.records else []
      ensures requests == old(requests) && log == old(log) && dispatched == old(dispatched)
    {
      queries := queries + [query.Snapshot()];
      records := if result.Records? then result.records else [];
    }

    /**
     * getCampaign(): active campaigns with the given Id, further restricted to
     * the configured campaign field when that setting is non-empty; the first
     * record, or FALSE (None) when there is none or the query failed.
     */
    method GetCampaign(campaignId: string, campaignField: Value, result: QueryResult) returns (r: Option<SObject>)
      modifies this
      ensures |queries| == |old(queries)| + 1 && queries[..|old(queries)|] == old(queries)
      ensures var q := queries[|queries| - 1];
        && q.objectType == "Campaign"
        && q.fields == ["Id", "Name", "City_S4U__c", "unig__Sub_Channel__c"]
        && |q.conditions| == (if Empty(campaignField) then 2 else 3)
        && q.conditions[0] == IsActiveTrue
        && q.conditions[1] == Condition("Id", "=", "'" + campaignId + "'")
        && (!Empty(campaignField) ==> q.conditions[2] == Condition(StrOf(campaignField), "=", "TRUE"))
      ensures r.Some? <==> result.Records? && result.records != []
      ensures r.Some? ==> r.value == result.records[0]
      ensures requests == old(requests) && log == old(log) && dispatched == old(dispatched)
    {
      var query := new SelectQuery("Campaign");
      query.fields := ["Id", "Name", "City_S4U__c", "unig__Sub_Channel__c"];
      query.AddCondition("IsActive", "TRUE");
      query.AddCondition("Id", "'" + campaignId + "'");
      if !Empty(campaignField) {
        query.AddCondition(StrOf(campaignField), "TRUE");
      }
      var records := Issue(query, result);
      r := if records != [] then Some(records[0]) else None;
    }

    /**
     * getCampaigns(): every active campaign, restricted to the configured
     * campaign field when that setting is non-empty; no records when the
     * query failed.
     */
    method GetCampaigns(campaignField: Value, result: QueryResult) returns (records: seq<SObject>)
      modifies this
      ensures |queries| == |old(queries)| + 1 && queries[..|old(queries)|] == old(queries)
      ensures var q := queries[|queries| - 1];
        && q.objectType == "Campaign"
        && q.fields == ["Id", "Name"]
        && |q.conditions| == (if Empty(campaignField) then 1 else 2)
        && q.conditions[0] == IsActiveTrue
        && (!Empty(campaignField) ==> q.conditions[1] == Condition(StrOf(campaignField), "=", "TRUE"))
      ensures records == if result.Records? then result.records else []
      ensures requests == old(requests) && log == old(log) && dispatched == old(dispatched)
    {
      var query := new SelectQuery("Campaign");
      query.fields := ["Id", "Name"];
      query.AddCondition("IsActive", "TRUE");
      if !Empty(campaignField) {
        query.AddCondition(StrOf(campaignField), "TRUE");
      }
      records := Issue(query, result);
    }

    /** getCampaignOptions(): Id => Name over getCampaigns(). */
    method GetCampaignOptions(campaignField: Value, result: QueryResult) returns (options: map<string, string>)
      modifies this
      ensures |queries| == |old(queries)| + 1 && queries[..|old(queries)|] == old(queries)
      ensures var records := if result.Records? then result.records else [];
        && options.Keys == (set r | r in records :: r.id)
        && forall i :: 0 <= i < |records| && LastWithId(records, i) ==> options[records[i].id] == records[i].name
      ensures requests == old(requests) && log == old(log) && dispatched == old(dispatched)
    {
      var campaigns := GetCampaigns(campaignField, result);
      options := IdNameOptions(campaigns);
    }

    /** getRecruiters(): every recruiter with Active_s4u__c = TRUE; no records when the query failed. */
    method GetRecruiters(result: QueryResult) returns (records: seq<SObject>)
      modifies this
      ensures queries == old(queries) + [Soql("Recruiter__c", ["Id", "Name"], [Condition("Active_s4u__c", "=", "TRUE")])]
      ensures records == if result.Records? then result.records else []
      ensures requests == old(requests) && log == old(log) && dispatched == old(dispatched)
    {
      var query := new SelectQuery("Recruiter__c");
      query.fields := ["Id", "Name"];
      query.AddCondition("Active_s4u__c", "TRUE");
      assert query.conditions == [Condition("Active_s4u__c", "=", "TRUE")];
      records := Issue(query, result);
    }

    /** getRecruiterOptions(): Id => Name over getRecruiters(). */
    method GetRecruiterOptions(result: QueryResult) returns (options: map<string, string>)
      modifies this
      ensures |queries| == |old(queries)| + 1 && queries[..|old(queries)|] == old(queries)
      ensures var records := if result.Records? then result.records else [];
        && options.Keys == (set r | r in records :: r.id)
        && forall i :: 0 <= i < |records| && LastWithId(records, i) ==> options[records[i].id] == records[i].name
      ensures requests == old(requests) && log == old(log) && dispatched == old(dispatched)
    {
      var recruiters := GetRecruiters(result);
      options := IdNameOptions(recruiters);
    }
  }
}
