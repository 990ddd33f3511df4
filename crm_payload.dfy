/**
 * The payload the exporters send to the CRM's composite "create records"
 * endpoint: an ordered sequence of records, each an `attributes` block and a
 * `record` field map. A later record refers to an earlier one of the same
 * payload through a synthetic back-reference "@ID" to its `referenceId`.
 */
module CrmPayload {
  import opened PhpValues

  /**
   * The CRM fields the exporters write, one constructor per API name; ApiName
   * gives the name that goes on the wire.
   */
  datatype FieldName =
    // Account
    | OrganisationalNumber | Name | ShippingCity | ShippingStreet | ShippingPostalCode
    | PartnerType | PartnerSubType | OfficeType | IncomeTeamManual | IndustrySector
    // Contact
    | PrimaryAffiliation | PersonalId | FirstName | LastName | Email | Phone | MobilePhone
    | MailingCity | MailingStreet | MailingPostalCode | SourceType | SourceCampaign
    // Holding
    | AccountLookup | ContactLookup | HoldingPhone | PaymentMethod | PaymentReference
    | OpportunityAmount | OpportunityCloseDate | RecurringStartDate | RecurringAmount
    | CampaignLookup | RecruiterLookup | GiftshopSummary | IsGiftshopGift | DrupalOrderId
    | CurrencyIsoCode | ProcessType | CustomerType | MandateSigned | BankAccountNumber
    | ContinuationId | ContinuationUrl
    | UtmSource | UtmMedium | UtmCampaign | UtmContent | UtmTerm

  function ApiName(f: FieldName): string {
    match f
    case OrganisationalNumber => "Organisational_Number_S4U__c"
    case Name => "Name"
    case ShippingCity => "ShippingCity"
    case ShippingStreet => "ShippingStreet"
    case ShippingPostalCode => "ShippingPostalCode"
    case PartnerType => "unig__Partner_Type__c"
    case PartnerSubType => "unig__Partner_Sub_Type__c"
    case OfficeType => "unig__Office_Type__c"
    case IncomeTeamManual => "unig__Income_Team_Manual__c"
    case IndustrySector => "unig__Industry_Sector__c"
    case PrimaryAffiliation => "npsp__Primary_Affiliation__c"
    case PersonalId => "Personal_ID_S4U__c"
    case FirstName => "FirstName"
    case LastName => "LastName"
    case Email => "Email"
    case Phone => "Phone"
    case MobilePhone => "MobilePhone"
    case MailingCity => "MailingCity"
    case MailingStreet => "MailingStreet"
    case MailingPostalCode => "MailingPostalCode"
    case SourceType => "unig__Source_Type__c"
    case SourceCampaign => "unig__Source_Campaign__c"
    case AccountLookup => "gcdt__Account__c"
    case ContactLookup => "gcdt__Contact__c"
    case HoldingPhone => "Phone_S4U__c"
    case PaymentMethod => "gcdt__Payment_Method__c"
    case PaymentReference => "gcdt__Payment_Reference__c"
    case OpportunityAmount => "gcdt__Opportunity_Amount__c"
    case OpportunityCloseDate => "gcdt__Opportunity_CloseDate__c"
    case RecurringStartDate => "gcdt__Recurring_Start_Date__c"
    case RecurringAmount => "gcdt__Recurring_Amount__c"
    case CampaignLookup => "gcdt__Campaign__c"
    case RecruiterLookup => "Recruiter_S4U__c"
    case GiftshopSummary => "Giftshop_Summary_S4U__c"
    case IsGiftshopGift => "Is_Giftshop_Gift_S4U__c"
    case DrupalOrderId => "Drupal_Order_ID_S4U__c"
    case CurrencyIsoCode => "CurrencyISOCode"
    case ProcessType => "gcdt__Process_Type__c"
    case CustomerType => "Customer_Type_S4U__c"
    case MandateSigned => "Mandate_Signed_S4U__c"
    case BankAccountNumber => "Bank_Account_Number_S4U__c"
    case ContinuationId => "Sign_Up_Continuation_ID_S4U__c"
    case ContinuationUrl => "Sign_Up_Continuation_URL_S4U__c"
    case UtmSource => "UTM_Source_S4U__c"
    case UtmMedium => "UTM_Medium_S4U__c"
    case UtmCampaign => "UTM_Campaign_S4U__c"
    case UtmContent => "UTM_Content_S4U__c"
    case UtmTerm => "UTM_Term_S4U__c"
  }

  /** The `record` part: CRM field to value. */
  type Fields = map<FieldName, Value>

  /** The `attributes` part: sObject, referenceId, matchRecord, doNotOverride. */
  datatype Attributes = Attributes(
    sObject: string,
    referenceId: Option<string>,
    matchRecord: Option<string>,
    doNotOverride: Option<string>)

  datatype CrmRecord = CrmRecord(attributes: Attributes, fields: Fields)

  /** The `data` list of one request. */
  type Payload = seq<CrmRecord>

  const Account := "Account"
  const Contact := "Contact"
  const Holding := "gcdt__Holding__c"

  /** The lookup fields the exporters fill with a back-reference to another record of the payload. */
  const LookupFields: set<FieldName> := {PrimaryAffiliation, AccountLookup, ContactLookup}

  /** The back-reference "@id". */
  function Ref(id: string): Value {
    Str("@" + id)
  }

  /** The sObject types of the records, in order. */
  function Kinds(p: Payload): (r: seq<string>)
    ensures |r| == |p|
    ensures forall i :: 0 <= i < |p| ==> r[i] == p[i].attributes.sObject
  {
    if p == [] then [] else [p[0].attributes.sObject] + Kinds(p[1..])
  }

  /** The kind of a payload of one record. */
  lemma KindsOfSingle(p: Payload)
    requires |p| == 1
    ensures Kinds(p) == [p[0].attributes.sObject]
  {
  }

  /** The kinds of a payload of two records. */
  lemma KindsOfPair(p: Payload)
    requires |p| == 2
    ensures Kinds(p) == [p[0].attributes.sObject, p[1].attributes.sObject]
  {
  }

  /** The kinds of a payload of three records. */
  lemma KindsOfTriple(p: Payload)
    requires |p| == 3
    ensures Kinds(p) == [p[0].attributes.sObject, p[1].attributes.sObject, p[2].attributes.sObject]
  {
  }

  /** Some record before position i declares referenceId id. */
  predicate DeclaredBefore(p: Payload, i: int, id: string)
    requires 0 <= i <= |p|
  {
    exists j :: 0 <= j < i && p[j].attributes.referenceId == Some(id)
  }

  /** v is "@id" for an id that a record before position i declares. */
  predicate ResolvesBefore(p: Payload, i: int, v: Value)
    requires 0 <= i <= |p|
  {
    v.Str? && |v.s| > 0 && v.s[0] == '@' && DeclaredBefore(p, i, v.s[1..])
  }

  /** Every lookup field of every record resolves to a record declared earlier in the payload. */
  predicate WellLinked(p: Payload) {
    forall i, f :: 0 <= i < |p| && f in p[i].fields && f in LookupFields ==>
      ResolvesBefore(p, i, p[i].fields[f])
  }

  /** The lookup fields of one record, placed at position i, resolve. */
  predicate LinkedAt(p: Payload, i: int)
    requires 0 <= i < |p|
  {
    forall f :: f in p[i].fields && f in LookupFields ==> ResolvesBefore(p, i, p[i].fields[f])
  }

  /** A back-reference to the record at position j resolves from any later position. */
  lemma RefResolves(p: Payload, i: int, j: int, id: string)
    requires 0 <= j < i <= |p|
    requires p[j].attributes.referenceId == Some(id)
    ensures ResolvesBefore(p, i, Ref(id))
  {
    assert Ref(id).s[1..] == id;
  }

  /** A payload is well linked when each of its records is. */
  lemma WellLinkedFromRecords(p: Payload)
    requires forall i :: 0 <= i < |p| ==> LinkedAt(p, i)
    ensures WellLinked(p)
  {
    forall i, f | 0 <= i < |p| && f in p[i].fields && f in LookupFields
      ensures ResolvesBefore(p, i, p[i].fields[f])
    {
      assert LinkedAt(p, i);
    }
  }

  /** No lookup field at all: a record no back-reference leaves from. */
  predicate NoLookups(f: Fields) {
    PrimaryAffiliation !in f && AccountLookup !in f && ContactLookup !in f
  }

  /** A record without lookups declared as CONTACT, then a record pointing at it only: well linked. */
  lemma LinkedPerson(contact: CrmRecord, holding: CrmRecord)
    requires contact.attributes.referenceId == Some("CONTACT") && NoLookups(contact.fields)
    requires ContactLookup in holding.fields && holding.fields[ContactLookup] == Ref("CONTACT")
    requires AccountLookup !in holding.fields && PrimaryAffiliation !in holding.fields
    ensures WellLinked([contact, holding])
  {
    var p := [contact, holding];
    RefResolves(p, 1, 0, "CONTACT");
    WellLinkedFromRecords(p);
  }

  /** A single record without lookups is well linked. */
  lemma LinkedAlone(r: CrmRecord)
    requires NoLookups(r.fields)
    ensures WellLinked([r])
  {
  }
}
