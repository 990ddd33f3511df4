/**
 * The web variant of the `salesforce_queue` worker: it loads the submission
 * named by the queue item, gates it on its state, maps it to a one-time or an
 * autogiro (monthly direct debit) payload depending on `order_type`, sends it
 * through createDonation() and turns every failure into a thrown exception,
 * which makes the queue retry the item.
 */
module WebQueue {
  import opened PhpValues
  import opened CrmPayload
  import opened Entities
  import opened SalesforceApi

  // ---------------------------------------------------------------------
  // The state gate: validateSubmissionState().
  // ---------------------------------------------------------------------

  /**
   * Export `signed` and `missing_bank_interest_queued` submissions, and
   * `error` ones whose error type is a charity communication error; skip
   * the already-sent states with a warning, every other state (including
   * `missing_bank_signed` and an empty state) with an error.
   */
  function ValidateSubmissionState(state: Option<string>, errorType: Option<string>): (r: GateResult)
    ensures r.valid <==> state == Some(Signed) || state == Some(MissingBankInterestQueued)
                         || (state == Some(ErrorState) && errorType == Some(CharityCommunicationError))
    ensures r.valid ==> r.level == Info
    ensures !r.valid && (state == Some(CreatedBisnode) || state == Some(MissingBankInterestCreated)) ==> r.level == Warning
    ensures !r.valid && state != Some(CreatedBisnode) && state != Some(MissingBankInterestCreated) ==> r.level == Error
  {
    var v := StateValue(state);
    LooseEqualsOnState(state, Signed);
    LooseEqualsOnState(state, MissingBankInterestQueued);
    LooseEqualsOnState(state, CreatedBisnode);
    LooseEqualsOnState(state, MissingBankInterestCreated);
    LooseEqualsOnState(state, ErrorState);
    if LooseEquals(v, Signed) then GateResult(true, Info)
    else if LooseEquals(v, MissingBankInterestQueued) then GateResult(true, Info)
    else if LooseEquals(v, CreatedBisnode) || LooseEquals(v, MissingBankInterestCreated) then GateResult(false, Warning)
    else if LooseEquals(v, ErrorState) then
      (if errorType == Some(CharityCommunicationError) then GateResult(true, Info) else GateResult(false, Error))
    else GateResult(false, Error)
  }

  // ---------------------------------------------------------------------
  // Dispatch on order_type.
  // ---------------------------------------------------------------------

  const MonthlyOrderType := "unhcr_monthly_order_type"
  const GiftOrderType := "unhcr_gift"
  const OneTimeOrderTypes: set<string> := {"unhcr_honorial_", "engasgava_order", "unhcr_one_time_company_", GiftOrderType}

  datatype Branch = AutoGiro | OneTime | NoBranch

  /**
   * The `switch ($submission_data['order_type'])` of processItem(): the
   * monthly order type goes to the autogiro mapper, the four one-time types
   * to the one-time mapper, anything else to no mapper at all.
   */
  function OrderTypeBranch(orderType: Value): (r: Branch)
    ensures orderType.Str? ==> (r == AutoGiro <==> orderType.s == MonthlyOrderType)
    ensures orderType.Str? ==> (r == OneTime <==> (orderType.s in OneTimeOrderTypes))
    ensures orderType == Null ==> r == NoBranch
    ensures orderType == Bool(true) ==> r == AutoGiro
    ensures orderType == Bool(false) ==> r == NoBranch
    ensures orderType.Int? ==> r == NoBranch
  {
    // An integer prints as digits or '-' first; every label starts with a letter.
    assert orderType.Int? ==> StrOf(orderType)[0] == '-' || IsDigit(StrOf(orderType)[0]);
    if LooseEquals(orderType, MonthlyOrderType) then AutoGiro
    else if LooseEquals(orderType, "unhcr_honorial_") || LooseEquals(orderType, "engasgava_order")
         || LooseEquals(orderType, "unhcr_one_time_company_") || LooseEquals(orderType, GiftOrderType) then OneTime
    else NoBranch
  }

  /** `$submission_data['order_type'] === 'unhcr_gift'`: a gift is one of the one-time order types. */
  predicate IsGift(data: Data)
    ensures IsGift(data) ==> OrderTypeBranch(Get(data, "order_type")) == OneTime
  {
    Get(data, "order_type") == Str(GiftOrderType)
  }

  /**
   * `switch ($submission_data['field_customer_type_value'])` takes case 'C'
   * (a company): for the string 'C' and, by the loose comparison, for TRUE;
   * a missing type, 'P' and anything else take the private arm.
   */
  predicate IsCompany(data: Data)
    ensures IsCompany(data) <==> Get(data, "field_customer_type_value") == Str("C")
                                 || Get(data, "field_customer_type_value") == Bool(true)
  {
    LooseEquals(Get(data, "field_customer_type_value"), "C")
  }

  // ---------------------------------------------------------------------
  // Field rules shared by both mappers.
  // ---------------------------------------------------------------------

  /**
   * The social security / organisation number: `field_org_number` when set,
   * else `pnum` when set, else ''; every '-' removed.
   */
  function Ssn(data: Data): (r: string)
    ensures '-' !in r
    ensures IsSet(data, "field_org_number") ==> r == RemoveChar(StrOf(data["field_org_number"]), '-')
    ensures !IsSet(data, "field_org_number") && IsSet(data, "pnum") ==> r == RemoveChar(StrOf(data["pnum"]), '-')
    ensures !IsSet(data, "field_org_number") && !IsSet(data, "pnum") ==> r == ""
  {
    var raw := if IsSet(data, "field_org_number") then data["field_org_number"]
               else if IsSet(data, "pnum") then data["pnum"] else Str("");
    RemoveChar(StrOf(raw), '-')
  }

  /** The single-quoted PHP literal '\r\n': backslash, r, backslash, n. */
  const LiteralCrLf := "\\r\\n"

  function CompanyName(data: Data): Value {
    if !Empty(Get(data, "field_company_name")) then Get(data, "field_company_name") else Str("")
  }

  /**
   * The shipping / mailing street: `street_address`, followed by the
   * four characters of '\r\n' and the company name when that name is not
   * empty.
   */
  function StreetLine(data: Data): (r: Value)
    ensures Empty(Get(data, "field_company_name")) ==> r == Get(data, "street_address")
    ensures !Empty(Get(data, "field_company_name")) ==>
      r == Str(StrOf(Get(data, "street_address")) + LiteralCrLf + StrOf(Get(data, "field_company_name")))
  {
    var company := CompanyName(data);
    if !Empty(company) then Str(StrOf(Get(data, "street_address")) + LiteralCrLf + StrOf(company))
    else Get(data, "street_address")
  }

  /** The appended separator is not a line break: it holds no CR and no LF. */
  lemma StreetSeparatorIsLiteral()
    ensures |LiteralCrLf| == 4 && '\r' !in LiteralCrLf && '\n' !in LiteralCrLf
  {
  }

  /** The postal code with every space removed. */
  function PostalCode(data: Data): (r: string)
    ensures ' ' !in r
    ensures forall c :: c in r <==> c in StrOf(Get(data, "postal_code")) && c != ' '
    ensures multiset(r) == multiset(StrOf(Get(data, "postal_code")))[' ' := 0]
  {
    RemoveChar(StrOf(Get(data, "postal_code")), ' ')
  }

  /**
   * The (int) cast of the amount: an integer amount as it is, a missing or
   * empty one 0, any other within the 64-bit range.
   */
  function Amount(data: Data): (r: int)
    ensures Get(data, "amount").Int? ==> r == Get(data, "amount").i
    ensures Empty(Get(data, "amount")) ==> r == 0
    ensures !Get(data, "amount").Int? ==> MinInt64 <= r <= MaxInt64
  {
    IntCast(Get(data, "amount"))
  }

  // ---------------------------------------------------------------------
  // getPaymentMethod(), getUTM(), getGiftshopSummary().
  // ---------------------------------------------------------------------

  /** The plugin id of the payment gateway named by `payment_gateway_id`, or '' when none loads. */
  function GatewayPlugin(gateways: map<string, string>, data: Data): (r: string)
    ensures r == "" || r in gateways.Values
    ensures Get(data, "payment_gateway_id") != Null && StrOf(Get(data, "payment_gateway_id")) in gateways ==>
      r == gateways[StrOf(Get(data, "payment_gateway_id"))]
    ensures Get(data, "payment_gateway_id") == Null ==> r == ""
    ensures StrOf(Get(data, "payment_gateway_id")) !in gateways ==> r == ""
  {
    var g := Load(gateways, Get(data, "payment_gateway_id"));
    if g.Some? then g.value else ""
  }

  const KnownGateways: set<string> :=
    {"swedbank_pay_card", "swedbank_pay_swish", "swedbank_pay_trustly", "unhcr_onsite_invoice"}

  /**
   * getPaymentMethod(): the CRM payment method of a gateway plugin: card,
   * Swish, Trustly and the on-site invoice have their own label; anything
   * else is "Other".
   */
  function PaymentMethodOf(gatewayPlugin: string): (r: string)
    ensures r == "Credit Card" <==> gatewayPlugin == "swedbank_pay_card"
    ensures r == "Swish" <==> gatewayPlugin == "swedbank_pay_swish"
    ensures r == "Internet Banking" <==> gatewayPlugin == "swedbank_pay_trustly"
    ensures r == "PGBG OCR" <==> gatewayPlugin == "unhcr_onsite_invoice"
    ensures r == "Other" <==> (gatewayPlugin !in KnownGateways)
  {
    if LooseEquals(Str(gatewayPlugin), "swedbank_pay_card") then "Credit Card"
    else if LooseEquals(Str(gatewayPlugin), "swedbank_pay_swish") then "Swish"
    else if LooseEquals(Str(gatewayPlugin), "swedbank_pay_trustly") then "Internet Banking"
    else if LooseEquals(Str(gatewayPlugin), "unhcr_onsite_invoice") then "PGBG OCR"
    else "Other"
  }

  /** A submission without a loadable gateway is paid by "Other". */
  lemma MissingGatewayIsOther(gateways: map<string, string>, data: Data)
    requires Load(gateways, Get(data, "payment_gateway_id")).None?
    ensures PaymentMethodOf(GatewayPlugin(gateways, data)) == "Other"
  {
  }

  /** The order getUTM() loads, by the submission data's `order_id`. */
  function UtmOrder(orders: map<string, Order>, data: Data): Option<Order> {
    Load(orders, Get(data, "order_id"))
  }

  /** The `$utm_codes` array: source, medium, campaign, content, term. */
  datatype UtmCodes = UtmCodes(source: Value, medium: Value, campaign: Value, content: Value, term: Value)

  /** One UTM code: the order's data under `name`, '' by default or without an order. */
  function UtmOf(order: Option<Order>, name: string): Value {
    if order.Some? then OrderData(order.value, name, Str("")) else Str("")
  }

  /** The codes an order carries, each '' when it has none. */
  function OrderUtm(order: Option<Order>): UtmCodes {
    UtmCodes(UtmOf(order, "utm_source"), UtmOf(order, "utm_medium"), UtmOf(order, "utm_campaign"),
             UtmOf(order, "utm_content"), UtmOf(order, "utm_term"))
  }

  /** getUTM(): all five codes, each '' unless the order carries it. */
  method GetUtm(order: Option<Order>) returns (codes: UtmCodes)
    ensures codes == OrderUtm(order)
    ensures order.None? ==> codes == UtmCodes(Str(""), Str(""), Str(""), Str(""), Str(""))
  {
    codes := UtmCodes(Str(""), Str(""), Str(""), Str(""), Str(""));
    if order.Some? {
      var o := order.value;
      codes := codes.(source := OrderData(o, "utm_source", Str("")));
      codes := codes.(medium := OrderData(o, "utm_medium", Str("")));
      codes := codes.(campaign := OrderData(o, "utm_campaign", Str("")));
      codes := codes.(content := OrderData(o, "utm_content", Str("")));
      codes := codes.(term := OrderData(o, "utm_term", Str("")));
    }
  }

  /** The five UTM fields of a Holding record carry the codes. */
  predicate CarriesUtm(h: Fields, utm: UtmCodes) {
    && UtmSource in h && h[UtmSource] == utm.source
    && UtmMedium in h && h[UtmMedium] == utm.medium
    && UtmCampaign in h && h[UtmCampaign] == utm.campaign
    && UtmContent in h && h[UtmContent] == utm.content
    && UtmTerm in h && h[UtmTerm] == utm.term
  }

  /** The five UTM fields of a Holding, as getUTM() returns them. */
  function UtmFields(utm: UtmCodes): (h: Fields)
    ensures h.Keys == UtmKeys
    ensures CarriesUtm(h, utm)
  {
    map[UtmSource := utm.source, UtmMedium := utm.medium, UtmCampaign := utm.campaign,
        UtmContent := utm.content, UtmTerm := utm.term]
  }

  const GiftSeparator := "<br />"

  /** implode($sep, $lines), defined from the last line backwards. */
  function Implode(lines: seq<string>, sep: string): string {
    if |lines| == 0 then ""
    else if |lines| == 1 then lines[0]
    else Implode(lines[..|lines| - 1], sep) + sep + lines[|lines| - 1]
  }

  function TotalLength(lines: seq<string>): nat {
    if lines == [] then 0 else |lines[0]| + TotalLength(lines[1..])
  }

  lemma {:induction false} TotalLengthSnoc(lines: seq<string>, x: string)
    ensures TotalLength(lines + [x]) == TotalLength(lines) + |x|
  {
    if lines != [] {
      assert (lines + [x])[1..] == lines[1..] + [x];
      TotalLengthSnoc(lines[1..], x);
    }
  }

  /** The joined summary is as long as its lines plus one separator between each two. */
  lemma {:induction false} ImplodeLength(lines: seq<string>, sep: string)
    ensures |Implode(lines, sep)| == TotalLength(lines) + (if |lines| == 0 then 0 else (|lines| - 1) * |sep|)
  {
    if |lines| == 1 {
      assert lines == [] + [lines[0]];
      TotalLengthSnoc([], lines[0]);
    } else if |lines| > 1 {
      ImplodeLength(lines[..|lines| - 1], sep);
      assert (|lines| - 1) * |sep| == (|lines| - 2) * |sep| + |sep|;
      assert lines[..|lines| - 1] + [lines[|lines| - 1]] == lines;
      TotalLengthSnoc(lines[..|lines| - 1], lines[|lines| - 1]);
    }
  }

  /**
   * getGiftshopSummary(): one line per order item, joined with "<br />".
   * The item lines (labels, quantity and the formatted price) come rendered.
   */
  method GetGiftshopSummary(itemLines: seq<string>) returns (summary: string)
    ensures summary == Implode(itemLines, GiftSeparator)
  {
    summary := "";
    var i := 0;
    while i < |itemLines|
      invariant 0 <= i <= |itemLines|
      invariant summary == Implode(itemLines[..i], GiftSeparator)
    {
      assert itemLines[..i + 1][..i] == itemLines[..i];
      summary := if i == 0 then itemLines[0] else summary + GiftSeparator + itemLines[i];
      i := i + 1;
    }
    assert itemLines[..i] == itemLines;
  }

  // ---------------------------------------------------------------------
  // The records of the payloads.
  // ---------------------------------------------------------------------

  /** The date and configuration a run of the worker reads: today's date and the gift campaign setting. */
  datatype WebEnv = WebEnv(today: string, giftCampaign: Value)

  /**
   * The submission data as both mappers read it before building records:
   * the cleaned identity number, the street line, the space-free postal
   * code, the (int) amount and the plain fields they copy.
   */
  datatype WebForm = WebForm(
    ssn: string,
    firstName: Value,
    lastName: Value,
    email: Value,
    city: Value,
    street: Value,
    postalCode: string,
    companyName: Value,
    phone: Value,
    transactionId: Value,
    amount: int,
    orderId: Value,
    charityCampaign: Value,
    gift: bool)

  function ReadWebForm(data: Data): WebForm {
    WebForm(
      Ssn(data), Get(data, "first_name"), Get(data, "last_name"), Get(data, "email"), Get(data, "city"),
      StreetLine(data), PostalCode(data), CompanyName(data), Coalesce(data, "mobile_phone", Str("")),
      Get(data, "transaction_id"), Amount(data), Get(data, "order_id"), Get(data, "field_charity_campaign"),
      IsGift(data))
  }

  const PersonContactKeys: set<FieldName> :=
    {PersonalId, FirstName, LastName, Email, MailingCity, MailingStreet, MailingPostalCode, SourceType}

  /**
   * A private donor's identity, name, e-mail and mailing address, as a
   * donation source, with exactly these fields and so no back-reference.
   */
  predicate PersonIdentity(f: Fields, form: WebForm) {
    && f.Keys == PersonContactKeys
    && NoLookups(f)
    && f[PersonalId] == Str(form.ssn)
    && f[FirstName] == form.firstName
    && f[LastName] == form.lastName
    && f[Email] == form.email
    && f[MailingCity] == form.city
    && f[MailingStreet] == form.street
    && f[MailingPostalCode] == Str(form.postalCode)
    && f[SourceType] == Str("Donation")
  }

  /**
   * The Contact of a private donor (one-time and autogiro alike), matched on
   * its fields and declared as CONTACT.
   */
  method PersonContact(form: WebForm) returns (r: CrmRecord)
    ensures r.attributes == Attributes(Contact, Some("CONTACT"), Some("true"), None)
    ensures PersonIdentity(r.fields, form)
  {
    r := CrmRecord(Attributes(Contact, Some("CONTACT"), Some("true"), None), map[
      PersonalId := Str(form.ssn),
      FirstName := form.firstName,
      LastName := form.lastName,
      Email := form.email,
      MailingCity := form.city,
      MailingStreet := form.street,
      MailingPostalCode := Str(form.postalCode),
      SourceType := Str("Donation")]);
  }

  /**
   * A company's organisation number and shipping address, its name (the
   * company name, or the contact's full name without one), and no
   * back-reference.
   */
  predicate CompanyIdentity(f: Fields, form: WebForm) {
    && f.Keys == CompanyAccountKeys
    && NoLookups(f)
    && f[OrganisationalNumber] == Str(form.ssn)
    && f[ShippingCity] == form.city
    && f[ShippingStreet] == form.street
    && f[ShippingPostalCode] == Str(form.postalCode)
    && f[Name] == (if !Empty(form.companyName) then form.companyName
                   else Str(StrOf(form.firstName) + " " + StrOf(form.lastName)))
    && SmeClassification(f)
  }

  const CompanyAccountKeys: set<FieldName> :=
    {OrganisationalNumber, Name, ShippingCity, ShippingStreet, ShippingPostalCode,
     PartnerType, PartnerSubType, OfficeType, IncomeTeamManual, IndustrySector}

  /** Every web company is filed as a corporate SME headquarters of the PPH team, sector unknown. */
  predicate SmeClassification(f: Fields)
    requires {PartnerType, PartnerSubType, OfficeType, IncomeTeamManual, IndustrySector} <= f.Keys
  {
    && f[PartnerType] == Str("Corporate")
    && f[PartnerSubType] == Str("SME")
    && f[OfficeType] == Str("Headquarters")
    && f[IncomeTeamManual] == Str("PPH")
    && f[IndustrySector] == Str("Unknown")
  }

  /** The Account of a company donor, matched on its fields and declared as ACCOUNT. */
  method CompanyAccount(form: WebForm) returns (r: CrmRecord)
    ensures r.attributes == Attributes(Account, Some("ACCOUNT"), Some("true"), None)
    ensures CompanyIdentity(r.fields, form)
  {
    r := CrmRecord(Attributes(Account, Some("ACCOUNT"), Some("true"), None), map[
      OrganisationalNumber := Str(form.ssn),
      Name := if !Empty(form.companyName) then form.companyName
              else Str(StrOf(form.firstName) + " " + StrOf(form.lastName)),
      ShippingCity := form.city,
      ShippingStreet := form.street,
      ShippingPostalCode := Str(form.postalCode),
      PartnerType := Str("Corporate"),
      PartnerSubType := Str("SME"),
      OfficeType := Str("Headquarters"),
      IncomeTeamManual := Str("PPH"),
      IndustrySector := Str("Unknown")]);
  }

  /** Affiliated to the ACCOUNT, with no identity number of its own. */
  predicate AffiliatedToAccount(f: Fields) {
    && PrimaryAffiliation in f && f[PrimaryAffiliation] == Ref("ACCOUNT")
    && AccountLookup !in f && ContactLookup !in f && PersonalId !in f
  }

  const CompanyContactKeys: set<FieldName> := {PrimaryAffiliation, FirstName, LastName, Email, SourceType}

  /** A company's contact person: affiliated to the ACCOUNT, name and e-mail, as a donation source. */
  predicate CompanyContactFields(f: Fields, form: WebForm) {
    && f.Keys == CompanyContactKeys
    && AffiliatedToAccount(f)
    && f[FirstName] == form.firstName
    && f[LastName] == form.lastName
    && f[Email] == form.email
    && f[SourceType] == Str("Donation")
  }

  /** The Contact of a company donor, declared as CONTACT. */
  method CompanyContact(form: WebForm) returns (r: CrmRecord)
    ensures r.attributes == Attributes(Contact, Some("CONTACT"), Some("true"), None)
    ensures CompanyContactFields(r.fields, form)
  {
    r := CrmRecord(Attributes(Contact, Some("CONTACT"), Some("true"), None), map[
      PrimaryAffiliation := Ref("ACCOUNT"),
      FirstName := form.firstName,
      LastName := form.lastName,
      Email := form.email,
      SourceType := Str("Donation")]);
  }

  /** A one-time Holding points at the CONTACT, and at the ACCOUNT exactly for a company. */
  predicate OneTimeLinks(f: Fields, company: bool) {
    && ContactLookup in f && f[ContactLookup] == Ref("CONTACT")
    && (company <==> AccountLookup in f)
    && (company ==> f[AccountLookup] == Ref("ACCOUNT"))
    && PrimaryAffiliation !in f
  }

  /** The gift flag, and the campaign and gift summary the Holding is given. */
  predicate GiftFields(f: Fields, gift: bool, campaign: Value, summary: Value) {
    && CampaignLookup in f && f[CampaignLookup] == campaign
    && GiftshopSummary in f && f[GiftshopSummary] == summary
    && IsGiftshopGift in f && f[IsGiftshopGift] == Bool(gift)
  }

  /** A single payment: method, reference and (int) amount, closed today, in SEK, as WebSingle. */
  predicate OneTimePayment(f: Fields, form: WebForm, paymentMethod: string, today: string) {
    && PaymentMethod in f && f[PaymentMethod] == Str(paymentMethod)
    && PaymentReference in f && f[PaymentReference] == form.transactionId
    && OpportunityAmount in f && f[OpportunityAmount] == Int(form.amount)
    && OpportunityCloseDate in f && f[OpportunityCloseDate] == Str(today)
    && CurrencyIsoCode in f && f[CurrencyIsoCode] == Str("SEK")
    && ProcessType in f && f[ProcessType] == Str("WebSingle")
  }

  /** The phone (`mobile_phone ?? ''`), the order id and the 'Private' customer type of a one-time Holding. */
  predicate OneTimeDonor(f: Fields, form: WebForm) {
    && HoldingPhone in f && f[HoldingPhone] == form.phone
    && DrupalOrderId in f && f[DrupalOrderId] == form.orderId
    && CustomerType in f && f[CustomerType] == Str("Private")
  }

  const UtmKeys: set<FieldName> := {UtmSource, UtmMedium, UtmCampaign, UtmContent, UtmTerm}

  const OneTimeDonorKeys: set<FieldName> := {HoldingPhone, DrupalOrderId, CustomerType}
  const GiftKeys: set<FieldName> := {CampaignLookup, GiftshopSummary, IsGiftshopGift}
  const OneTimePaymentKeys: set<FieldName> :=
    {PaymentMethod, PaymentReference, OpportunityAmount, OpportunityCloseDate, CurrencyIsoCode, ProcessType}
  const OneTimeFieldKeys: set<FieldName> := OneTimeDonorKeys + GiftKeys + OneTimePaymentKeys + UtmKeys

  /** The fields of a one-time Holding: its lookups and no other field than these. */
  function OneTimeHoldingKeys(company: bool): set<FieldName> {
    OneTimeFieldKeys + {ContactLookup} + (if company then {AccountLookup} else {})
  }

  /** The map display of a one-time Holding's fields other than its two lookups. */
  function OneTimeFieldMap(form: WebForm, paymentMethod: string, today: string, utm: UtmCodes,
                           campaign: Value, summary: Value): (h: Fields)
    ensures h.Keys == OneTimeFieldKeys
  {
    map[
      HoldingPhone := form.phone,
      PaymentMethod := Str(paymentMethod),
      PaymentReference := form.transactionId,
      OpportunityAmount := Int(form.amount),
      CampaignLookup := campaign,
      GiftshopSummary := summary,
      IsGiftshopGift := Bool(form.gift),
      DrupalOrderId := form.orderId,
      OpportunityCloseDate := Str(today),
      CurrencyIsoCode := Str("SEK"),
      ProcessType := Str("WebSingle"),
      CustomerType := Str("Private"),
      UtmSource := utm.source,
      UtmMedium := utm.medium,
      UtmCampaign := utm.campaign,
      UtmContent := utm.content,
      UtmTerm := utm.term]
  }

  /** The fields of a one-time Holding other than its two lookups. */
  method OneTimeHoldingFields(form: WebForm, paymentMethod: string, today: string, utm: UtmCodes,
                              campaign: Value, summary: Value) returns (h: Fields)
    ensures h.Keys == OneTimeFieldKeys
    ensures NoLookups(h)
    ensures OneTimeDonor(h, form)
    ensures GiftFields(h, form.gift, campaign, summary)
    ensures OneTimePayment(h, form, paymentMethod, today)
    ensures CarriesUtm(h, utm)
  {
    h := OneTimeFieldMap(form, paymentMethod, today, utm, campaign, summary);
  }

  /**
   * The Holding of a one-time donation, with the payment method, campaign
   * and gift summary it is given; a company's also points at the ACCOUNT.
   */
  method OneTimeHoldingRecord(form: WebForm, paymentMethod: string, today: string, utm: UtmCodes,
                              campaign: Value, summary: Value, company: bool) returns (r: CrmRecord)
    ensures r.attributes == Attributes(Holding, None, None, None)
    ensures r.fields.Keys == OneTimeHoldingKeys(company)
    ensures OneTimeLinks(r.fields, company)
    ensures OneTimeDonor(r.fields, form)
    ensures GiftFields(r.fields, form.gift, campaign, summary)
    ensures OneTimePayment(r.fields, form, paymentMethod, today)
    ensures CarriesUtm(r.fields, utm)
  {
    var h := OneTimeHoldingFields(form, paymentMethod, today, utm, campaign, summary);
    h := h[ContactLookup := Ref("CONTACT")];
    if company {
      h := h[AccountLookup := Ref("ACCOUNT")];
    }
    r := CrmRecord(Attributes(Holding, None, None, None), h);
  }

  /** `$state == 'signed' || $state == 'missing_bank_signed'` on a non-empty state. */
  function MandateIsSigned(state: Option<string>): (signed: bool)
    ensures signed <==> state == Some(Signed) || state == Some(MissingBankSigned)
  {
    LooseEqualsOnState(state, Signed);
    LooseEqualsOnState(state, MissingBankSigned);
    state.Some? && (LooseEquals(Str(state.value), Signed) || LooseEquals(Str(state.value), MissingBankSigned))
  }

  /** An autogiro Holding points at the CONTACT only and carries the mandate flag it is given. */
  predicate AutoGiroLinks(f: Fields, signed: bool) {
    && ContactLookup in f && f[ContactLookup] == Ref("CONTACT")
    && AccountLookup !in f && PrimaryAffiliation !in f
    && MandateSigned in f && f[MandateSigned] == Bool(signed)
  }

  /** A recurring (int) amount from today, paid by Autogiro as WebRegular, for the campaign or ''. */
  predicate AutoGiroPayment(f: Fields, form: WebForm, campaign: Value, today: string) {
    && RecurringAmount in f && f[RecurringAmount] == Int(form.amount)
    && RecurringStartDate in f && f[RecurringStartDate] == Str(today)
    && PaymentMethod in f && f[PaymentMethod] == Str("Autogiro")
    && ProcessType in f && f[ProcessType] == Str("WebRegular")
    && CampaignLookup in f && f[CampaignLookup] == campaign
  }

  const AutoGiroHoldingKeys: set<FieldName> :=
    {ContactLookup, HoldingPhone, RecurringStartDate, RecurringAmount, PaymentMethod, CampaignLookup,
     MandateSigned, CurrencyIsoCode, ProcessType, DrupalOrderId} + UtmKeys

  /** The phone (`mobile_phone ?? ''`), the order id and the SEK currency of an autogiro Holding, and no other field. */
  predicate AutoGiroDonor(f: Fields, form: WebForm) {
    && f.Keys == AutoGiroHoldingKeys
    && f[HoldingPhone] == form.phone
    && f[DrupalOrderId] == form.orderId
    && f[CurrencyIsoCode] == Str("SEK")
  }

  /** The Holding of an autogiro donation. */
  method AutoGiroHoldingRecord(form: WebForm, signed: bool, campaign: Value, today: string, utm: UtmCodes)
    returns (r: CrmRecord)
    ensures r.attributes == Attributes(Holding, None, None, None)
    ensures AutoGiroDonor(r.fields, form)
    ensures AutoGiroLinks(r.fields, signed)
    ensures AutoGiroPayment(r.fields, form, campaign, today)
    ensures CarriesUtm(r.fields, utm)
  {
    r := CrmRecord(Attributes(Holding, None, None, None), map[
      ContactLookup := Ref("CONTACT"),
      HoldingPhone := form.phone,
      RecurringStartDate := Str(today),
      RecurringAmount := Int(form.amount),
      PaymentMethod := Str("Autogiro"),
      CampaignLookup := campaign,
      MandateSigned := Bool(signed),
      CurrencyIsoCode := Str("SEK"),
      ProcessType := Str("WebRegular"),
      DrupalOrderId := form.orderId] + UtmFields(utm));
  }

  // ---------------------------------------------------------------------
  // The mappers.
  // ---------------------------------------------------------------------

  /** prepareOneTimeData() builds a payload, or fails on a gift whose submission has no order. */
  datatype Mapped = Mapped(payload: Payload) | NoGiftOrder

  /**
   * The campaign of a one-time Holding: the gift campaign for a gift, else
   * the donor's choice; without a choice a company's is NULL (no `??` in its
   * arm) and a private donor's ''.
   */
  function OneTimeCampaign(data: Data, env: WebEnv): (r: Value)
    ensures IsGift(data) ==> r == env.giftCampaign
    ensures !IsGift(data) && IsSet(data, "field_charity_campaign") ==> r == data["field_charity_campaign"]
    ensures !IsGift(data) && !IsSet(data, "field_charity_campaign") ==> r == (if IsCompany(data) then Null else Str(""))
  {
    if IsGift(data) then env.giftCampaign
    else if IsCompany(data) then Get(data, "field_charity_campaign")
    else Coalesce(data, "field_charity_campaign", Str(""))
  }

  /**
   * A non-gift donor who chose no campaign: the company Holding is sent a
   * NULL campaign, the private one ''.
   */
  lemma MissingCampaignDiffers(person: Data, company: Data, env: WebEnv)
    requires !IsGift(person) && !IsGift(company) && "field_charity_campaign" !in person && "field_charity_campaign" !in company
    requires Get(company, "field_customer_type_value") == Str("C") && Get(person, "field_customer_type_value") == Str("P")
    ensures OneTimeCampaign(company, env) == Null && OneTimeCampaign(person, env) == Str("")
  {
  }

  /** A company payload: its records point back only at records declared before them. */
  lemma LinkedCompany(account: CrmRecord, contact: CrmRecord, holding: CrmRecord)
    requires account.attributes.referenceId == Some("ACCOUNT") && contact.attributes.referenceId == Some("CONTACT")
    requires NoLookups(account.fields) && AffiliatedToAccount(contact.fields) && OneTimeLinks(holding.fields, true)
    ensures WellLinked([account, contact, holding])
  {
    var p := [account, contact, holding];
    RefResolves(p, 1, 0, "ACCOUNT");
    RefResolves(p, 2, 0, "ACCOUNT");
    RefResolves(p, 2, 1, "CONTACT");
    WellLinkedFromRecords(p);
  }

  /**
   * A one-time Holding: it points at the CONTACT (and at the ACCOUNT for a
   * company) and carries the payment, gift fields and UTM codes it is given.
   */
  predicate OneTimeHolding(h: CrmRecord, form: WebForm, paymentMethod: string, today: string, utm: UtmCodes,
                           campaign: Value, summary: Value, company: bool) {
    && h.attributes == Attributes(Holding, None, None, None)
    && h.fields.Keys == OneTimeHoldingKeys(company)
    && OneTimeLinks(h.fields, company)
    && OneTimeDonor(h.fields, form)
    && GiftFields(h.fields, form.gift, campaign, summary)
    && OneTimePayment(h.fields, form, paymentMethod, today)
    && CarriesUtm(h.fields, utm)
  }

  /** The 'C' arm of prepareOneTimeData(): Account, affiliated Contact, Holding. */
  method CompanyPayload(form: WebForm, paymentMethod: string, today: string, utm: UtmCodes,
                        campaign: Value, summary: Value) returns (p: Payload)
    ensures |p| == 3 && WellLinked(p)
    ensures p[0].attributes == Attributes(Account, Some("ACCOUNT"), Some("true"), None)
    ensures CompanyIdentity(p[0].fields, form)
    ensures p[1].attributes == Attributes(Contact, Some("CONTACT"), Some("true"), None)
    ensures CompanyContactFields(p[1].fields, form)
    ensures OneTimeHolding(p[2], form, paymentMethod, today, utm, campaign, summary, true)
  {
    var account := CompanyAccount(form);
    var contact := CompanyContact(form);
    var holding := OneTimeHoldingRecord(form, paymentMethod, today, utm, campaign, summary, true);
    LinkedCompany(account, contact, holding);
    p := [account, contact, holding];
  }

  /** The 'P' and default arm of prepareOneTimeData(): Contact, Holding. */
  method PersonPayload(form: WebForm, paymentMethod: string, today: string, utm: UtmCodes,
                       campaign: Value, summary: Value) returns (p: Payload)
    ensures |p| == 2 && WellLinked(p)
    ensures p[0].attributes == Attributes(Contact, Some("CONTACT"), Some("true"), None)
    ensures PersonIdentity(p[0].fields, form)
    ensures OneTimeHolding(p[1], form, paymentMethod, today, utm, campaign, summary, false)
  {
    var contact := PersonContact(form);
    var holding := OneTimeHoldingRecord(form, paymentMethod, today, utm, campaign, summary, false);
    LinkedPerson(contact, holding);
    p := [contact, holding];
  }

  /** The gift summary of a one-time Holding: the order's item lines for a gift, '' otherwise. */
  function OneTimeSummary(s: Submission, data: Data, store: EntityStore): (r: Value)
    reads store
    requires IsGift(data) ==> store.OrderOf(s).Some?
    ensures r.Str?
    ensures !IsGift(data) ==> r == Str("")
    ensures IsGift(data) ==>
      var lines := store.OrderOf(s).value.itemLines;
      |r.s| == TotalLength(lines) + (if |lines| == 0 then 0 else (|lines| - 1) * |GiftSeparator|)
  {
    if IsGift(data) then
      ImplodeLength(store.OrderOf(s).value.itemLines, GiftSeparator);
      Str(Implode(store.OrderOf(s).value.itemLines, GiftSeparator))
    else Str("")
  }

  /**
   * prepareOneTimeData(): for a company ('C'), an Account declared as
   * ACCOUNT, a Contact declared as CONTACT and affiliated to it, and a
   * Holding pointing at both; for anyone else a Contact declared as CONTACT
   * and a Holding pointing at it. A gift's Holding takes the configured gift
   * campaign and the summary of the submission's order; a gift whose
   * submission has no order fails.
   */
  /**
   * The payload prepareOneTimeData() builds from the submission `s` with
   * data `data`: for a company, the Account, the affiliated Contact and the
   * Holding pointing at both; for anyone else, the Contact and the Holding
   * pointing at it; every record with exactly its fields.
   */
  predicate OneTimeDonation(p: Payload, s: Submission, data: Data, store: EntityStore, env: WebEnv)
    reads store
  {
    && (IsGift(data) ==> store.OrderOf(s).Some?)
    && var form := ReadWebForm(data);
    var paymentMethod := PaymentMethodOf(GatewayPlugin(store.gateways, data));
    var utm := OrderUtm(UtmOrder(store.orders, data));
    var campaign := OneTimeCampaign(data, env);
    var summary := OneTimeSummary(s, data, store);
    && WellLinked(p)
    && (IsCompany(data) ==>
          && |p| == 3
          && p[0].attributes == Attributes(Account, Some("ACCOUNT"), Some("true"), None)
          && CompanyIdentity(p[0].fields, form)
          && p[1].attributes == Attributes(Contact, Some("CONTACT"), Some("true"), None)
          && CompanyContactFields(p[1].fields, form)
          && OneTimeHolding(p[2], form, paymentMethod, env.today, utm, campaign, summary, true))
    && (!IsCompany(data) ==>
          && |p| == 2
          && p[0].attributes == Attributes(Contact, Some("CONTACT"), Some("true"), None)
          && PersonIdentity(p[0].fields, form)
          && OneTimeHolding(p[1], form, paymentMethod, env.today, utm, campaign, summary, false))
  }

  method PrepareOneTimeData(s: Submission, data: Data, store: EntityStore, env: WebEnv) returns (m: Mapped)
    ensures m.NoGiftOrder? <==> IsGift(data) && store.OrderOf(s).None?
    ensures m.Mapped? ==> OneTimeDonation(m.payload, s, data, store, env)
  {
    var form := ReadWebForm(data);
    var utm := GetUtm(UtmOrder(store.orders, data));
    var summary := Str("");
    if form.gift {
      var order := store.OrderOf(s);
      if order.None? {
        return NoGiftOrder;
      }
      var text := GetGiftshopSummary(order.value.itemLines);
      summary := Str(text);
    }
    var campaign := OneTimeCampaign(data, env);
    var paymentMethod := PaymentMethodOf(GatewayPlugin(store.gateways, data));
    var payload: Payload;
    if IsCompany(data) {
      payload := CompanyPayload(form, paymentMethod, env.today, utm, campaign, summary);
    } else {
      payload := PersonPayload(form, paymentMethod, env.today, utm, campaign, summary);
    }
    m := Mapped(payload);
  }

  /**
   * prepareAutoGiroData(): a Contact declared as CONTACT and an autogiro
   * Holding pointing at it, whose mandate is signed for `signed` and
   * `missing_bank_signed`.
   */
  /**
   * The payload prepareAutoGiroData() builds from the submission `s` with
   * data `data`: the Contact and the autogiro Holding pointing at it, each
   * with exactly its fields.
   */
  predicate AutoGiroDonation(p: Payload, s: Submission, data: Data, store: EntityStore, env: WebEnv)
    reads store
  {
    && |p| == 2 && WellLinked(p)
    && p[0].attributes == Attributes(Contact, Some("CONTACT"), Some("true"), None)
    && PersonIdentity(p[0].fields, ReadWebForm(data))
    && p[1].attributes == Attributes(Holding, None, None, None)
    && AutoGiroDonor(p[1].fields, ReadWebForm(data))
    && AutoGiroLinks(p[1].fields, MandateIsSigned(s.state))
    && AutoGiroPayment(p[1].fields, ReadWebForm(data), Coalesce(data, "field_charity_campaign", Str("")), env.today)
    && CarriesUtm(p[1].fields, OrderUtm(UtmOrder(store.orders, data)))
  }

  method PrepareAutoGiroData(s: Submission, data: Data, store: EntityStore, env: WebEnv) returns (p: Payload)
    ensures AutoGiroDonation(p, s, data, store, env)
  {
    var form := ReadWebForm(data);
    var signed := MandateIsSigned(s.state);
    var utm := GetUtm(UtmOrder(store.orders, data));
    var contact := PersonContact(form);
    var holding := AutoGiroHoldingRecord(form, signed, Coalesce(data, "field_charity_campaign", Str("")), env.today, utm);
    LinkedPerson(contact, holding);
    p := [contact, holding];
  }

  // ---------------------------------------------------------------------
  // processItem().
  // ---------------------------------------------------------------------

  /**
   * The `switch` on the order type in processItem(): the monthly order type
   * goes to prepareAutoGiroData(), the four one-time order types to
   * prepareOneTimeData(), and any other order type to neither (None).
   */
  method MapDonation(s: Submission, store: EntityStore, env: WebEnv) returns (d: Option<Mapped>)
    ensures d.None? <==> OrderTypeBranch(Get(s.data, "order_type")) == NoBranch
    ensures d == Some(NoGiftOrder) <==> IsGift(s.data) && store.OrderOf(s).None?
    ensures d.Some? && d.value.Mapped? ==> WellLinked(d.value.payload)
    ensures OrderTypeBranch(Get(s.data, "order_type")) == AutoGiro ==>
      && d.Some? && d.value.Mapped?
      && Kinds(d.value.payload) == [Contact, Holding]
      && AutoGiroDonation(d.value.payload, s, s.data, store, env)
    ensures OrderTypeBranch(Get(s.data, "order_type")) == OneTime && d.Some? && d.value.Mapped? ==>
      && Kinds(d.value.payload) == (if IsCompany(s.data) then [Account, Contact, Holding] else [Contact, Holding])
      && OneTimeDonation(d.value.payload, s, s.data, store, env)
  {
    var data := s.data;
    var branch := OrderTypeBranch(Get(data, "order_type"));
    if branch == AutoGiro {
      var p := PrepareAutoGiroData(s, data, store, env);
      KindsOfPair(p);
      d := Some(Mapped(p));
    } else if branch == OneTime {
      var m := PrepareOneTimeData(s, data, store, env);
      if m.Mapped? {
        if IsCompany(data) {
          KindsOfTriple(m.payload);
        } else {
          KindsOfPair(m.payload);
        }
      }
      d := Some(m);
    } else {
      d := None;
    }
  }

  /** The item names a submission that passes the gate and whose order type has a mapper. */
  predicate Exports(store: EntityStore, item: string)
    reads store
  {
    && item in store.submissions
    && var s := store.submissions[item];
    && ValidateSubmissionState(s.state, s.errorType).valid
    && OrderTypeBranch(Get(s.data, "order_type")) != NoBranch
  }

  /** The item names a gift submission without an order: the summary is asked of a NULL order. */
  predicate GiftWithoutOrder(store: EntityStore, item: string)
    reads store
  {
    item in store.submissions && IsGift(store.submissions[item].data) && store.OrderOf(store.submissions[item]).None?
  }

  /** The payload a worker run sent: the last request. */
  function LastRequest(api: SalesforceClient): Payload
    reads api
    requires api.requests != []
  {
    api.requests[|api.requests| - 1]
  }

  /**
   * processItem(): drop an item whose submission is missing, fails the gate
   * or has no mapper for its order type, without calling the CRM; otherwise
   * send the mapped payload once, with no metadata, and turn a thrown
   * createDonation() into the retry exception. A returned `[]` has no errors
   * and so counts as sent.
   */
  method ProcessItem(item: string, store: EntityStore, env: WebEnv, api: SalesforceClient, transport: TransportResult)
    returns (outcome: WorkerOutcome)
    modifies api
    ensures !Exports(store, item) ==> outcome == Dropped && unchanged(api)
    ensures Exports(store, item) && GiftWithoutOrder(store, item) ==> outcome == Crashed && unchanged(api)
    ensures Exports(store, item) && !GiftWithoutOrder(store, item) ==>
      && outcome == (if DonationOutcome(transport).Threw? then Retry else Sent)
      && |api.requests| == |old(api.requests)| + 1
      && api.requests[..|old(api.requests)|] == old(api.requests)
      && WellLinked(LastRequest(api))
      && api.log == old(api.log) + (if transport.Responded? && transport.response.errors.Some?
                                    then ErrorLines(transport.response.errors.value) else [])
      && api.dispatched == old(api.dispatched) + (if DonationOutcome(transport).Returned?
                                                  then [SubmissionEvent(transport.response, NoMetadata)] else [])
      && api.queries == old(api.queries)
    ensures Exports(store, item) && OrderTypeBranch(Get(store.submissions[item].data, "order_type")) == AutoGiro ==>
      && Kinds(LastRequest(api)) == [Contact, Holding]
      && AutoGiroDonation(LastRequest(api), store.submissions[item], store.submissions[item].data, store, env)
      && AutoGiroLinks(LastRequest(api)[1].fields, store.submissions[item].state == Some(Signed))
    ensures Exports(store, item) && !GiftWithoutOrder(store, item)
            && OrderTypeBranch(Get(store.submissions[item].data, "order_type")) == OneTime ==>
      && Kinds(LastRequest(api)) == (if IsCompany(store.submissions[item].data) then [Account, Contact, Holding]
                                     else [Contact, Holding])
      && OneTimeDonation(LastRequest(api), store.submissions[item], store.submissions[item].data, store, env)
  {
    if item !in store.submissions {
      return Dropped;
    }
    var s := store.submissions[item];
    var gate := ValidateSubmissionState(s.state, s.errorType);
    if !gate.valid {
      return Dropped;
    }
    var mapped := MapDonation(s, store, env);
    if mapped.None? {
      return Dropped;
    }
    if mapped.value.NoGiftOrder? {
      return Crashed;
    }
    if OrderTypeBranch(Get(s.data, "order_type")) == AutoGiro {
      MandateBehindGate(s.state, s.errorType);
    }
    var donation := mapped.value.payload;
    var donorInfo := api.CreateDonation(donation, NoMetadata, transport);
    // createDonation() only returns a response without errors, so the worker's
    // own check of the errors list never fires.
    assert !(donorInfo.Returned? && donorInfo.response.errors.Some?);
    if donorInfo.Threw? {
      return Retry;
    }
    return Sent;
  }

  /**
   * Behind the web gate the autogiro mandate is signed exactly for `signed`:
   * the `missing_bank_signed` arm of the mandate rule is never reached.
   */
  lemma MandateBehindGate(state: Option<string>, errorType: Option<string>)
    requires ValidateSubmissionState(state, errorType).valid
    ensures MandateIsSigned(state) <==> state == Some(Signed)
  {
  }
}
