/**
 * The F2F (face-to-face recruitment) variant of the `salesforce_queue`
 * worker: it loads the submission named by the queue item, gates it on its
 * state, and sends either a continuation Holding that only adds the bank
 * details (`missing_bank_signed`) or a Contact and an autogiro Holding with
 * the recruiter and campaign of the sign-up. Every failure becomes the
 * worker's retry exception.
 */
module F2fQueue {
  import opened PhpValues
  import opened CrmPayload
  import opened Entities
  import opened SalesforceApi

  // ---------------------------------------------------------------------
  // The state gate: the `switch` at the top of processItem().
  // ---------------------------------------------------------------------

  /**
   * Send `signed`, `missing_bank_interest_queued` and `missing_bank_signed`
   * submissions; skip the already-sent states with a warning and every other
   * state, the empty one included, with an error.
   */
  function F2fGate(state: Option<string>): (r: GateResult)
    ensures r.valid <==> state == Some(Signed) || state == Some(MissingBankInterestQueued)
                         || state == Some(MissingBankSigned)
    ensures r.valid ==> r.level == Info
    ensures !r.valid ==> r.level != Info
    ensures !r.valid ==> (r.level == Warning <==> state == Some(CreatedBisnode) || state == Some(MissingBankInterestCreated))
  {
    var v := StateValue(state);
    LooseEqualsOnState(state, Signed);
    LooseEqualsOnState(state, MissingBankInterestQueued);
    LooseEqualsOnState(state, MissingBankSigned);
    LooseEqualsOnState(state, CreatedBisnode);
    LooseEqualsOnState(state, MissingBankInterestCreated);
    if LooseEquals(v, Signed) then GateResult(true, Info)
    else if LooseEquals(v, MissingBankInterestQueued) || LooseEquals(v, MissingBankSigned) then GateResult(true, Info)
    else if LooseEquals(v, CreatedBisnode) || LooseEquals(v, MissingBankInterestCreated) then GateResult(false, Warning)
    else GateResult(false, Error)
  }

  // ---------------------------------------------------------------------
  // Field rules.
  // ---------------------------------------------------------------------

  /**
   * The MobilePhone of the Contact: '46' in place of the first character of
   * a non-empty number, NULL for an empty one (PHP's empty() also holds of
   * "0").
   */
  function InternationalMobile(mobile: Value): (r: Value)
    ensures r == Null <==> Empty(mobile)
  {
    if !Empty(mobile) then Str("46" + Substr(StrOf(mobile), 1)) else Null
  }

  /**
   * Every non-empty number loses its first character, whatever it is, and
   * gains '46': a Swedish number with its trunk prefix 0 gets the country
   * code in place of the 0.
   */
  lemma MobileCountryCode(local: string)
    requires local != "" && local != "0"
    ensures InternationalMobile(Str(local)) == Str("46" + local[1..])
    ensures |InternationalMobile(Str(local)).s| == |local| + 1
  {
  }

  /** A number already written with '+46' gets the country code twice. */
  lemma PlusPrefixedMobile()
    ensures InternationalMobile(Str("+46701234567")) == Str("4646701234567")
  {
    MobileCountryCode("+46701234567");
    assert "+46701234567"[1..] == "46701234567";
  }

  /** A number written without the trunk prefix loses its first digit. */
  lemma UnprefixedMobile()
    ensures InternationalMobile(Str("701234567")) == Str("4601234567")
  {
    MobileCountryCode("701234567");
    assert "701234567"[1..] == "01234567";
  }

  /** The postal code as the Contact carries it: the (int) cast of the code without its spaces. */
  function PostalNumber(postalCode: Value): (r: int)
    ensures MinInt64 <= r <= MaxInt64
    ensures Empty(postalCode) ==> r == 0
  {
    IntCast(Str(RemoveChar(StrOf(postalCode), ' ')))
  }

  /** A postal code written as a plain number is sent as that number. */
  lemma PostalNumberOfDigits(n: nat)
    requires n <= MaxInt64
    ensures PostalNumber(Str(Decimal(n))) == n
  {
    RemoveCharAbsent(Decimal(n), ' ');
    IntCastOfDecimalString(n);
  }

  /** The spaces in a postal code do not change the number it is sent as. */
  lemma PostalNumberIgnoresSpace(a: string, b: string)
    ensures PostalNumber(Str(a + " " + b)) == PostalNumber(Str(a + b))
  {
    RemoveCharAppend(a + " ", b, ' ');
    RemoveCharAppend(a, " ", ' ');
    RemoveCharAppend(a, b, ' ');
    RemoveCharSingle(' ', ' ');
    assert RemoveChar(a, ' ') + [] == RemoveChar(a, ' ');
  }

  /** The submission data the F2F mapping reads, as it reads it. */
  datatype F2fForm = F2fForm(
    pnum: Value,
    firstName: Value,
    lastName: Value,
    email: Value,
    city: Value,
    street: Value,
    postalCode: int,
    mobile: Value,
    amount: int,
    bank: Value)

  function ReadF2fForm(data: Data): F2fForm {
    F2fForm(
      Get(data, "pnum"), Get(data, "first_name"), Get(data, "last_name"), Get(data, "email"),
      Get(data, "city"), Get(data, "street_address"), PostalNumber(Get(data, "postal_code")),
      Get(data, "mobile_phone"), IntCast(Get(data, "amount")), Get(data, "bank_number"))
  }

  /** The run's date and the continuation URL of the submission (route `unhcr_form.assently.create_secondary`). */
  datatype F2fEnv = F2fEnv(today: string, continuationUrl: string)

  // ---------------------------------------------------------------------
  // The records.
  // ---------------------------------------------------------------------

  /** The Contact fields the CRM keeps when it matches an existing contact. */
  const DoNotOverrideSource := "unig__Source_Type__c,unig__Source_Campaign__c"

  /**
   * A continuation Holding adds the bank number to the sign-up with the
   * given id and nothing else: four fields, no lookup.
   */
  predicate ContinuesSignUp(f: Fields, bank: Value, id: string, url: string) {
    && f.Keys == {BankAccountNumber, ProcessType, ContinuationId, ContinuationUrl}
    && f[BankAccountNumber] == bank
    && f[ProcessType] == Str("WebF2FContinuation")
    && f[ContinuationId] == Str(id)
    && f[ContinuationUrl] == Str(url)
  }

  /** The Holding of a `missing_bank_signed` submission. */
  method ContinuationHolding(bank: Value, id: string, url: string) returns (r: CrmRecord)
    ensures r.attributes == Attributes(Holding, None, None, None)
    ensures NoLookups(r.fields) && ContinuesSignUp(r.fields, bank, id, url)
  {
    r := CrmRecord(Attributes(Holding, None, None, None), map[
      BankAccountNumber := bank,
      ProcessType := Str("WebF2FContinuation"),
      ContinuationId := Str(id),
      ContinuationUrl := Str(url)]);
  }

  /**
   * The donor as the F2F Contact carries it: the identity number as
   * entered, the street as entered, the postal code as a number, the mobile
   * number with the country code, and the sign-up's campaign as source.
   */
  predicate F2fIdentity(f: Fields, form: F2fForm, campaign: Value) {
    && f.Keys == F2fContactKeys
    && NoLookups(f)
    && f[PersonalId] == form.pnum
    && f[FirstName] == form.firstName
    && f[LastName] == form.lastName
    && f[Email] == form.email
    && f[MailingCity] == form.city
    && f[MailingStreet] == form.street
    && f[MailingPostalCode] == Int(form.postalCode)
    && f[SourceType] == Str("Donation")
    && f[SourceCampaign] == campaign
    && f[MobilePhone] == InternationalMobile(form.mobile)
  }

  const F2fContactKeys: set<FieldName> :=
    {PersonalId, FirstName, LastName, Email, MailingCity, MailingStreet, MailingPostalCode,
     SourceType, SourceCampaign, MobilePhone}

  /** The Contact of an F2F sign-up, declared as CONTACT and keeping its source fields on a match. */
  method F2fContact(form: F2fForm, campaign: Value) returns (r: CrmRecord)
    ensures r.attributes == Attributes(Contact, Some("CONTACT"), Some("true"), Some(DoNotOverrideSource))
    ensures F2fIdentity(r.fields, form, campaign)
  {
    r := CrmRecord(Attributes(Contact, Some("CONTACT"), Some("true"), Some(DoNotOverrideSource)), map[
      PersonalId := form.pnum,
      FirstName := form.firstName,
      LastName := form.lastName,
      Email := form.email,
      MailingCity := form.city,
      MailingStreet := form.street,
      MailingPostalCode := Int(form.postalCode),
      SourceType := Str("Donation"),
      SourceCampaign := campaign,
      MobilePhone := InternationalMobile(form.mobile)]);
  }

  /** An F2F Holding points at the CONTACT only and carries the mandate flag it is given. */
  predicate F2fLinks(f: Fields, signed: bool) {
    && ContactLookup in f && f[ContactLookup] == Ref("CONTACT")
    && AccountLookup !in f && PrimaryAffiliation !in f
    && MandateSigned in f && f[MandateSigned] == Bool(signed)
  }

  /** A recurring (int) amount from today by Autogiro in SEK, for the sign-up's campaign and recruiter. */
  predicate F2fRecurring(f: Fields, form: F2fForm, campaign: Value, recruiter: Value, today: string) {
    && RecurringAmount in f && f[RecurringAmount] == Int(form.amount)
    && RecurringStartDate in f && f[RecurringStartDate] == Str(today)
    && PaymentMethod in f && f[PaymentMethod] == Str("Autogiro")
    && ProcessType in f && f[ProcessType] == Str("WebRegular")
    && CurrencyIsoCode in f && f[CurrencyIsoCode] == Str("SEK")
    && CampaignLookup in f && f[CampaignLookup] == campaign
    && RecruiterLookup in f && f[RecruiterLookup] == recruiter
  }

  /**
   * The bank number ('' when missing), and the continuation URL exactly when
   * the bank number is empty, so the donor can add it later.
   */
  predicate F2fContinuation(f: Fields, bank: Value, id: string, url: string) {
    && BankAccountNumber in f && f[BankAccountNumber] == (if bank == Null then Str("") else bank)
    && ContinuationUrl in f && f[ContinuationUrl] == (if Empty(bank) then Str(url) else Str(""))
    && ContinuationId in f && f[ContinuationId] == Str(id)
  }

  const F2fHoldingKeys: set<FieldName> :=
    {ContactLookup, RecurringStartDate, RecurringAmount, PaymentMethod, CampaignLookup, RecruiterLookup,
     MandateSigned, BankAccountNumber, CurrencyIsoCode, ProcessType, ContinuationUrl, ContinuationId}

  /** The autogiro Holding of an F2F sign-up. */
  method F2fHolding(form: F2fForm, id: string, campaign: Value, recruiter: Value, signed: bool, env: F2fEnv)
    returns (r: CrmRecord)
    ensures r.attributes == Attributes(Holding, None, None, None)
    ensures r.fields.Keys == F2fHoldingKeys
    ensures F2fLinks(r.fields, signed)
    ensures F2fRecurring(r.fields, form, campaign, recruiter, env.today)
    ensures F2fContinuation(r.fields, form.bank, id, env.continuationUrl)
  {
    r := CrmRecord(Attributes(Holding, None, None, None), map[
      ContactLookup := Ref("CONTACT"),
      RecurringStartDate := Str(env.today),
      RecurringAmount := Int(form.amount),
      PaymentMethod := Str("Autogiro"),
      CampaignLookup := campaign,
      RecruiterLookup := recruiter,
      MandateSigned := Bool(signed),
      BankAccountNumber := if form.bank == Null then Str("") else form.bank,
      CurrencyIsoCode := Str("SEK"),
      ProcessType := Str("WebRegular"),
      ContinuationUrl := if Empty(form.bank) then Str(env.continuationUrl) else Str(""),
      ContinuationId := Str(id)]);
  }

  // ---------------------------------------------------------------------
  // The not-nullable filter.
  // ---------------------------------------------------------------------

  /** The Contact fields that should never reach the CRM empty, in the order the loop visits them. */
  const NotNullable: seq<FieldName> :=
    [PersonalId, FirstName, LastName, Email, Phone, MobilePhone, MailingCity, MailingStreet, MailingPostalCode]

  /** isset($v) && empty($v): a value that is there but empty. */
  predicate SetButEmpty(v: Value) {
    v != Null && Empty(v)
  }

  /** A record without the not-nullable fields that are set but empty. */
  function Filtered(record: Fields): (r: Fields)
    ensures r.Keys <= record.Keys
  {
    map k | k in record && !(k in NotNullable && SetButEmpty(record[k])) :: record[k]
  }

  /** What the filter keeps it keeps unchanged, and no not-nullable field it keeps is empty. */
  lemma FilteredClean(record: Fields)
    ensures forall k :: k in record ==> (k in Filtered(record) <==> !(k in NotNullable && SetButEmpty(record[k])))
    ensures forall k :: k in Filtered(record) ==> Filtered(record)[k] == record[k]
    ensures forall k :: k in Filtered(record) && k in NotNullable ==> !SetButEmpty(Filtered(record)[k])
    ensures forall k :: k in record && k !in NotNullable ==> k in Filtered(record)
  {
  }

  /** Filtering twice filters nothing more. */
  lemma FilteredIdempotent(record: Fields)
    ensures Filtered(Filtered(record)) == Filtered(record)
  {
  }

  /** The `foreach` over the not-nullable fields: unset each one that is set but empty. */
  method FilterNotNullable(record: Fields) returns (kept: Fields)
    ensures kept == Filtered(record)
  {
    kept := record;
    var i := 0;
    while i < |NotNullable|
      invariant 0 <= i <= |NotNullable|
      invariant forall k :: k in kept <==> k in record && !(k in NotNullable[..i] && SetButEmpty(record[k]))
      invariant forall k :: k in kept ==> kept[k] == record[k]
    {
      var field := NotNullable[i];
      if field in kept && SetButEmpty(kept[field]) {
        kept := kept - {field};
      }
      i := i + 1;
    }
    assert NotNullable[..i] == NotNullable;
  }

  /**
   * The record fields the loop finds under `$data['data'][0]['record']`.
   * The loop reads `$data`, the queue item, which is a submission id: a
   * string has no 'data' offset, so isset() finds nothing under it.
   */
  function ItemRecord(item: string): (r: Fields)
    ensures Filtered(r) == r
  {
    map[]
  }

  // ---------------------------------------------------------------------
  // processItem().
  // ---------------------------------------------------------------------

  /**
   * The payload of a sign-up that passed the gate: the continuation Holding
   * for `missing_bank_signed`, else the Contact and the autogiro Holding.
   * The not-nullable filter runs between the two records, on the queue item.
   */
  method BuildDonation(item: string, s: Submission, signed: bool, env: F2fEnv) returns (p: Payload)
    ensures WellLinked(p)
    ensures s.state == Some(MissingBankSigned) ==>
      && |p| == 1
      && p[0].attributes == Attributes(Holding, None, None, None)
      && ContinuesSignUp(p[0].fields, Get(s.data, "bank_number"), s.id, env.continuationUrl)
    ensures s.state != Some(MissingBankSigned) ==>
      var form := ReadF2fForm(s.data);
      && |p| == 2
      && p[0].attributes == Attributes(Contact, Some("CONTACT"), Some("true"), Some(DoNotOverrideSource))
      && F2fIdentity(p[0].fields, form, s.campaign)
      && p[1].attributes == Attributes(Holding, None, None, None)
      && F2fLinks(p[1].fields, signed)
      && F2fRecurring(p[1].fields, form, s.campaign, s.recruiter, env.today)
      && F2fContinuation(p[1].fields, form.bank, s.id, env.continuationUrl)
  {
    var form := ReadF2fForm(s.data);
    if s.state == Some(MissingBankSigned) {
      var holding := ContinuationHolding(Get(s.data, "bank_number"), s.id, env.continuationUrl);
      LinkedAlone(holding);
      p := [holding];
    } else {
      var contact := F2fContact(form, s.campaign);
      var itemRecord := FilterNotNullable(ItemRecord(item));
      var holding := F2fHolding(form, s.id, s.campaign, s.recruiter, signed, env);
      LinkedPerson(contact, holding);
      p := [contact, holding];
    }
  }

  /**
   * The not-nullable filter never reaches the Contact that is sent: a sign-up
   * with an empty e-mail sends it as it is, though the filter would drop it.
   */
  lemma EmptyEmailIsSent(item: string, s: Submission, signed: bool, env: F2fEnv, p: Payload)
    requires s.state != Some(MissingBankSigned) && Get(s.data, "email") == Str("")
    requires |p| == 2 && F2fIdentity(p[0].fields, ReadF2fForm(s.data), s.campaign)
    ensures Email in p[0].fields && p[0].fields[Email] == Str("")
    ensures Email !in Filtered(p[0].fields)
  {
  }

  /** The metadata the worker passes: a recurring donation, with the submission data and id. */
  function RecurringMetadata(s: Submission): (r: Metadata)
    ensures r != NoMetadata
    ensures r.kind == Some("recurring") && r.submission == Some(s.id)
  {
    Metadata(Some("recurring"), Some(s.data), Some(s.id))
  }

  /** The item names a submission that passes the F2F gate. */
  predicate Exports(store: EntityStore, item: string)
    reads store
  {
    item in store.submissions && F2fGate(store.submissions[item].state).valid
  }

  /** The payload a worker run sent: the last request. */
  function LastRequest(api: SalesforceClient): Payload
    reads api
    requires api.requests != []
  {
    api.requests[|api.requests| - 1]
  }

  /**
   * processItem(): drop an item whose submission is missing or fails the
   * gate, without calling the CRM; otherwise send its payload once with the
   * recurring metadata, the mandate always marked signed, and turn a thrown
   * createDonation() into the retry exception.
   */
  method ProcessItem(item: string, store: EntityStore, env: F2fEnv, api: SalesforceClient, transport: TransportResult)
    returns (outcome: WorkerOutcome)
    modifies api
    ensures !Exports(store, item) ==> outcome == Dropped && unchanged(api)
    ensures Exports(store, item) ==>
      var s := store.submissions[item];
      && outcome == (if DonationOutcome(transport).Threw? then Retry else Sent)
      && |api.requests| == |old(api.requests)| + 1
      && api.requests[..|old(api.requests)|] == old(api.requests)
      && WellLinked(LastRequest(api))
      && api.log == old(api.log) + (if transport.Responded? && transport.response.errors.Some?
                                    then ErrorLines(transport.response.errors.value) else [])
      && api.dispatched == old(api.dispatched) + (if DonationOutcome(transport).Returned?
                                                  then [SubmissionEvent(transport.response, RecurringMetadata(s))] else [])
      && api.queries == old(api.queries)
    ensures Exports(store, item) && store.submissions[item].state == Some(MissingBankSigned) ==>
      && Kinds(LastRequest(api)) == [Holding]
      && ContinuesSignUp(LastRequest(api)[0].fields, Get(store.submissions[item].data, "bank_number"),
                         store.submissions[item].id, env.continuationUrl)
    ensures Exports(store, item) && store.submissions[item].state != Some(MissingBankSigned) ==>
      && Kinds(LastRequest(api)) == [Contact, Holding]
      && F2fIdentity(LastRequest(api)[0].fields, ReadF2fForm(store.submissions[item].data), store.submissions[item].campaign)
      && F2fLinks(LastRequest(api)[1].fields, true)
      && F2fRecurring(LastRequest(api)[1].fields, ReadF2fForm(store.submissions[item].data),
                      store.submissions[item].campaign, store.submissions[item].recruiter, env.today)
      && F2fContinuation(LastRequest(api)[1].fields, ReadF2fForm(store.submissions[item].data).bank,
                         store.submissions[item].id, env.continuationUrl)
  {
    if item !in store.submissions {
      return Dropped;
    }
    var s := store.submissions[item];
    var signed := false;
    var gate := F2fGate(s.state);
    if !gate.valid {
      return Dropped;
    }
    signed := true;
    var donation := BuildDonation(item, s, signed, env);
    if s.state == Some(MissingBankSigned) {
      KindsOfSingle(donation);
    } else {
      KindsOfPair(donation);
    }
    var donorInfo := api.CreateDonation(donation, RecurringMetadata(s), transport);
    // createDonation() only returns a response without errors, so the
    // worker's own check of the errors list never fires.
    assert !(donorInfo.Returned? && donorInfo.response.errors.Some?);
    if donorInfo.Threw? {
      return Retry;
    }
    return Sent;
  }
}
