# UNHCR Salesforce submission export, modelled in Dafny

This project models the submission export pipeline of the `unhcr_salesforce`
Drupal modules. Donation form submissions go through that pipeline to the
Salesforce CRM. The pipeline has four parts:

- **The post-save subscribers.** The web and the face-to-face (F2F) variant each decide whether a saved
  submission goes on the `salesforce_queue`.
- **The two queue workers.** Each worker:
  - checks the submission's `submission_state` against a gate;
  - picks a mapping from the order type (web) or from the state (F2F);
  - builds an ordered payload of CRM records (Account, Contact and `gcdt__Holding__c`). Later records refer
    back to earlier ones with `@CONTACT` / `@ACCOUNT`;
  - sends the payload with `createDonation()`. Every failure becomes the worker's retry exception.
- **The Salesforce service.** `createDonation()` classifies the response as an error list, success or a
  Salesforce exception. It dispatches the `create_donation` event only on success. The service also
  builds the campaign and recruiter queries and their Id → Name option maps.
- **The create-donation handlers.** They merge the CRM-side data into the submission's data, set the
  state to `crm_success`, and in the web variant flag the order as sent.

Modules:

- `PhpValues` (php_values.dfy): the PHP values the code handles (`Value`, submission data as
  `map<string, Value>`). It also holds the PHP operations the code relies on: `empty()`, `isset()`, `??`,
  string conversion, `(int)` casts with 64-bit saturation, `str_replace()` of one character, `substr()`,
  and the loose `==` of `switch`.
- `CrmPayload` (crm_payload.dfy): the CRM record format (`attributes` and `record` field map) and the
  payload. `WellLinked` says that every `@X` lookup names a `referenceId` declared in an earlier record.
- `Entities` (entities.dfy): submissions, orders, the entity storage and the queue, as classes where the
  code changes them in place. It also holds the array_merge() of submission data and the success
  recording shared by both handlers.
- `SalesforceApi` (salesforce_api.dfy): the Salesforce service as a class. It records the requests sent,
  the queries issued, the error lines logged and the events dispatched.
- `WebQueue` and `F2fQueue` (web_queue.dfy, f2f_queue.dfy): the two queue workers.
- `WebSubscribers` and `F2fSubscribers` (web_subscribers.dfy, f2f_subscribers.dfy): the post-save
  subscribers and the create-donation handlers.

External reads are parameters. These are the current date, the configured gift campaign and campaign
field, the continuation URL, the order, gateway and storage contents, and the transport's response.

The model follows the code where the code and the written design differ:

- The web autogiro mandate flag is true for `signed` and `missing_bank_signed`. The web gate never lets
  `missing_bank_signed` through, so among exported submissions the flag is true only for `signed`
  (`WebQueue.MandateBehindGate`).
- The F2F "not nullable" filter runs on the queue item and never on the payload that is sent, so an empty
  field reaches the CRM (`F2fQueue.EmptyEmailIsSent`).
- The F2F mobile rewrite drops the first character of any non-empty number, not only a leading 0
  (`F2fQueue.PlusPrefixedMobile`, `F2fQueue.UnprefixedMobile`).
- A web company donor without a chosen campaign is sent a NULL campaign, a private donor ''
  (`WebQueue.MissingCampaignDiffers`).
- The street separator is the four characters `\r\n` of a single-quoted PHP literal.
- The web worker passes no metadata to `createDonation()`. So the web create-donation handler loads no
  submission for the events the web worker causes (`WebSubscribers.WorkerEventsRecordNothing`).
- Both create-donation handlers receive every event. The web handler loads from the storage the F2F
  worker exports from, so it records the F2F worker's successes and flags their orders
  (`WebSubscribers.F2fEventsRecordedHere`).

## Model

| member | source | states |
|---|---|---|
| PhpValues.RemoveChar | modules/unhcr_salesforce_web/src/Plugin/QueueWorker/SalesforceQueue.php:195 | str_replace() of one character: the result never contains it, and holds every other character of the input exactly as often as the input does |
| PhpValues.RemoveCharAbsent | modules/unhcr_salesforce_web/src/Plugin/QueueWorker/SalesforceQueue.php:217 | removing a character that does not occur leaves the string unchanged |
| PhpValues.RemoveCharIdempotent | modules/unhcr_salesforce_web/src/Plugin/QueueWorker/SalesforceQueue.php:195 | stripping the character a second time changes nothing |
| PhpValues.RemoveCharAppend | modules/unhcr_salesforce_web/src/Plugin/QueueWorker/SalesforceQueue.php:217 | removing a character from a concatenation is removing it from each part, so the kept characters stay in order |
| PhpValues.RemoveCharSingle | modules/unhcr_salesforce_web/src/Plugin/QueueWorker/SalesforceQueue.php:217 | a single character is dropped exactly when it is the removed one |
| PhpValues.Substr | modules/unhcr_salesforce_f2f/src/Plugin/QueueWorker/SalesforceQueue.php:191 | substr($s, n) is what follows the first n characters, and '' once n is at or past the end |
| PhpValues.Clamp64 | modules/unhcr_salesforce_web/src/Plugin/QueueWorker/SalesforceQueue.php:249 | an (int) result always lies in the 64-bit range and is the number itself when that is in range |
| PhpValues.LeadingDigits | modules/unhcr_salesforce_f2f/src/Plugin/QueueWorker/SalesforceQueue.php:188 | the digits an (int) cast reads form the longest all-digit prefix of the string |
| PhpValues.DecimalValue | modules/unhcr_salesforce_f2f/src/Plugin/QueueWorker/SalesforceQueue.php:188 | reading back the decimal digits of n gives n |
| PhpValues.IntCastOfDecimalString | modules/unhcr_salesforce_web/src/Plugin/QueueWorker/SalesforceQueue.php:249 | (int) of an in-range integer's decimal string, and of the integer itself, is that integer |
| PhpValues.NegativeDecimalCast | modules/unhcr_salesforce_web/src/Plugin/QueueWorker/SalesforceQueue.php:296 | a minus sign followed by digits casts to the negative number |
| PhpValues.ParseIntPrefix | modules/unhcr_salesforce_web/src/Plugin/QueueWorker/SalesforceQueue.php:249 | (int) of a string lies in the 64-bit range, and is 0 when the string, after leading spaces, starts with neither a digit nor a sign |
| PhpValues.IntCast | modules/unhcr_salesforce_web/src/Plugin/QueueWorker/SalesforceQueue.php:249 | (int) keeps an integer, casts a string, boolean or NULL into the 64-bit range, and gives 0 for every empty value |
| PhpValues.ZeroStringsCast | modules/unhcr_salesforce_web/src/Plugin/QueueWorker/SalesforceQueue.php:249 | (int) of '' and of "0" is 0 |
| PhpValues.EmptyByString | modules/unhcr_salesforce_web/src/Plugin/QueueWorker/SalesforceQueue.php:197 | empty() holds exactly of the values whose string form is '' or "0" |
| PhpValues.DecimalOfPositive | modules/unhcr_salesforce_web/src/Plugin/QueueWorker/SalesforceQueue.php:197 | a positive integer never prints as "0", so it is not empty |
| PhpValues.LooseEqualsOnState | modules/unhcr_salesforce_web/src/Plugin/QueueWorker/SalesforceQueue.php:403 | switch's loose comparison of a state with a non-empty label holds exactly when the state is that label |
| PhpValues.LooseEquals | modules/unhcr_salesforce_web/src/Plugin/QueueWorker/SalesforceQueue.php:204 | loose `==` against a string label: a string, an integer or NULL equals the label exactly when its string form is the label |
| PhpValues.TrueMatchesEveryLabel | modules/unhcr_salesforce_web/src/Plugin/QueueWorker/SalesforceQueue.php:204 | TRUE equals every label that is not empty, so it takes the first such case of a switch |
| CrmPayload.Kinds | modules/unhcr_salesforce_web/src/Plugin/QueueWorker/SalesforceQueue.php:206-265 | the record types of a payload, one per record and in order |
| CrmPayload.RefResolves | modules/unhcr_salesforce_web/src/Plugin/QueueWorker/SalesforceQueue.php:244-245 | `@X` resolves in every record after the one declaring referenceId X |
| CrmPayload.WellLinkedFromRecords | modules/unhcr_salesforce_web/src/Plugin/QueueWorker/SalesforceQueue.php:239-245 | a payload whose every record only refers back to earlier declarations is well linked |
| CrmPayload.LinkedPerson | modules/unhcr_salesforce_web/src/Plugin/QueueWorker/SalesforceQueue.php:270-292 | a CONTACT without lookups followed by a Holding pointing at `@CONTACT` only is well linked |
| CrmPayload.LinkedAlone | modules/unhcr_salesforce_f2f/src/Plugin/QueueWorker/SalesforceQueue.php:161-171 | a single record without lookups is well linked |
| Entities.Merge | modules/unhcr_salesforce_web/src/EventSubscriber/SalesforceCreateDonation.php:40 | array_merge() on string keys: the keys of both sides, the incoming value on a shared key, the old value elsewhere |
| Entities.MergeIdempotent | modules/unhcr_salesforce_web/src/EventSubscriber/SalesforceCreateDonation.php:40 | merging the same incoming data again changes nothing |
| Entities.MarkedSent | modules/unhcr_salesforce_web/src/EventSubscriber/SalesforceCreateDonation.php:38-44 | the submission a handler saves is in state crm_success, has the merged data, and is otherwise the one loaded |
| Entities.MarkedSentIdempotent | modules/unhcr_salesforce_web/src/EventSubscriber/SalesforceCreateDonation.php:38-44 | marking a submission sent twice with the same data is marking it once |
| Entities.RecordSuccess | modules/unhcr_salesforce_f2f/src/EventSubscriber/SalesforceCreateDonation.php:35-44 | only the submission the event names changes: crm_success and merged data when it loads, nothing at all when it does not |
| Entities.RecordSuccessIdempotent | modules/unhcr_salesforce_f2f/src/EventSubscriber/SalesforceCreateDonation.php:38-44 | a repeated delivery of the same event leaves the submissions as the first delivery did |
| Entities.Queue.CreateItem | modules/unhcr_salesforce_web/src/EventSubscriber/SalesforceSubmissionSubscriber.php:80 | the item is appended to the queue and nothing else changes |
| SalesforceApi.ErrorLines | src/Service/SalesforceApi.php:195-197 | one log line per error, in order, each the message and the detail |
| SalesforceApi.DonationOutcome | src/Service/SalesforceApi.php:190-209 | the response is returned exactly when it carries no errors, an error list throws, a Salesforce exception gives `[]`, and any other exception escapes |
| SalesforceApi.SalesforceClient.CreateDonation | src/Service/SalesforceApi.php:190-209 | sends the payload once, logs every error of an error list, dispatches one event carrying the response and the caller's metadata exactly when the response is returned, and issues no query |
| SalesforceApi.SelectQuery.AddCondition | src/Service/SalesforceApi.php:89-90 | appends one `field = value` condition and keeps the selected fields |
| SalesforceApi.SalesforceClient.Issue | src/Service/SalesforceApi.php:96-97 | records the query as issued and returns its records, or none when the query failed |
| SalesforceApi.IdNameOptions | src/Service/SalesforceApi.php:131-137 | the option keys are exactly the record Ids, each mapped to the Name of the last record with that Id |
| SalesforceApi.SalesforceClient.GetCampaign | src/Service/SalesforceApi.php:85-104 | one Campaign query, always filtered on IsActive = TRUE and the Id, plus the configured field only when that setting is non-empty; the first record, or nothing |
| SalesforceApi.SalesforceClient.GetCampaigns | src/Service/SalesforceApi.php:109-126 | one Campaign query on IsActive = TRUE, plus the configured field only when that setting is non-empty; its records, or none on a failed query |
| SalesforceApi.SalesforceClient.GetCampaignOptions | src/Service/SalesforceApi.php:129-137 | the option keys are exactly the campaign Ids, and a later duplicate Id overwrites an earlier one |
| SalesforceApi.SalesforceClient.GetRecruiters | src/Service/SalesforceApi.php:142-154 | one Recruiter__c query on Active_s4u__c = TRUE; its records, or none on a failed query |
| SalesforceApi.SalesforceClient.GetRecruiterOptions | src/Service/SalesforceApi.php:159-165 | the same Id → Name map over the recruiters |
| WebQueue.ValidateSubmissionState | modules/unhcr_salesforce_web/src/Plugin/QueueWorker/SalesforceQueue.php:402-455 | passes exactly signed, missing_bank_interest_queued, and error with a charity communication error type; logs info when passing, a warning for the already-sent states, an error otherwise (missing_bank_signed and the empty state included) |
| WebQueue.OrderTypeBranch | modules/unhcr_salesforce_web/src/Plugin/QueueWorker/SalesforceQueue.php:149-159 | the monthly order type goes to the autogiro mapper and exactly the four one-time types to the one-time mapper; by the loose comparison TRUE also goes to the autogiro mapper; any other string, FALSE, NULL (a missing type) and any integer go to none |
| WebQueue.IsGift | modules/unhcr_salesforce_web/src/Plugin/QueueWorker/SalesforceQueue.php:250-252 | the strict `=== 'unhcr_gift'` test; a gift always takes the one-time mapper |
| WebQueue.IsCompany | modules/unhcr_salesforce_web/src/Plugin/QueueWorker/SalesforceQueue.php:204-205 | case 'C' is taken exactly for the string 'C' and, by the loose comparison, for TRUE; every other customer type takes the private arm |
| WebQueue.Ssn | modules/unhcr_salesforce_web/src/Plugin/QueueWorker/SalesforceQueue.php:194-195 | field_org_number wins over pnum, which wins over ''; the result contains no '-' |
| WebQueue.StreetLine | modules/unhcr_salesforce_web/src/Plugin/QueueWorker/SalesforceQueue.php:197-201 | street_address, followed by the separator and the company name only when the company name is non-empty |
| WebQueue.StreetSeparatorIsLiteral | modules/unhcr_salesforce_web/src/Plugin/QueueWorker/SalesforceQueue.php:200 | the separator is four characters and contains neither a carriage return nor a line feed |
| WebQueue.PostalCode | modules/unhcr_salesforce_web/src/Plugin/QueueWorker/SalesforceQueue.php:217 | the postal code with every space removed and every other character kept, as often as it occurs |
| WebQueue.Amount | modules/unhcr_salesforce_web/src/Plugin/QueueWorker/SalesforceQueue.php:249 | the (int) amount: an integer as it is, an empty or missing amount 0, anything else within the 64-bit range |
| WebQueue.GatewayPlugin | modules/unhcr_salesforce_web/src/Plugin/QueueWorker/SalesforceQueue.php:511-515 | the plugin id of the gateway the id loads, and '' when the id is NULL or names no gateway |
| WebQueue.PaymentMethodOf | modules/unhcr_salesforce_web/src/Plugin/QueueWorker/SalesforceQueue.php:528-539 | card, Swish, Trustly and onsite invoice give their four names, each exactly for its plugin; every other plugin gives Other |
| WebQueue.MissingGatewayIsOther | modules/unhcr_salesforce_web/src/Plugin/QueueWorker/SalesforceQueue.php:511-515 | a gateway that does not load gives the payment method Other |
| WebQueue.GetUtm | modules/unhcr_salesforce_web/src/Plugin/QueueWorker/SalesforceQueue.php:486-499 | all five UTM codes, read from the order, and all '' without an order |
| WebQueue.ImplodeLength | modules/unhcr_salesforce_web/src/Plugin/QueueWorker/SalesforceQueue.php:474 | the joined summary is as long as its lines plus one separator between each two |
| WebQueue.GetGiftshopSummary | modules/unhcr_salesforce_web/src/Plugin/QueueWorker/SalesforceQueue.php:466-475 | the order's item lines joined with `<br />` |
| WebQueue.PersonContact | modules/unhcr_salesforce_web/src/Plugin/QueueWorker/SalesforceQueue.php:270-285 | a matched Contact declared as CONTACT with exactly the personal id, first and last name, email, city, street, space-free postal code and source type Donation |
| WebQueue.CompanyAccount | modules/unhcr_salesforce_web/src/Plugin/QueueWorker/SalesforceQueue.php:206-224 | a matched Account declared as ACCOUNT with exactly the organisation number, the company name or else the contact's full name, city, street and postal code, filed as Corporate, SME, Headquarters, PPH, sector Unknown |
| WebQueue.CompanyContact | modules/unhcr_salesforce_web/src/Plugin/QueueWorker/SalesforceQueue.php:225-238 | a matched Contact declared as CONTACT with exactly the `@ACCOUNT` affiliation, first and last name, email and source type Donation |
| WebQueue.OneTimeHoldingFields | modules/unhcr_salesforce_web/src/Plugin/QueueWorker/SalesforceQueue.php:293-310 | exactly the phone (`mobile_phone ?? ''`), the single payment (method, reference, (int) amount, today, SEK, WebSingle), the gift flag, campaign and summary, the Drupal order id, customer type Private and the five UTM codes, and no lookup |
| WebQueue.OneTimeHoldingRecord | modules/unhcr_salesforce_web/src/Plugin/QueueWorker/SalesforceQueue.php:287-312 | exactly those fields plus `@CONTACT`, and `@ACCOUNT` exactly for a company |
| WebQueue.MandateIsSigned | modules/unhcr_salesforce_web/src/Plugin/QueueWorker/SalesforceQueue.php:337-341 | the mandate is signed exactly for signed and missing_bank_signed |
| WebQueue.AutoGiroHoldingRecord | modules/unhcr_salesforce_web/src/Plugin/QueueWorker/SalesforceQueue.php:366-388 | an autogiro Holding with exactly `@CONTACT`, the phone (`mobile_phone ?? ''`), the (int) recurring amount from today, Autogiro, the campaign, the mandate flag, SEK, WebRegular, the Drupal order id and the five UTM codes |
| WebQueue.OneTimeCampaign | modules/unhcr_salesforce_web/src/Plugin/QueueWorker/SalesforceQueue.php:250 | a gift's campaign is the configured gift campaign; otherwise the chosen campaign, and without one NULL for a company (no `??` in its arm) but '' for a private donor |
| WebQueue.MissingCampaignDiffers | modules/unhcr_salesforce_web/src/Plugin/QueueWorker/SalesforceQueue.php:250 | with no campaign chosen, a company Holding is sent NULL and a private one '' |
| WebQueue.OneTimeSummary | modules/unhcr_salesforce_web/src/Plugin/QueueWorker/SalesforceQueue.php:251 | '' for a non-gift; for a gift, as long as its order's item lines plus one `<br />` between each two |
| WebQueue.LinkedCompany | modules/unhcr_salesforce_web/src/Plugin/QueueWorker/SalesforceQueue.php:206-245 | Account, affiliated Contact and a Holding pointing at both form a well-linked payload |
| WebQueue.CompanyPayload | modules/unhcr_salesforce_web/src/Plugin/QueueWorker/SalesforceQueue.php:205-266 | exactly Account (ACCOUNT, all its fields), Contact (CONTACT, affiliated, all its fields) and one-time Holding, in that order and well linked |
| WebQueue.PersonPayload | modules/unhcr_salesforce_web/src/Plugin/QueueWorker/SalesforceQueue.php:268-312 | exactly Contact (CONTACT) and one-time Holding, well linked |
| WebQueue.PrepareOneTimeData | modules/unhcr_salesforce_web/src/Plugin/QueueWorker/SalesforceQueue.php:189-316 | a gift without an order fails, and only a gift without an order fails; otherwise the payload is OneTimeDonation: customer type 'C' gives the three-record company payload and any other type the two-record one, every record with exactly its fields, always well linked, a gift with the configured gift campaign and its order's summary |
| WebQueue.PrepareAutoGiroData | modules/unhcr_salesforce_web/src/Plugin/QueueWorker/SalesforceQueue.php:329-391 | the payload is AutoGiroDonation: exactly a Contact and an autogiro Holding, each with exactly its fields, well linked, with the mandate signed for signed and missing_bank_signed and the campaign defaulting to '' |
| WebQueue.MapDonation | modules/unhcr_salesforce_web/src/Plugin/QueueWorker/SalesforceQueue.php:149-160 | no payload exactly for an order type without a mapper; the monthly type gets the full prepareAutoGiroData() payload, [Contact, Holding]; a one-time type gets the full prepareOneTimeData() payload, [Account, Contact, Holding] for a company, else [Contact, Holding]; only a gift without an order fails |
| WebQueue.ProcessItem | modules/unhcr_salesforce_web/src/Plugin/QueueWorker/SalesforceQueue.php:134-176 | an item that is missing, fails the gate or has no mapper is dropped without a CRM call; a gift without an order crashes before the call; otherwise one well-linked payload is sent without metadata, and it is the full prepareAutoGiroData() or prepareOneTimeData() payload by order type; an error list or an escaping exception means retry, and a returned response or `[]` means sent; an exported autogiro mandate is signed exactly for signed |
| WebQueue.MandateBehindGate | modules/unhcr_salesforce_web/src/Plugin/QueueWorker/SalesforceQueue.php:337-341 | among submissions the gate passes, the mandate is signed exactly for the state signed |
| F2fQueue.F2fGate | modules/unhcr_salesforce_f2f/src/Plugin/QueueWorker/SalesforceQueue.php:129-150 | passes exactly signed, missing_bank_interest_queued and missing_bank_signed; a warning exactly for the already-sent states, an error for every other state (error and the empty state included) |
| F2fQueue.InternationalMobile | modules/unhcr_salesforce_f2f/src/Plugin/QueueWorker/SalesforceQueue.php:191 | the mobile number is NULL exactly when the form's number is empty (which includes "0") |
| F2fQueue.MobileCountryCode | modules/unhcr_salesforce_f2f/src/Plugin/QueueWorker/SalesforceQueue.php:191 | every non-empty number loses its first character, whatever it is, and gains '46': one character longer |
| F2fQueue.PlusPrefixedMobile | modules/unhcr_salesforce_f2f/src/Plugin/QueueWorker/SalesforceQueue.php:191 | "+46701234567" is sent as "4646701234567" |
| F2fQueue.UnprefixedMobile | modules/unhcr_salesforce_f2f/src/Plugin/QueueWorker/SalesforceQueue.php:191 | "701234567" is sent as "4601234567" |
| F2fQueue.PostalNumber | modules/unhcr_salesforce_f2f/src/Plugin/QueueWorker/SalesforceQueue.php:188 | the postal code is sent as a 64-bit integer, 0 for an empty one |
| F2fQueue.PostalNumberOfDigits | modules/unhcr_salesforce_f2f/src/Plugin/QueueWorker/SalesforceQueue.php:188 | the postal code of a number's digits is sent as that number |
| F2fQueue.PostalNumberIgnoresSpace | modules/unhcr_salesforce_f2f/src/Plugin/QueueWorker/SalesforceQueue.php:188 | a space anywhere in the postal code does not change the number sent |
| F2fQueue.ContinuationHolding | modules/unhcr_salesforce_f2f/src/Plugin/QueueWorker/SalesforceQueue.php:160-172 | a Holding with exactly the bank number, WebF2FContinuation, the continuation id and the URL, and no lookup |
| F2fQueue.F2fContact | modules/unhcr_salesforce_f2f/src/Plugin/QueueWorker/SalesforceQueue.php:174-193 | a matched Contact declared as CONTACT that does not override the source fields, with exactly the personal id, first and last name, email, city, street, (int) postal code, source type Donation, source campaign and rewritten mobile |
| F2fQueue.F2fHolding | modules/unhcr_salesforce_f2f/src/Plugin/QueueWorker/SalesforceQueue.php:211-229 | a Holding with exactly `@CONTACT`, the mandate flag, campaign, recruiter, (int) amount from today, Autogiro, SEK, WebRegular, the bank number ('' by default), the continuation id, and the continuation URL exactly when the bank number is empty |
| F2fQueue.Filtered | modules/unhcr_salesforce_f2f/src/Plugin/QueueWorker/SalesforceQueue.php:195-210 | the filter only ever removes keys |
| F2fQueue.FilteredClean | modules/unhcr_salesforce_f2f/src/Plugin/QueueWorker/SalesforceQueue.php:206-210 | a field is kept exactly when it is not a listed field that is set but empty; kept values are unchanged |
| F2fQueue.FilteredIdempotent | modules/unhcr_salesforce_f2f/src/Plugin/QueueWorker/SalesforceQueue.php:206-210 | filtering twice is filtering once |
| F2fQueue.FilterNotNullable | modules/unhcr_salesforce_f2f/src/Plugin/QueueWorker/SalesforceQueue.php:206-210 | the loop over the nine names removes exactly what the filter removes |
| F2fQueue.ItemRecord | modules/unhcr_salesforce_f2f/src/Plugin/QueueWorker/SalesforceQueue.php:206-208 | the loop reads the queue item, a string holding no record, so it has nothing to remove |
| F2fQueue.EmptyEmailIsSent | modules/unhcr_salesforce_f2f/src/Plugin/QueueWorker/SalesforceQueue.php:182-210 | a sign-up with an empty email sends it in the Contact, though the filter would remove it |
| F2fQueue.BuildDonation | modules/unhcr_salesforce_f2f/src/Plugin/QueueWorker/SalesforceQueue.php:153-230 | missing_bank_signed gives one continuation Holding; any other passing state gives a Contact with exactly its ten fields (empty ones included) and the autogiro Holding; always well linked |
| F2fQueue.RecurringMetadata | modules/unhcr_salesforce_f2f/src/Plugin/QueueWorker/SalesforceQueue.php:232 | the worker's metadata is never empty: type recurring and the submission id |
| F2fQueue.ProcessItem | modules/unhcr_salesforce_f2f/src/Plugin/QueueWorker/SalesforceQueue.php:121-243 | an item that is missing or fails the gate is dropped without a CRM call; otherwise one well-linked payload is sent with the recurring metadata, the submission data and id; the sent Contact carries the donor's fields and the sent Holding the mandate signed, the recurring amount, campaign, recruiter, bank number and continuation URL; an error list or an escaping exception means retry |
| WebSubscribers.PaperOrder | modules/unhcr_salesforce_web/src/EventSubscriber/SalesforceSubmissionSubscriber.php:60 | an order is paper-signed exactly when it exists and its subscription_payment_type is the string 'paper'; TRUE does not count |
| WebSubscribers.WebEnqueues | modules/unhcr_salesforce_web/src/EventSubscriber/SalesforceSubmissionSubscriber.php:41-82 | never for crm_success; with an Assently case only on an update (=== TRUE), and then for a paper order or the states signed and missing_bank_signed; without one exactly on a first save (=== FALSE) |
| WebSubscribers.OnPostSave | modules/unhcr_salesforce_web/src/EventSubscriber/SalesforceSubmissionSubscriber.php:41-82 | appends the submission id once exactly when the decision holds, and nothing otherwise |
| WebSubscribers.SuccessNeverRequeued | modules/unhcr_salesforce_web/src/EventSubscriber/SalesforceSubmissionSubscriber.php:44-46 | the save in the create-donation handler never puts the submission back on the queue |
| WebSubscribers.MissingBankSignedEnqueuedThenDropped | modules/unhcr_salesforce_web/src/EventSubscriber/SalesforceSubmissionSubscriber.php:67 | an Assently submission in missing_bank_signed is enqueued on update, yet the web worker's gate refuses it |
| WebSubscribers.PaperWithoutStateEnqueuedThenDropped | modules/unhcr_salesforce_web/src/EventSubscriber/SalesforceSubmissionSubscriber.php:60-62 | a paper order is enqueued even without a state, which the web gate refuses |
| WebSubscribers.WorkerEventsRecordNothing | modules/unhcr_salesforce_web/src/EventSubscriber/SalesforceCreateDonation.php:35-36 | an event without metadata names no submission, so no submission changes |
| WebSubscribers.F2fEventsRecordedHere | modules/unhcr_salesforce_web/src/EventSubscriber/SalesforceCreateDonation.php:35-44 | the event of a successful F2F export names a submission in the storage this handler loads from, which it marks crm_success with the sent data merged in |
| WebSubscribers.FlagRemoteSent | modules/unhcr_salesforce_web/src/EventSubscriber/SalesforceCreateDonation.php:48-52 | only the submission's order changes, and only when it exists and has the field, to remote-sent TRUE |
| WebSubscribers.FlagRemoteSentIdempotent | modules/unhcr_salesforce_web/src/EventSubscriber/SalesforceCreateDonation.php:48-52 | flagging the order twice is flagging it once |
| WebSubscribers.OnCreateDonation | modules/unhcr_salesforce_web/src/EventSubscriber/SalesforceCreateDonation.php:31-54 | the named submission, if it loads, gets the merged data and crm_success, and its order is flagged; without one nothing changes; gateways never change |
| F2fSubscribers.F2fEnqueues | modules/unhcr_salesforce_f2f/src/EventSubscriber/SalesforceSubmissionSubscriber.php:45-52 | exactly an update (=== TRUE) of a submission in signed, missing_bank_signed or missing_bank_interest_queued |
| F2fSubscribers.OnPostSave | modules/unhcr_salesforce_f2f/src/EventSubscriber/SalesforceSubmissionSubscriber.php:41-53 | appends the submission id once exactly when the guard holds |
| F2fSubscribers.EnqueuedExactlyWhatGatePasses | modules/unhcr_salesforce_f2f/src/EventSubscriber/SalesforceSubmissionSubscriber.php:49 | on an update, the subscriber enqueues exactly the states the F2F worker's gate sends |
| F2fSubscribers.SuccessNeverRequeued | modules/unhcr_salesforce_f2f/src/EventSubscriber/SalesforceSubmissionSubscriber.php:49 | the save in the create-donation handler never enqueues the submission again |
| F2fSubscribers.NoEnqueueOnCreate | modules/unhcr_salesforce_f2f/src/EventSubscriber/SalesforceSubmissionSubscriber.php:45 | a save that is not an update never enqueues |
| F2fSubscribers.WorkerSuccessRecorded | modules/unhcr_salesforce_f2f/src/EventSubscriber/SalesforceCreateDonation.php:35-44 | the event of a successful F2F export marks the entity the `unhcr_form` storage holds under the submission's id crm_success, with the sent data merged in |
| F2fSubscribers.WorkerSuccessUnrecorded | modules/unhcr_salesforce_f2f/src/EventSubscriber/SalesforceCreateDonation.php:35-36 | when the `unhcr_form` storage holds nothing under the submission's id, no entity changes |
| F2fSubscribers.OnCreateDonation | modules/unhcr_salesforce_f2f/src/EventSubscriber/SalesforceCreateDonation.php:31-46 | the named entity, if it loads, gets the merged data and crm_success; orders and gateways never change |

## Left out

- I/O and framework plumbing are not modelled: entity load and save, JSON encode and decode, the
  logger's message text, the error notifier and the dispatcher mechanics. Storage is a map, logging is
  the list of error lines, and dispatching is an appended event.
- The current date, configuration values, the continuation URL (`Url::fromRoute`) and the Salesforce
  transport are parameters. A response, a Salesforce exception or another exception is chosen by the
  caller.
- WebQueue.GetGiftshopSummary: each item's label, product title, quantity and formatted price are taken
  as one opaque string per item, because the currency formatter is foreign code. Only the join with
  `<br />` is modelled.
- `hasField()` is taken to hold for every field the code asks about, except `field_remote_sent` on
  orders. The submission entity types always carry those fields.
- `$submission->getOrder()` in the web post-save subscriber and the `commerce_order` reference in the
  worker and handler are one lookup (`EntityStore.OrderOf`).
- array_merge() is modelled for string keys only. The submission data is a JSON object, so numeric-key
  renumbering does not arise.
- WebSubscribers.OnCreateDonation and F2fSubscribers.OnCreateDonation require the event to carry
  `submission_data` whenever the named submission loads. Without it, PHP's array_merge() raises a
  TypeError, which the model does not follow.
- The F2F create-donation handler loads from the `unhcr_form` storage. It is given that storage as a
  parameter, separate from the worker's `unhcr_form_submission` storage.
- The save inside a create-donation handler fires the post-save subscribers again. The model does not
  chain the two calls; the SuccessNeverRequeued lemmas state what that second call decides.
- `getContactBySSN()` is not part of this model: no core code path calls it.
- Cron scheduling, queue redelivery, back-off and concurrent workers are left out. One worker run
  handles one item.
- PHP's `(int)` on strings is modelled as optional leading spaces, an optional sign and a digit prefix,
  saturating at the 64-bit bounds. Fractions and exponents in numeric strings are not modelled.
- A numeric PHP `switch` label never occurs in this code. Loose `==` is modelled only for string labels,
  with PHP 8 semantics.
