/**
 * The web module's event subscribers: the post-save subscriber that decides
 * whether a saved submission goes on the `salesforce_queue`, and the
 * create-donation handler that records a CRM success on the submission and
 * its order.
 */
module WebSubscribers {
  import opened PhpValues
  import opened Entities
  import opened SalesforceApi
  import opened WebQueue
  import F2fQueue

  // ---------------------------------------------------------------------
  // onPostSave(): the enqueue decision.
  // ---------------------------------------------------------------------

  /**
   * The order was signed on paper: its `subscription_payment_type` is
   * strictly 'paper' (TRUE, which would equal 'paper' loosely, is not).
   */
  predicate PaperOrder(order: Option<Order>)
    ensures PaperOrder(order) <==> order.Some? && Get(order.value.data, "subscription_payment_type") == Str("paper")
    ensures order.Some? && Get(order.value.data, "subscription_payment_type") == Bool(true) ==> !PaperOrder(order)
  {
    order.Some? && OrderData(order.value, "subscription_payment_type", Null) == Str("paper")
  }

  /**
   * The decision of onPostSave(). `update` is the event's `update` option,
   * compared strictly with TRUE and FALSE (a missing option is NULL and
   * matches neither). A submission with an Assently case is enqueued on an
   * update, when its order was signed on paper or it is `signed` or
   * `missing_bank_signed`; any other submission on its first save; a
   * `crm_success` submission never.
   */
  function WebEnqueues(s: Submission, update: Value, order: Option<Order>): (r: bool)
    ensures r ==> s.state != Some(CrmSuccess)
    ensures r && s.assentlyCase ==> update == Bool(true)
    ensures r && !s.assentlyCase ==> update == Bool(false)
    ensures r && s.assentlyCase && !PaperOrder(order) ==> s.state == Some(Signed) || s.state == Some(MissingBankSigned)
    ensures s.state != Some(CrmSuccess) && !s.assentlyCase && update == Bool(false) ==> r
    ensures s.state != Some(CrmSuccess) && s.assentlyCase && update == Bool(true) && PaperOrder(order) ==> r
    ensures s.state in {Some(Signed), Some(MissingBankSigned)} && s.assentlyCase && update == Bool(true) ==> r
  {
    if s.state == Some(CrmSuccess) then false
    else if s.assentlyCase then
      update == Bool(true) && (PaperOrder(order) || (s.state.Some? && (s.state.value == Signed || s.state.value == MissingBankSigned)))
    else update == Bool(false)
  }

  /**
   * onPostSave(): set the `$create_submission` flag through the nested
   * branches, then enqueue the submission id once when it is set.
   */
  method OnPostSave(s: Submission, update: Value, store: EntityStore, queue: Queue)
    modifies queue
    ensures queue.items == old(queue.items) + (if WebEnqueues(s, update, store.OrderOf(s)) then [s.id] else [])
  {
    if s.state == Some(CrmSuccess) {
      return;
    }
    var createSubmission := false;
    if s.assentlyCase {
      if update == Bool(true) {
        var order := store.OrderOf(s);
        if order.Some? && OrderData(order.value, "subscription_payment_type", Null) == Str("paper") {
          createSubmission := true;
        } else if s.state.Some? {
          var state := s.state.value;
          if state == Signed || state == MissingBankSigned {
            createSubmission := true;
          }
        }
      }
    } else {
      if update == Bool(false) {
        createSubmission := true;
      }
    }
    if createSubmission {
      queue.CreateItem(s.id);
    }
  }

  /**
   * The save inside the create-donation handler never enqueues the
   * submission again, whatever the event's options and the order.
   */
  lemma SuccessNeverRequeued(s: Submission, incoming: Data, update: Value, order: Option<Order>)
    ensures !WebEnqueues(MarkedSent(s, incoming), update, order)
  {
  }

  /**
   * The subscriber enqueues an Assently submission in `missing_bank_signed`
   * that the web worker's gate then drops: the item is consumed without an
   * export.
   */
  lemma MissingBankSignedEnqueuedThenDropped(s: Submission, order: Option<Order>)
    requires s.assentlyCase && s.state == Some(MissingBankSigned)
    ensures WebEnqueues(s, Bool(true), order)
    ensures !ValidateSubmissionState(s.state, s.errorType).valid
  {
  }

  /**
   * A paper-signed Assently submission is enqueued even with an empty state,
   * which the web gate drops.
   */
  lemma PaperWithoutStateEnqueuedThenDropped(s: Submission, order: Option<Order>)
    requires s.assentlyCase && s.state.None? && PaperOrder(order)
    ensures WebEnqueues(s, Bool(true), order)
    ensures !ValidateSubmissionState(s.state, s.errorType).valid
  {
  }

  // ---------------------------------------------------------------------
  // onCreateDonation(): record the CRM success.
  // ---------------------------------------------------------------------

  /**
   * The web worker passes no metadata, so the events it causes name no
   * submission and the handler records nothing.
   */
  lemma WorkerEventsRecordNothing(submissions: map<string, Submission>)
    ensures RecordSuccess(submissions, NoMetadata.submission, NoMetadata.submissionData) == submissions
  {
  }

  /**
   * Both handlers receive every create-donation event, and the web handler
   * loads from the storage the F2F worker exports from. So the event of a
   * successful F2F export marks that submission `crm_success` with the sent
   * data merged in, here too.
   */
  lemma F2fEventsRecordedHere(submissions: map<string, Submission>, s: Submission)
    requires s.id in submissions
    ensures var m := F2fQueue.RecurringMetadata(s);
      && RecordSuccess(submissions, m.submission, m.submissionData)[s.id].state == Some(CrmSuccess)
      && RecordSuccess(submissions, m.submission, m.submissionData)[s.id].data == Merge(submissions[s.id].data, s.data)
  {
  }

  /** The order flagged as sent to the CRM: `field_remote_sent` TRUE when its bundle has the field. */
  function FlagRemoteSent(orders: map<string, Order>, s: Submission): (r: map<string, Order>)
    ensures r.Keys == orders.Keys
    ensures forall k :: k in orders && Some(k) != s.order ==> r[k] == orders[k]
    ensures s.order.Some? && s.order.value in orders ==>
      var o := orders[s.order.value];
      r[s.order.value] == (if o.hasRemoteSentField then o.(remoteSent := true) else o)
  {
    if s.order.Some? && s.order.value in orders && orders[s.order.value].hasRemoteSentField
    then orders[s.order.value := orders[s.order.value].(remoteSent := true)]
    else orders
  }

  /** Flagging the order twice is flagging it once. */
  lemma FlagRemoteSentIdempotent(orders: map<string, Order>, s: Submission)
    ensures FlagRemoteSent(FlagRemoteSent(orders, s), s) == FlagRemoteSent(orders, s)
  {
  }

  /**
   * onCreateDonation(): load the submission the event names; if there is
   * one, merge the CRM-side data into its data, set it to `crm_success` and
   * flag its order as sent. Without such a submission nothing changes; this
   * is the case of every event the web worker causes, as it passes no
   * metadata. array_merge() needs the event's `submission_data` once a
   * submission is loaded.
   */
  method OnCreateDonation(event: SubmissionEvent, store: EntityStore)
    requires Load(store.submissions, SubmissionKey(event.data.submission)).Some? ==> event.data.submissionData.Some?
    modifies store
    ensures store.submissions == RecordSuccess(old(store.submissions), event.data.submission, event.data.submissionData)
    ensures store.orders == (if Load(old(store.submissions), SubmissionKey(event.data.submission)).Some?
                             then FlagRemoteSent(old(store.orders), Load(old(store.submissions), SubmissionKey(event.data.submission)).value)
                             else old(store.orders))
    ensures store.gateways == old(store.gateways)
    ensures event.data == NoMetadata ==> unchanged(store)
  {
    var submission := Load(store.submissions, SubmissionKey(event.data.submission));
    if submission.Some? {
      var s := submission.value;
      store.submissions := store.submissions[event.data.submission.value := MarkedSent(s, event.data.submissionData.value)];
      var order := store.OrderOf(s);
      if order.Some? && order.value.hasRemoteSentField {
        store.orders := store.orders[s.order.value := order.value.(remoteSent := true)];
      }
    }
  }
}
