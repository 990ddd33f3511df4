/**
 * The F2F module's event subscribers: the post-save subscriber that puts a
 * signed sign-up on the `salesforce_queue`, and the create-donation handler
 * that records a CRM success on the submission.
 */
module F2fSubscribers {
  import opened PhpValues
  import opened Entities
  import opened SalesforceApi
  import opened F2fQueue

  // ---------------------------------------------------------------------
  // onPostSave(): the enqueue decision.
  // ---------------------------------------------------------------------

  /**
   * The guard of onPostSave(): an update (`update` strictly TRUE) of a
   * submission whose non-empty state is `signed`, `missing_bank_signed` or
   * `missing_bank_interest_queued`.
   */
  function F2fEnqueues(s: Submission, update: Value): (r: bool)
    ensures r ==> update == Bool(true)
    ensures r ==> s.state.Some?
    ensures r <==> update == Bool(true)
                   && s.state in {Some(Signed), Some(MissingBankSigned), Some(MissingBankInterestQueued)}
  {
    update == Bool(true) && s.state.Some?
    && (s.state.value == Signed || s.state.value == MissingBankSigned || s.state.value == MissingBankInterestQueued)
  }

  /** onPostSave(): enqueue the submission id once when the guard holds. */
  method OnPostSave(s: Submission, update: Value, queue: Queue)
    modifies queue
    ensures queue.items == old(queue.items) + (if F2fEnqueues(s, update) then [s.id] else [])
  {
    if update == Bool(true) && s.state.Some? {
      var state := s.state.value;
      if state == Signed || state == MissingBankSigned || state == MissingBankInterestQueued {
        queue.CreateItem(s.id);
      }
    }
  }

  /**
   * The subscriber and the F2F worker's gate agree: on an update, exactly
   * the submissions the gate sends are enqueued, so every F2F queue item
   * the subscriber creates is exported.
   */
  lemma EnqueuedExactlyWhatGatePasses(s: Submission, update: Value)
    ensures F2fEnqueues(s, update) <==> update == Bool(true) && F2fGate(s.state).valid
  {
  }

  /** The save inside the create-donation handler never enqueues the submission again. */
  lemma SuccessNeverRequeued(s: Submission, incoming: Data, update: Value)
    ensures !F2fEnqueues(MarkedSent(s, incoming), update)
  {
  }

  /** A first save (not an update) never enqueues. */
  lemma NoEnqueueOnCreate(s: Submission, update: Value)
    requires update != Bool(true)
    ensures !F2fEnqueues(s, update)
  {
  }

  // ---------------------------------------------------------------------
  // onCreateDonation(): record the CRM success.
  // ---------------------------------------------------------------------

  /**
   * The event of a successful F2F export names the submission and carries
   * its data, so the handler marks the entity the `unhcr_form` storage holds
   * under that id `crm_success`, when it holds one.
   */
  lemma WorkerSuccessRecorded(submissions: map<string, Submission>, s: Submission)
    requires s.id in submissions
    ensures var m := RecurringMetadata(s);
      && RecordSuccess(submissions, m.submission, m.submissionData)[s.id].state == Some(CrmSuccess)
      && RecordSuccess(submissions, m.submission, m.submissionData)[s.id].data == Merge(submissions[s.id].data, s.data)
  {
  }

  /**
   * When the `unhcr_form` storage holds no entity under the submission's id,
   * the handler's load finds nothing and the success is recorded nowhere.
   */
  lemma WorkerSuccessUnrecorded(submissions: map<string, Submission>, s: Submission)
    requires s.id !in submissions
    ensures var m := RecurringMetadata(s);
      RecordSuccess(submissions, m.submission, m.submissionData) == submissions
  {
  }

  /**
   * onCreateDonation(): load the entity the event names from the
   * `unhcr_form` storage (`storage` here); if there is one, merge the
   * CRM-side data into its data and set it to `crm_success`. Orders and
   * gateways are not touched. array_merge() needs the event's
   * `submission_data` once an entity is loaded.
   */
  method OnCreateDonation(event: SubmissionEvent, storage: EntityStore)
    requires Load(storage.submissions, SubmissionKey(event.data.submission)).Some? ==> event.data.submissionData.Some?
    modifies storage
    ensures storage.submissions == RecordSuccess(old(storage.submissions), event.data.submission, event.data.submissionData)
    ensures storage.orders == old(storage.orders) && storage.gateways == old(storage.gateways)
  {
    var submission := Load(storage.submissions, SubmissionKey(event.data.submission));
    if submission.Some? {
      var s := submission.value;
      storage.submissions := storage.submissions[event.data.submission.value := MarkedSent(s, event.data.submissionData.value)];
    }
  }
}
