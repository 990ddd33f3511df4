/**
 * The entities the export pipeline reads and updates: form submissions,
 * commerce orders and payment gateways as the entity storage holds them, and
 * the Salesforce queue that the post-save subscribers fill.
 */
module Entities {
  import opened PhpValues

  // Values of a submission's `submission_state` field.
  const Signed := "signed"
  const MissingBankInterestQueued := "missing_bank_interest_queued"
  const MissingBankSigned := "missing_bank_signed"
  const CreatedBisnode := "created_bisnode"
  const MissingBankInterestCreated := "missing_bank_interest_created"
  const ErrorState := "error"
  const CrmSuccess := "crm_success"

  /** The `error_type` that marks a failed CRM hand-over worth retrying. */
  const CharityCommunicationError := "charity_communication_error"

  /**
   * A form submission. `state` and `errorType` are None when the field is
   * empty; `data` is the decoded `submission_data` JSON; `assentlyCase` says
   * whether the `assently_case` field is non-empty; `order` is the id of the
   * `commerce_order` reference; `campaign` and `recruiter` are the F2F fields.
   */
  datatype Submission = Submission(
    id: string,
    uuid: string,
    state: Option<string>,
    errorType: Option<string>,
    data: Data,
    assentlyCase: bool,
    order: Option<string>,
    campaign: Value,
    recruiter: Value)

  /**
   * A commerce order: its `data` blob (UTM codes, subscription payment type),
   * whether its bundle has `field_remote_sent` and that field's value, and
   * the gift-shop summary line of each order item (label, product, quantity
   * and formatted price, already rendered).
   */
  datatype Order = Order(
    data: Data,
    hasRemoteSentField: bool,
    remoteSent: bool,
    itemLines: seq<string>)

  /** The value `switch` sees for the state field: the string, or NULL when empty. */
  function StateValue(state: Option<string>): Value {
    if state.Some? then Str(state.value) else Null
  }

  /** $order->getData($key, $default) */
  function OrderData(order: Order, key: string, default: Value): Value {
    Coalesce(order.data, key, default)
  }

  /** Storage load($id) of an entity whose id comes out of decoded data: NULL loads nothing. */
  function Load<T>(entities: map<string, T>, id: Value): Option<T> {
    if id != Null && StrOf(id) in entities then Some(entities[StrOf(id)]) else None
  }

  /** Entity storage: submissions, orders and payment gateways (gateway id to plugin id). */
  class EntityStore {
    var submissions: map<string, Submission>
    var orders: map<string, Order>
    var gateways: map<string, string>

    constructor (submissions: map<string, Submission>, orders: map<string, Order>, gateways: map<string, string>)
      ensures this.submissions == submissions && this.orders == orders && this.gateways == gateways
    {
      this.submissions := submissions;
      this.orders := orders;
      this.gateways := gateways;
    }

    /** The order a submission's `commerce_order` field refers to, if it exists. */
    function OrderOf(s: Submission): Option<Order>
      reads this
    {
      if s.order.Some? && s.order.value in orders then Some(orders[s.order.value]) else None
    }
  }

  /**
   * array_merge($base, $incoming) on string keys: every key of either, the
   * incoming value where both have one.
   */
  function Merge(base: Data, incoming: Data): (r: Data)
    ensures r.Keys == base.Keys + incoming.Keys
    ensures forall k :: k in incoming ==> r[k] == incoming[k]
    ensures forall k :: k in base && k !in incoming ==> r[k] == base[k]
  {
    base + incoming
  }

  /** Merging the same data again changes nothing. */
  lemma MergeIdempotent(base: Data, incoming: Data)
    ensures Merge(Merge(base, incoming), incoming) == Merge(base, incoming)
  {
  }

  /**
   * The submission as the create-donation handlers leave it: the CRM-side
   * data merged into its data and the state `crm_success`.
   */
  function MarkedSent(s: Submission, incoming: Data): (r: Submission)
    ensures r.state == Some(CrmSuccess)
    ensures r.data == Merge(s.data, incoming)
    ensures r == s.(data := r.data, state := r.state)
  {
    s.(data := Merge(s.data, incoming), state := Some(CrmSuccess))
  }

  /** Marking a submission sent twice with the same data is marking it once. */
  lemma MarkedSentIdempotent(s: Submission, incoming: Data)
    ensures MarkedSent(MarkedSent(s, incoming), incoming) == MarkedSent(s, incoming)
  {
    MergeIdempotent(s.data, incoming);
  }

  /** The submission id an event names, as the storage load gets it: NULL when there is none. */
  function SubmissionKey(id: Option<string>): Value {
    if id.Some? then Str(id.value) else Null
  }

  /**
   * The submissions after a create-donation handler: the one the event
   * names, if it loads, marked sent with the event's data; the rest as they
   * were.
   */
  function RecordSuccess(submissions: map<string, Submission>, id: Option<string>, incoming: Option<Data>)
    : (r: map<string, Submission>)
    requires Load(submissions, SubmissionKey(id)).Some? ==> incoming.Some?
    ensures r.Keys == submissions.Keys
    ensures forall k :: k in submissions && Some(k) != id ==> r[k] == submissions[k]
    ensures Load(submissions, SubmissionKey(id)).Some? ==>
      && r[id.value].state == Some(CrmSuccess)
      && r[id.value].data == Merge(submissions[id.value].data, incoming.value)
    ensures Load(submissions, SubmissionKey(id)).None? ==> r == submissions
  {
    var loaded := Load(submissions, SubmissionKey(id));
    if loaded.Some? then submissions[id.value := MarkedSent(loaded.value, incoming.value)] else submissions
  }

  /** Delivering the same event twice records the success once. */
  lemma RecordSuccessIdempotent(submissions: map<string, Submission>, id: Option<string>, incoming: Option<Data>)
    requires Load(submissions, SubmissionKey(id)).Some? ==> incoming.Some?
    ensures Load(RecordSuccess(submissions, id, incoming), SubmissionKey(id)).Some? ==> incoming.Some?
    ensures RecordSuccess(RecordSuccess(submissions, id, incoming), id, incoming) == RecordSuccess(submissions, id, incoming)
  {
    var loaded := Load(submissions, SubmissionKey(id));
    if loaded.Some? {
      MarkedSentIdempotent(loaded.value, incoming.value);
    }
  }

  /** The level of the line a worker's state gate logs. */
  datatype Severity = Info | Warning | Error

  /** A worker's state gate: whether the submission is sent, and the level of the line it logs. */
  datatype GateResult = GateResult(valid: bool, level: Severity)

  /**
   * How a queue worker's processItem() ends for one item: it returns, so the
   * item leaves the queue, either without sending anything (Dropped) or after
   * the CRM took the donation (Sent); it throws the worker's retry exception
   * (Retry); or a PHP error escapes it (Crashed).
   */
  datatype WorkerOutcome = Dropped | Sent | Retry | Crashed

  /** The `salesforce_queue` queue: submission ids waiting for export. */
  class Queue {
    var items: seq<string>

    constructor ()
      ensures items == []
    {
      items := [];
    }

    /** createItem(): append one item. */
    method CreateItem(id: string)
      modifies this
      ensures items == old(items) + [id]
    {
      items := items + [id];
    }
  }
}
