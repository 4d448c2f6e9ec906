/**
 * The host platform and billing-provider effects that the reconciliation code performs,
 * and the state they change: the gateway's transaction table (the ledger), the generic
 * payment table, and the ordered trace of every provider call and every write to the host
 * (payment, ledger row, delivery, event). The host's reads are inputs or reads of the state.
 */
module Platform {
  import opened Common

  /** A row of the host's generic payment table, as `save_payment` stores it. */
  datatype Payment = Payment(
    accountId: int, component: string, paymentArea: string, itemId: int,
    userId: int, amount: real, currency: string, gateway: string)

  /** The payable item: its account, currency, and its cost rounded with the gateway surcharge. */
  datatype Payable = Payable(accountId: int, currency: string, cost: real)

  /** The payment both reconciliation paths save: amount and currency from the payable, never from the invoice. */
  function PaymentFor(payable: Payable, component: string, paymentArea: string, itemId: int, userId: int): Payment {
    Payment(payable.accountId, component, paymentArea, itemId, userId, payable.cost, payable.currency, "chargebee")
  }

  /** What `save_transaction_details` reads back from the provider for the row it inserts. */
  datatype Details = Details(invoiceNumber: string, transactionId: Option<string>, customerId: string, amountPaid: string)

  /** A row of the gateway's own transaction table. */
  datatype TxnRecord = TxnRecord(
    userId: int, paymentId: nat, invoiceNumber: string,
    transactionId: Option<string>, customerId: string, amountPaid: string)

  /** The gateway's event types. */
  datatype EventKind = TransactionSuccessful | TransactionCompleted | VoidInvoiceSuccessful | VoidInvoiceFailed

  /**
   * One provider call or host write, in the order it is made. Host reads (configuration,
   * payable, `record_exists`, the course lookup) are not traced.
   */
  datatype Effect =
    | FetchHostedPage(ref: string)
    | VerifyTransaction(ref: string, userId: int, cost: real, currency: string)
    | SavePayment(payment: Payment)
    | SaveTransactionDetails(ref: string, userId: int, paymentId: nat, details: Details)
    | DeliverOrder(component: string, paymentArea: string, itemId: int, paymentId: nat, userId: int)
    | Acknowledge(ref: string)
    | FetchInvoice(invoiceId: string)
    | VoidUnpaidInvoice(ref: string, userId: int)
    | LogEvent(kind: EventKind, other: map<string, Value>)

  /** The ledger row `save_transaction_details` inserts. */
  function RowFor(userId: int, paymentId: nat, d: Details): TxnRecord {
    TxnRecord(userId, paymentId, d.invoiceNumber, d.transactionId, d.customerId, d.amountPaid)
  }

  /** The state the reconciliation code reads and changes. */
  datatype World = World(ledger: seq<TxnRecord>, payments: seq<Payment>, trace: seq<Effect>) {

    /** The id the payment table gives the next saved payment (ids count from 1). */
    function NextPaymentId(): nat {
      |payments| + 1
    }

    /** The state after effect `e`: it is traced, and the two saves also add their row. */
    function Perform(e: Effect): (w: World)
      ensures w.trace == trace + [e]
      ensures w.payments == if e.SavePayment? then payments + [e.payment] else payments
      ensures w.ledger == if e.SaveTransactionDetails? then ledger + [RowFor(e.userId, e.paymentId, e.details)] else ledger
      ensures Deliveries(w.trace) == Deliveries(trace) + if e.DeliverOrder? then 1 else 0
      ensures Acknowledged(w.trace) == Acknowledged(trace) + if e.Acknowledge? then [e.ref] else []
      ensures Logged(w.trace) == Logged(trace) + if e.LogEvent? then [e.kind] else []
    {
      assert (trace + [e])[..|trace|] == trace;
      match e
      case SavePayment(p) => World(ledger, payments + [p], trace + [e])
      case SaveTransactionDetails(_, userId, paymentId, d) => World(ledger + [RowFor(userId, paymentId, d)], payments, trace + [e])
      case _ => World(ledger, payments, trace + [e])
    }
  }

  /** Row `r` carries the key (invoice number, transaction id). */
  predicate IsRecordFor(r: TxnRecord, invoiceNumber: string, transactionId: Option<string>) {
    r.invoiceNumber == invoiceNumber && r.transactionId == transactionId
  }

  /** The gateway's `record_exists` on (invoice number, transaction id), scanning from the newest row. */
  predicate HasRecord(ledger: seq<TxnRecord>, invoiceNumber: string, transactionId: Option<string>) {
    |ledger| > 0 &&
      (IsRecordFor(ledger[|ledger| - 1], invoiceNumber, transactionId)
       || HasRecord(ledger[..|ledger| - 1], invoiceNumber, transactionId))
  }

  /** `HasRecord` holds exactly when some row of the ledger carries the key. */
  lemma {:induction false} HasRecordMeans(ledger: seq<TxnRecord>, invoiceNumber: string, transactionId: Option<string>)
    ensures HasRecord(ledger, invoiceNumber, transactionId) <==> exists r :: r in ledger && IsRecordFor(r, invoiceNumber, transactionId)
  {
    if |ledger| > 0 {
      var older, last := ledger[..|ledger| - 1], ledger[|ledger| - 1];
      assert ledger == older + [last];
      HasRecordMeans(older, invoiceNumber, transactionId);
      if HasRecord(ledger, invoiceNumber, transactionId) && !IsRecordFor(last, invoiceNumber, transactionId) {
        var r :| r in older && IsRecordFor(r, invoiceNumber, transactionId);
        assert r in ledger;
      }
    }
  }

  /** Inserting a row finds its key and keeps every key already there. */
  lemma HasRecordAppend(ledger: seq<TxnRecord>, r: TxnRecord, invoiceNumber: string, transactionId: Option<string>)
    ensures HasRecord(ledger + [r], invoiceNumber, transactionId)
            <==> HasRecord(ledger, invoiceNumber, transactionId) || IsRecordFor(r, invoiceNumber, transactionId)
  {
    assert (ledger + [r])[..|ledger|] == ledger;
  }

  /** The number of entitlement deliveries in a trace. */
  function Deliveries(t: seq<Effect>): nat {
    if |t| == 0 then 0 else Deliveries(t[..|t| - 1]) + if t[|t| - 1].DeliverOrder? then 1 else 0
  }

  /** The references acknowledged to the provider, in order. */
  function Acknowledged(t: seq<Effect>): seq<string> {
    if |t| == 0 then [] else Acknowledged(t[..|t| - 1]) + if t[|t| - 1].Acknowledge? then [t[|t| - 1].ref] else []
  }

  /** The kinds of the events logged, in order. */
  function Logged(t: seq<Effect>): seq<EventKind> {
    if |t| == 0 then [] else Logged(t[..|t| - 1]) + if t[|t| - 1].LogEvent? then [t[|t| - 1].kind] else []
  }

  /**
   * The consistency the two reconciliation paths keep: one ledger row and one delivery
   * per saved payment, and the i-th ledger row refers to payment id i + 1.
   */
  ghost predicate Consistent(w: World) {
    |w.ledger| == |w.payments| == Deliveries(w.trace)
    && forall i :: 0 <= i < |w.ledger| ==> w.ledger[i].paymentId == i + 1
  }

  /**
   * The platform as a mutable object: the two tables and the trace that the
   * reconciliation code changes call by call.
   */
  class Site {
    var ledger: seq<TxnRecord>
    var payments: seq<Payment>
    var trace: seq<Effect>

    /** The current state as a value. */
    function State(): World
      reads this
    {
      World(ledger, payments, trace)
    }

    /** A platform with empty tables and nothing done yet. */
    constructor ()
      ensures State() == World([], [], [])
    {
      ledger, payments, trace := [], [], [];
    }

    /** Performs a call whose only local effect is its place in the trace. */
    method Call(e: Effect)
      requires !e.SavePayment? && !e.SaveTransactionDetails?
      modifies this
      ensures State() == old(State()).Perform(e)
    {
      trace := trace + [e];
    }

    /** `save_payment`: stores the payment and returns its new id. */
    method SavePayment(p: Payment) returns (id: nat)
      modifies this
      ensures id == old(State()).NextPaymentId()
      ensures State() == old(State()).Perform(Effect.SavePayment(p))
    {
      id := |payments| + 1;
      payments := payments + [p];
      trace := trace + [Effect.SavePayment(p)];
    }

    /** `save_transaction_details`: inserts the ledger row and returns its invoice number. */
    method SaveTransactionDetails(ref: string, userId: int, paymentId: nat, d: Details) returns (invoiceNumber: string)
      modifies this
      ensures invoiceNumber == d.invoiceNumber
      ensures State() == old(State()).Perform(Effect.SaveTransactionDetails(ref, userId, paymentId, d))
    {
      ledger := ledger + [RowFor(userId, paymentId, d)];
      trace := trace + [Effect.SaveTransactionDetails(ref, userId, paymentId, d)];
      invoiceNumber := d.invoiceNumber;
    }
  }
}
