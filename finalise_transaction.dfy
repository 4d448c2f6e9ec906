/**
 * The deferred reconciliation task: given the stored hosted-page reference, it reads the
 * page's state from the provider and, for a succeeded page, either acknowledges it,
 * records the payment and delivers the order, or handles the unpaid invoice.
 *
 * Provider answers (the hosted page, the re-fetched invoice status, the result of voiding,
 * and what `save_transaction_details` reads back) are inputs collected in `Provider`.
 */
module FinaliseTransaction {
  import opened Common
  import opened Platform
  import TransactionEvent

  /** The hosted page states the task distinguishes; any other state is `StateOther`. */
  datatype PageState = StateRequested | StateSucceeded | StateAcknowledged | StateOther(name: string)

  /** The invoice embedded in a hosted page; `linkedTxnIds` lists its linked payments' transaction ids. */
  datatype Invoice = Invoice(id: string, status: string, amountPaid: int, currencyCode: string, linkedTxnIds: seq<string>)

  /** A hosted page as the provider returns it. */
  datatype HostedPage = HostedPage(id: string, state: PageState, invoice: Invoice)

  /** The task's custom data; the reference may be unset. */
  datatype TaskData = TaskData(remoteReference: Option<string>, component: string, paymentArea: string, itemId: int, userId: int)

  /** The gateway configuration of the payment account. */
  datatype GatewayConfig = GatewayConfig(sitename: string, apikey: string, customeridprefix: string, autovoidinvoice: string)

  /** What voiding an unpaid invoice returns. */
  datatype VoidResult = VoidResult(status: string, invoice: string)

  /** The provider's answers during one run of the task. */
  datatype Provider = Provider(page: HostedPage, details: Details, invoiceStatus: string, voidResult: VoidResult)

  /** `linked_payments[0].txn_id`: absent (PHP `null`) when there is no linked payment. */
  function FirstTxnId(inv: Invoice): Option<string> {
    if |inv.linkedTxnIds| == 0 then None else Some(inv.linkedTxnIds[0])
  }

  /** `save_transaction_details` stores the page's own ledger key. */
  predicate StoresPageKey(p: Provider) {
    p.details.invoiceNumber == p.page.invoice.id && p.details.transactionId == FirstTxnId(p.page.invoice)
  }

  /** The payment the task saves. */
  function TaskPayment(data: TaskData, payable: Payable): Payment {
    PaymentFor(payable, data.component, data.paymentArea, data.itemId, data.userId)
  }

  /** The `other` data of the transaction-successful event. */
  function SuccessfulOther(data: TaskData, invoiceNumber: string, paymentId: nat): map<string, Value> {
    map["component" := VStr(data.component), "paymentarea" := VStr(data.paymentArea), "itemid" := VInt(data.itemId),
        "invoice" := VStr(invoiceNumber), "paymentid" := VInt(paymentId)]
  }

  /** The `other` data of the transaction-completed event. */
  function CompletedOther(data: TaskData): map<string, Value> {
    map["component" := VStr(data.component), "paymentarea" := VStr(data.paymentArea), "itemid" := VInt(data.itemId)]
  }

  /** The `other` data of the two void events. */
  function VoidOther(data: TaskData, invoice: string): map<string, Value> {
    map["component" := VStr(data.component), "paymentarea" := VStr(data.paymentArea), "itemid" := VInt(data.itemId),
        "invoice" := VStr(invoice)]
  }

  /** A paid, unrecorded page: save payment, record transaction, deliver, then the two events. */
  function RecordPayment(w: World, ref: string, data: TaskData, payable: Payable, d: Details): World {
    var paymentId := w.NextPaymentId();
    w.Perform(SavePayment(TaskPayment(data, payable)))
     .Perform(SaveTransactionDetails(ref, data.userId, paymentId, d))
     .Perform(DeliverOrder(data.component, data.paymentArea, data.itemId, paymentId, data.userId))
     .Perform(LogEvent(TransactionSuccessful, SuccessfulOther(data, d.invoiceNumber, paymentId)))
     .Perform(LogEvent(TransactionCompleted, CompletedOther(data)))
  }

  /** A succeeded page whose invoice is not paid: re-fetch the invoice and act on its status. */
  function HandleUnpaid(w: World, ref: string, data: TaskData, config: GatewayConfig, p: Provider): World {
    var fetched := w.Perform(FetchInvoice(p.page.invoice.id));
    if p.invoiceStatus == "voided" then
      fetched.Perform(Acknowledge(ref))
    else if p.invoiceStatus == "payment_due" && config.autovoidinvoice == "1" then
      var voided := fetched.Perform(VoidUnpaidInvoice(ref, data.userId));
      if p.voidResult.status == "voided" then
        voided.Perform(LogEvent(VoidInvoiceSuccessful, VoidOther(data, p.voidResult.invoice)))
              .Perform(LogEvent(TransactionCompleted, CompletedOther(data)))
      else
        voided.Perform(LogEvent(VoidInvoiceFailed, VoidOther(data, p.voidResult.invoice)))
    else
      fetched
  }

  /** The state after one run of the task. */
  function Finalise(w: World, data: TaskData, config: GatewayConfig, payable: Payable, p: Provider): World {
    match data.remoteReference
    case None => w
    case Some(ref) =>
      var fetched := w.Perform(FetchHostedPage(ref));
      var inv := p.page.invoice;
      if p.page.state == StateSucceeded then
        if HasRecord(w.ledger, inv.id, FirstTxnId(inv)) then fetched.Perform(Acknowledge(ref))
        else if inv.status == "paid" then RecordPayment(fetched, ref, data, payable, p.details)
        else HandleUnpaid(fetched, ref, data, config, p)
      else
        fetched
  }

  /** The task, run against the platform's mutable state. */
  method Execute(site: Site, data: TaskData, config: GatewayConfig, payable: Payable, p: Provider)
    modifies site
    ensures site.State() == Finalise(old(site.State()), data, config, payable, p)
  {
    if data.remoteReference.None? {
      return;
    }
    var ref := data.remoteReference.value;
    site.Call(FetchHostedPage(ref));
    var result := p.page;
    match result.state {
      case StateAcknowledged =>
        // The PHP task re-checks the ledger here, but only to choose what to print.
      case StateSucceeded =>
        var inv := result.invoice;
        if HasRecord(site.ledger, inv.id, FirstTxnId(inv)) {
          site.Call(Acknowledge(ref));
        } else if inv.status == "paid" {
          var paymentId := site.SavePayment(TaskPayment(data, payable));
          var invoiceNumber := site.SaveTransactionDetails(ref, data.userId, paymentId, p.details);
          site.Call(DeliverOrder(data.component, data.paymentArea, data.itemId, paymentId, data.userId));
          site.Call(LogEvent(TransactionSuccessful, SuccessfulOther(data, invoiceNumber, paymentId)));
          site.Call(LogEvent(TransactionCompleted, CompletedOther(data)));
        } else {
          site.Call(FetchInvoice(inv.id));
          var status := p.invoiceStatus;
          if status == "voided" {
            site.Call(Acknowledge(ref));
          } else if status == "payment_due" && config.autovoidinvoice == "1" {
            site.Call(VoidUnpaidInvoice(ref, data.userId));
            var voidResult := p.voidResult;
            if voidResult.status == "voided" {
              site.Call(LogEvent(VoidInvoiceSuccessful, VoidOther(data, voidResult.invoice)));
              site.Call(LogEvent(TransactionCompleted, CompletedOther(data)));
            } else {
              site.Call(LogEvent(VoidInvoiceFailed, VoidOther(data, voidResult.invoice)));
            }
          }
        }
      case StateRequested =>
        // An abandoned page: nothing to do.
      case StateOther(_) =>
        // No case of the `switch` in `execute` matches.
    }
  }

  /** Without a reference nothing is fetched, saved, acknowledged or logged. */
  lemma NoReferenceDoesNothing(w: World, data: TaskData, config: GatewayConfig, payable: Payable, p: Provider)
    requires data.remoteReference.None?
    ensures Finalise(w, data, config, payable, p) == w
  {
  }

  /**
   * A page that is not succeeded (acknowledged, requested, or a state with no case) is
   * only fetched: ledger, payments, acknowledgements and events stay as they were.
   */
  lemma NotSucceededOnlyFetches(w: World, data: TaskData, config: GatewayConfig, payable: Payable, p: Provider)
    requires data.remoteReference.Some? && p.page.state != StateSucceeded
    ensures var w' := Finalise(w, data, config, payable, p);
      w'.ledger == w.ledger && w'.payments == w.payments
      && w'.trace == w.trace + [FetchHostedPage(data.remoteReference.value)]
      && Deliveries(w'.trace) == Deliveries(w.trace)
  {
  }

  /** A succeeded page already in the ledger is acknowledged once, and nothing else happens. */
  lemma RecordedPageIsAcknowledged(w: World, data: TaskData, config: GatewayConfig, payable: Payable, p: Provider)
    requires data.remoteReference.Some? && p.page.state == StateSucceeded
    requires HasRecord(w.ledger, p.page.invoice.id, FirstTxnId(p.page.invoice))
    ensures var w' := Finalise(w, data, config, payable, p);
      var ref := data.remoteReference.value;
      w'.ledger == w.ledger && w'.payments == w.payments
      && w'.trace == w.trace + [FetchHostedPage(ref)] + [Acknowledge(ref)]
      && Acknowledged(w'.trace) == Acknowledged(w.trace) + [ref]
      && Deliveries(w'.trace) == Deliveries(w.trace)
      && Logged(w'.trace) == Logged(w.trace)
  {
  }

  /**
   * A succeeded, unrecorded page with a paid invoice: the effects are save payment,
   * record transaction, deliver order, transaction successful, transaction completed,
   * in that order; the saved payment carries the payable's cost and currency.
   */
  lemma PaidPageIsRecorded(w: World, data: TaskData, config: GatewayConfig, payable: Payable, p: Provider)
    requires data.remoteReference.Some? && p.page.state == StateSucceeded
    requires !HasRecord(w.ledger, p.page.invoice.id, FirstTxnId(p.page.invoice))
    requires p.page.invoice.status == "paid"
    ensures var w' := Finalise(w, data, config, payable, p);
      var ref, id := data.remoteReference.value, |w.payments| + 1;
      var payment := TaskPayment(data, payable);
      w'.trace == w.trace
        + [FetchHostedPage(ref)]
        + [SavePayment(payment)]
        + [SaveTransactionDetails(ref, data.userId, id, p.details)]
        + [DeliverOrder(data.component, data.paymentArea, data.itemId, id, data.userId)]
        + [LogEvent(TransactionSuccessful, SuccessfulOther(data, p.details.invoiceNumber, id))]
        + [LogEvent(TransactionCompleted, CompletedOther(data))]
      && w'.payments == w.payments + [payment]
      && payment.amount == payable.cost && payment.currency == payable.currency
      && w'.ledger == w.ledger + [RowFor(data.userId, id, p.details)]
      && Deliveries(w'.trace) == Deliveries(w.trace) + 1
  {
    var ref := data.remoteReference.value;
    assert Finalise(w, data, config, payable, p) == RecordPayment(w.Perform(FetchHostedPage(ref)), ref, data, payable, p.details);
    RecordPaymentEffects(w, ref, data, payable, p.details);
  }

  /**
   * The effects of fetching the page and recording its paid invoice, one by one, and the
   * single delivery.
   */
  lemma RecordPaymentEffects(w: World, ref: string, data: TaskData, payable: Payable, d: Details)
    ensures var w' := RecordPayment(w.Perform(FetchHostedPage(ref)), ref, data, payable, d);
      var id := |w.payments| + 1;
      var payment := TaskPayment(data, payable);
      w'.trace == w.trace
        + [FetchHostedPage(ref)]
        + [SavePayment(payment)]
        + [SaveTransactionDetails(ref, data.userId, id, d)]
        + [DeliverOrder(data.component, data.paymentArea, data.itemId, id, data.userId)]
        + [LogEvent(TransactionSuccessful, SuccessfulOther(data, d.invoiceNumber, id))]
        + [LogEvent(TransactionCompleted, CompletedOther(data))]
      && w'.payments == w.payments + [payment]
      && w'.ledger == w.ledger + [RowFor(data.userId, id, d)]
      && Deliveries(w'.trace) == Deliveries(w.trace) + 1
  {
    var id := |w.payments| + 1;
    var w0 := w.Perform(FetchHostedPage(ref));
    assert w0.ledger == w.ledger && w0.payments == w.payments;
    var w1 := w0.Perform(SavePayment(TaskPayment(data, payable)));
    var w2 := w1.Perform(SaveTransactionDetails(ref, data.userId, id, d));
    var w3 := w2.Perform(DeliverOrder(data.component, data.paymentArea, data.itemId, id, data.userId));
    var w4 := w3.Perform(LogEvent(TransactionSuccessful, SuccessfulOther(data, d.invoiceNumber, id)));
    assert RecordPayment(w0, ref, data, payable, d) == w4.Perform(LogEvent(TransactionCompleted, CompletedOther(data)));
  }

  /** The saved payment does not depend on the amount or currency the invoice reports. */
  lemma SavedCostIgnoresInvoice(w: World, data: TaskData, config: GatewayConfig, payable: Payable, p: Provider,
                                amountPaid: int, currencyCode: string)
    ensures var inv := p.page.invoice.(amountPaid := amountPaid, currencyCode := currencyCode);
      Finalise(w, data, config, payable, p.(page := p.page.(invoice := inv))) == Finalise(w, data, config, payable, p)
  {
  }

  /**
   * A succeeded, unrecorded page whose invoice is not paid: the invoice is re-fetched and
   * then acknowledged when voided, voided when due and auto-void is on (with the success
   * or the failure events), and left alone otherwise. The ledger and payments never change.
   */
  lemma UnpaidPageIsResolved(w: World, data: TaskData, config: GatewayConfig, payable: Payable, p: Provider)
    requires data.remoteReference.Some? && p.page.state == StateSucceeded
    requires !HasRecord(w.ledger, p.page.invoice.id, FirstTxnId(p.page.invoice))
    requires p.page.invoice.status != "paid"
    ensures var w' := Finalise(w, data, config, payable, p);
      var ref := data.remoteReference.value;
      var start := w.trace + [FetchHostedPage(ref)] + [FetchInvoice(p.page.invoice.id)];
      var autoVoid := p.invoiceStatus == "payment_due" && config.autovoidinvoice == "1";
      var voidCall := VoidUnpaidInvoice(ref, data.userId);
      var other := VoidOther(data, p.voidResult.invoice);
      w'.ledger == w.ledger && w'.payments == w.payments && Deliveries(w'.trace) == Deliveries(w.trace)
      && (p.invoiceStatus == "voided" ==> w'.trace == start + [Acknowledge(ref)])
      && (autoVoid && p.voidResult.status == "voided" ==>
            w'.trace == start + [voidCall] + [LogEvent(VoidInvoiceSuccessful, other)] + [LogEvent(TransactionCompleted, CompletedOther(data))])
      && (autoVoid && p.voidResult.status != "voided" ==>
            w'.trace == start + [voidCall] + [LogEvent(VoidInvoiceFailed, other)])
      && (p.invoiceStatus != "voided" && !autoVoid ==> w'.trace == start)
  {
    var ref := data.remoteReference.value;
    var fetched := w.Perform(FetchHostedPage(ref));
    assert fetched.ledger == w.ledger && fetched.payments == w.payments;
    assert Finalise(w, data, config, payable, p) == HandleUnpaid(fetched, ref, data, config, p);
    HandleUnpaidEffects(fetched, ref, data, config, p);
  }

  /** The effects of handling an unpaid invoice, case by case; nothing is saved or delivered. */
  lemma HandleUnpaidEffects(w: World, ref: string, data: TaskData, config: GatewayConfig, p: Provider)
    ensures var w' := HandleUnpaid(w, ref, data, config, p);
      var start := w.trace + [FetchInvoice(p.page.invoice.id)];
      var autoVoid := p.invoiceStatus == "payment_due" && config.autovoidinvoice == "1";
      var voidCall := VoidUnpaidInvoice(ref, data.userId);
      var other := VoidOther(data, p.voidResult.invoice);
      w'.ledger == w.ledger && w'.payments == w.payments && Deliveries(w'.trace) == Deliveries(w.trace)
      && (p.invoiceStatus == "voided" ==> w'.trace == start + [Acknowledge(ref)])
      && (autoVoid && p.voidResult.status == "voided" ==>
            w'.trace == start + [voidCall] + [LogEvent(VoidInvoiceSuccessful, other)] + [LogEvent(TransactionCompleted, CompletedOther(data))])
      && (autoVoid && p.voidResult.status != "voided" ==>
            w'.trace == start + [voidCall] + [LogEvent(VoidInvoiceFailed, other)])
      && (p.invoiceStatus != "voided" && !autoVoid ==> w'.trace == start)
  {
    var fetched := w.Perform(FetchInvoice(p.page.invoice.id));
    if p.invoiceStatus == "voided" {
      assert HandleUnpaid(w, ref, data, config, p) == fetched.Perform(Acknowledge(ref));
    } else if p.invoiceStatus == "payment_due" && config.autovoidinvoice == "1" {
      var voided := fetched.Perform(VoidUnpaidInvoice(ref, data.userId));
      var other := VoidOther(data, p.voidResult.invoice);
      if p.voidResult.status == "voided" {
        var logged := voided.Perform(LogEvent(VoidInvoiceSuccessful, other));
        assert HandleUnpaid(w, ref, data, config, p) == logged.Perform(LogEvent(TransactionCompleted, CompletedOther(data)));
      } else {
        assert HandleUnpaid(w, ref, data, config, p) == voided.Perform(LogEvent(VoidInvoiceFailed, other));
      }
    } else {
      assert HandleUnpaid(w, ref, data, config, p) == fetched;
    }
  }

  /**
   * The transaction-successful event the task logs carries every key that event's data
   * validation requires, so the validation passes whatever the parent check allows.
   */
  lemma SuccessEventIsValid(data: TaskData, invoiceNumber: string, paymentId: nat, parent: Outcome<TransactionEvent.CodingException>)
    ensures TransactionEvent.ValidateData(parent, SuccessfulOther(data, invoiceNumber, paymentId)) == parent
  {
    var other := SuccessfulOther(data, invoiceNumber, paymentId);
    assert forall k :: k in TransactionEvent.RequiredKeys ==> IsSet(other, k) by {
      assert TransactionEvent.RequiredKeys == ["itemid", "component", "paymentid", "invoice"];
    }
  }

  /** After a run on a succeeded, paid page, the page's key is in the ledger. */
  lemma KeyRecordedAfterRun(w: World, data: TaskData, config: GatewayConfig, payable: Payable, p: Provider)
    requires data.remoteReference.Some? && p.page.state == StateSucceeded && p.page.invoice.status == "paid"
    requires StoresPageKey(p)
    ensures HasRecord(Finalise(w, data, config, payable, p).ledger, p.page.invoice.id, FirstTxnId(p.page.invoice))
  {
    var inv := p.page.invoice;
    if HasRecord(w.ledger, inv.id, FirstTxnId(inv)) {
      RecordedPageIsAcknowledged(w, data, config, payable, p);
    } else {
      PaidPageIsRecorded(w, data, config, payable, p);
      HasRecordAppend(w.ledger, RowFor(data.userId, |w.payments| + 1, p.details), inv.id, FirstTxnId(inv));
    }
  }

  /**
   * Idempotence, assuming `save_transaction_details` stores the page's own key: a second
   * run on the same succeeded, paid page only acknowledges it; no second record, payment
   * or delivery.
   */
  lemma RerunOnlyAcknowledges(w: World, data: TaskData, config: GatewayConfig, payable: Payable, p: Provider)
    requires data.remoteReference.Some? && p.page.state == StateSucceeded && p.page.invoice.status == "paid"
    requires StoresPageKey(p)
    ensures var once := Finalise(w, data, config, payable, p);
      var twice := Finalise(once, data, config, payable, p);
      var ref := data.remoteReference.value;
      twice.ledger == once.ledger && twice.payments == once.payments
      && twice.trace == once.trace + [FetchHostedPage(ref)] + [Acknowledge(ref)]
      && Deliveries(twice.trace) == Deliveries(once.trace)
  {
    KeyRecordedAfterRun(w, data, config, payable, p);
    RecordedPageIsAcknowledged(Finalise(w, data, config, payable, p), data, config, payable, p);
  }

  /** `n` consecutive runs of the task with the same inputs. */
  function RunTimes(n: nat, w: World, data: TaskData, config: GatewayConfig, payable: Payable, p: Provider): World {
    if n == 0 then w else Finalise(RunTimes(n - 1, w, data, config, payable, p), data, config, payable, p)
  }

  /**
   * Retrying the task any number of times on a succeeded, paid page records and delivers
   * no more than the first run did.
   */
  lemma {:induction false} RetriesRecordOnce(n: nat, w: World, data: TaskData, config: GatewayConfig, payable: Payable, p: Provider)
    requires n >= 1
    requires data.remoteReference.Some? && p.page.state == StateSucceeded && p.page.invoice.status == "paid"
    requires StoresPageKey(p)
    ensures var first := Finalise(w, data, config, payable, p);
      var last := RunTimes(n, w, data, config, payable, p);
      last.ledger == first.ledger && last.payments == first.payments
      && Deliveries(last.trace) == Deliveries(first.trace)
  {
    if n > 1 {
      RetriesRecordOnce(n - 1, w, data, config, payable, p);
      var prev := RunTimes(n - 1, w, data, config, payable, p);
      var first := Finalise(w, data, config, payable, p);
      var inv := p.page.invoice;
      KeyRecordedAfterRun(w, data, config, payable, p);
      assert prev.ledger == first.ledger;
      assert HasRecord(prev.ledger, inv.id, FirstTxnId(inv));
      RecordedPageIsAcknowledged(prev, data, config, payable, p);
      assert RunTimes(n, w, data, config, payable, p) == Finalise(prev, data, config, payable, p);
    }
  }

  /**
   * What one run can do to the tables: nothing, or add one payment, the ledger row that
   * refers to it, and one delivery.
   */
  lemma FinaliseShape(w: World, data: TaskData, config: GatewayConfig, payable: Payable, p: Provider)
    ensures var w' := Finalise(w, data, config, payable, p);
      (w'.ledger == w.ledger && w'.payments == w.payments && Deliveries(w'.trace) == Deliveries(w.trace))
      || (w'.payments == w.payments + [TaskPayment(data, payable)]
          && w'.ledger == w.ledger + [RowFor(data.userId, |w.payments| + 1, p.details)]
          && Deliveries(w'.trace) == Deliveries(w.trace) + 1)
  {
    var inv := p.page.invoice;
    if data.remoteReference.None? {
    } else if p.page.state != StateSucceeded {
      NotSucceededOnlyFetches(w, data, config, payable, p);
    } else if HasRecord(w.ledger, inv.id, FirstTxnId(inv)) {
      RecordedPageIsAcknowledged(w, data, config, payable, p);
    } else if inv.status == "paid" {
      PaidPageIsRecorded(w, data, config, payable, p);
    } else {
      UnpaidPageIsResolved(w, data, config, payable, p);
    }
  }

  /** One run of the task keeps the platform consistent. */
  lemma FinalisePreservesConsistency(w: World, data: TaskData, config: GatewayConfig, payable: Payable, p: Provider)
    requires Consistent(w)
    ensures Consistent(Finalise(w, data, config, payable, p))
  {
    FinaliseShape(w, data, config, payable, p);
  }
}
