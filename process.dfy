/**
 * The synchronous return-from-checkout path: the user comes back from the hosted page
 * with its id and a client-reported state; a verified success saves the payment, records
 * the transaction, delivers the order and redirects to the success page.
 */
module Process {
  import opened Common
  import opened Platform
  import FinaliseTransaction

  /** The request parameters of the return page. */
  datatype Request = Request(id: string, state: string, component: string, paymentArea: string, itemId: int)

  /** Where the user is sent. */
  datatype Url = SiteRoot | CourseUrl(courseId: int) | PaymentSuccessUrl(component: string, paymentArea: string, itemId: int)

  /** The notification shown after the redirect. */
  datatype Message = PaymentSuccessful | PaymentMismatch | PaymentCancelled

  datatype Redirect = Redirect(url: Url, message: Message)

  /**
   * What the host and the provider answer during the request: the value of the helper's
   * `STATUS_SUCCEEDED`, the result of `verify_transaction`, what `save_transaction_details`
   * reads back, whether the payment helper has `get_success_url`, and the course id the
   * fee enrolment instance `itemId` belongs to (absent when there is none).
   */
  datatype Host = Host(statusSucceeded: string, verified: bool, details: Details,
                       hasSuccessUrl: bool, enrolCourseId: Option<int>)

  /** PHP's `empty()` on the course id read from the database: missing or zero. */
  predicate EmptyCourseId(c: Option<int>) {
    c.None? || c.value == 0
  }

  /**
   * The success redirect target: the payment helper's success URL when it exists, else
   * the course of a fee enrolment when one is found, else the site root.
   */
  function SuccessTarget(req: Request, host: Host): (u: Url)
    ensures host.hasSuccessUrl ==> u == PaymentSuccessUrl(req.component, req.paymentArea, req.itemId)
    ensures !host.hasSuccessUrl && req.component == "enrol_fee" && req.paymentArea == "fee" && !EmptyCourseId(host.enrolCourseId)
            ==> u == CourseUrl(host.enrolCourseId.value)
    ensures !host.hasSuccessUrl && !(req.component == "enrol_fee" && req.paymentArea == "fee" && !EmptyCourseId(host.enrolCourseId))
            ==> u == SiteRoot
  {
    if host.hasSuccessUrl then PaymentSuccessUrl(req.component, req.paymentArea, req.itemId)
    else if req.component == "enrol_fee" && req.paymentArea == "fee" then
      if !EmptyCourseId(host.enrolCourseId) then CourseUrl(host.enrolCourseId.value) else SiteRoot
    else SiteRoot
  }

  /** The payment the return page saves, for the logged-in user. */
  function ReturnPayment(req: Request, userId: int, payable: Payable): Payment {
    PaymentFor(payable, req.component, req.paymentArea, req.itemId, userId)
  }

  /** The state after the request and the redirect that ends it. */
  function ProcessReturn(w: World, req: Request, userId: int, payable: Payable, host: Host): (World, Redirect) {
    if req.state == host.statusSucceeded then
      var verifying := w.Perform(VerifyTransaction(req.id, userId, payable.cost, payable.currency));
      if host.verified then
        var paymentId := verifying.NextPaymentId();
        var done := verifying
          .Perform(SavePayment(ReturnPayment(req, userId, payable)))
          .Perform(SaveTransactionDetails(req.id, userId, paymentId, host.details))
          .Perform(DeliverOrder(req.component, req.paymentArea, req.itemId, paymentId, userId));
        (done, Redirect(SuccessTarget(req, host), PaymentSuccessful))
      else
        (verifying, Redirect(SiteRoot, PaymentMismatch))
    else
      (w, Redirect(SiteRoot, PaymentCancelled))
  }

  /** The return page, run against the platform's mutable state. */
  method HandleReturn(site: Site, req: Request, userId: int, payable: Payable, host: Host)
    returns (r: Redirect)
    modifies site
    ensures (site.State(), r) == ProcessReturn(old(site.State()), req, userId, payable, host)
  {
    if req.state == host.statusSucceeded {
      var cost := payable.cost;
      site.Call(VerifyTransaction(req.id, userId, cost, payable.currency));
      if host.verified {
        var paymentId := site.SavePayment(ReturnPayment(req, userId, payable));
        var _ := site.SaveTransactionDetails(req.id, userId, paymentId, host.details);
        site.Call(DeliverOrder(req.component, req.paymentArea, req.itemId, paymentId, userId));
        var url := SiteRoot;
        if host.hasSuccessUrl {
          url := PaymentSuccessUrl(req.component, req.paymentArea, req.itemId);
        } else if req.component == "enrol_fee" && req.paymentArea == "fee" {
          var courseId := host.enrolCourseId;
          if !EmptyCourseId(courseId) {
            url := CourseUrl(courseId.value);
          }
        }
        return Redirect(url, PaymentSuccessful);
      }
      return Redirect(SiteRoot, PaymentMismatch);
    }
    return Redirect(SiteRoot, PaymentCancelled);
  }

  /** A client-reported state other than succeeded changes nothing and reports a cancellation. */
  lemma NotSucceededCancels(w: World, req: Request, userId: int, payable: Payable, host: Host)
    requires req.state != host.statusSucceeded
    ensures ProcessReturn(w, req, userId, payable, host) == (w, Redirect(SiteRoot, PaymentCancelled))
  {
  }

  /** A failed verification saves and delivers nothing and reports a mismatch. */
  lemma MismatchSavesNothing(w: World, req: Request, userId: int, payable: Payable, host: Host)
    requires req.state == host.statusSucceeded && !host.verified
    ensures var (w', r) := ProcessReturn(w, req, userId, payable, host);
      w'.ledger == w.ledger && w'.payments == w.payments
      && w'.trace == w.trace + [VerifyTransaction(req.id, userId, payable.cost, payable.currency)]
      && Deliveries(w'.trace) == Deliveries(w.trace)
      && r == Redirect(SiteRoot, PaymentMismatch)
  {
  }

  /**
   * A verified success: verify, save payment, record transaction, deliver order, each
   * once and in that order, then the success redirect. The payment saved carries the
   * same cost and currency that were verified.
   */
  lemma VerifiedReturnDelivers(w: World, req: Request, userId: int, payable: Payable, host: Host)
    requires req.state == host.statusSucceeded && host.verified
    ensures var (w', r) := ProcessReturn(w, req, userId, payable, host);
      var id := |w.payments| + 1;
      var verify := VerifyTransaction(req.id, userId, payable.cost, payable.currency);
      var payment := ReturnPayment(req, userId, payable);
      w'.trace == w.trace
        + [verify]
        + [SavePayment(payment)]
        + [SaveTransactionDetails(req.id, userId, id, host.details)]
        + [DeliverOrder(req.component, req.paymentArea, req.itemId, id, userId)]
      && payment.amount == verify.cost && payment.currency == verify.currency
      && w'.payments == w.payments + [payment]
      && w'.ledger == w.ledger + [RowFor(userId, id, host.details)]
      && Deliveries(w'.trace) == Deliveries(w.trace) + 1
      && r == Redirect(SuccessTarget(req, host), PaymentSuccessful)
  {
    var verifying := w.Perform(VerifyTransaction(req.id, userId, payable.cost, payable.currency));
    assert verifying.ledger == w.ledger && verifying.payments == w.payments;
  }

  /** The return page keeps the platform consistent. */
  lemma ProcessPreservesConsistency(w: World, req: Request, userId: int, payable: Payable, host: Host)
    requires Consistent(w)
    ensures Consistent(ProcessReturn(w, req, userId, payable, host).0)
  {
    var w' := ProcessReturn(w, req, userId, payable, host).0;
    if req.state == host.statusSucceeded && host.verified {
      VerifiedReturnDelivers(w, req, userId, payable, host);
      assert w'.ledger == w.ledger + [RowFor(userId, |w.payments| + 1, host.details)];
      assert |w'.payments| == |w.payments| + 1;
    } else if req.state == host.statusSucceeded {
      MismatchSavesNothing(w, req, userId, payable, host);
    }
  }

  /**
   * The return page, then the task on the same succeeded, paid page: when the row the
   * return page stores carries the page's key, the task only acknowledges, and the order
   * stays delivered once.
   */
  lemma TaskAfterReturnOnlyAcknowledges(
    w: World, req: Request, userId: int, payable: Payable, host: Host,
    data: FinaliseTransaction.TaskData, config: FinaliseTransaction.GatewayConfig, p: FinaliseTransaction.Provider)
    requires req.state == host.statusSucceeded && host.verified
    requires data.remoteReference.Some? && p.page.state == FinaliseTransaction.StateSucceeded
    requires host.details.invoiceNumber == p.page.invoice.id
    requires host.details.transactionId == FinaliseTransaction.FirstTxnId(p.page.invoice)
    ensures var afterReturn := ProcessReturn(w, req, userId, payable, host).0;
      var afterTask := FinaliseTransaction.Finalise(afterReturn, data, config, payable, p);
      afterTask.ledger == afterReturn.ledger && afterTask.payments == afterReturn.payments
      && Deliveries(afterTask.trace) == Deliveries(w.trace) + 1
  {
    VerifiedReturnDelivers(w, req, userId, payable, host);
    var afterReturn := ProcessReturn(w, req, userId, payable, host).0;
    HasRecordAppend(w.ledger, RowFor(userId, |w.payments| + 1, host.details), p.page.invoice.id, FinaliseTransaction.FirstTxnId(p.page.invoice));
    FinaliseTransaction.RecordedPageIsAcknowledged(afterReturn, data, config, payable, p);
  }

  /**
   * The task first, then the return page: the return page does not consult the ledger,
   * so when `verify_transaction` still accepts the page, the payment is saved and the
   * order delivered a second time.
   */
  lemma ReturnAfterTaskDeliversAgain(
    w: World, req: Request, userId: int, payable: Payable, host: Host,
    data: FinaliseTransaction.TaskData, config: FinaliseTransaction.GatewayConfig, p: FinaliseTransaction.Provider)
    requires req.state == host.statusSucceeded && host.verified
    requires data.remoteReference.Some? && p.page.state == FinaliseTransaction.StateSucceeded
    requires p.page.invoice.status == "paid"
    requires !HasRecord(w.ledger, p.page.invoice.id, FinaliseTransaction.FirstTxnId(p.page.invoice))
    ensures var afterTask := FinaliseTransaction.Finalise(w, data, config, payable, p);
      var afterReturn := ProcessReturn(afterTask, req, userId, payable, host).0;
      |afterReturn.ledger| == |w.ledger| + 2 && |afterReturn.payments| == |w.payments| + 2
      && Deliveries(afterReturn.trace) == Deliveries(w.trace) + 2
  {
    FinaliseTransaction.PaidPageIsRecorded(w, data, config, payable, p);
    VerifiedReturnDelivers(FinaliseTransaction.Finalise(w, data, config, payable, p), req, userId, payable, host);
  }
}
