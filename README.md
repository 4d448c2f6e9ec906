# Chargebee payment gateway for Moodle: a verified model of its reconciliation core

This project models the core of the `paygw_chargebee` plugin. The plugin lets a Moodle site charge users through Chargebee's hosted checkout pages. It then reconciles what Chargebee reports with Moodle's payment records. The model covers five parts.

- **The deferred reconciliation task** (`FinaliseTransaction`). It starts from a stored hosted-page reference and reads the page state from the provider. For a succeeded page it then does one of three things:
  - acknowledges the page when the gateway's transaction table already holds the page's (invoice number, transaction id);
  - records the payment and delivers the order when the invoice is paid;
  - otherwise re-fetches the invoice, then acknowledges the page, voids the invoice, or leaves it alone.
- **The return page** (`Process`). The user comes back from checkout. If the page reports success and the transaction verifies, it saves the payment, records the transaction, delivers the order and redirects. Otherwise the redirect reports a mismatch or a cancellation.
- **The gateway class** (`Gateway`): the currency tables and the check on the configuration form.
- **The `transaction_successful` event** (`TransactionEvent`): its initialisation, its URL and its data validation.
- **The class autoloader** for the bundled HTTP library (`Autoload`).

The platform is modelled in `Platform` as a value `World` with three parts:
- the gateway's transaction table (the *ledger*);
- Moodle's generic payment table;
- the *trace*: every provider call and every write to the host (payment, ledger row, delivery, event), in order. The host's reads (`get_gateway_configuration`, `get_payable`, `get_gateway_surcharge`, `get_rounded_cost`, `record_exists`, `get_field`, `get_success_url`) are not traced: they are inputs or reads of the state.

Three views are computed from the trace: `Deliveries` (how many orders were delivered), `Acknowledged` (the references acknowledged) and `Logged` (the kinds of event logged). `Platform.Site` is the same state as a mutable object. The two imperative entry points, `FinaliseTransaction.Execute` and `Process.HandleReturn`, run against a `Site`. Each is proved equal to a specification function, `Finalise` and `ProcessReturn` respectively, and the lemmas are stated about those functions.

The provider and the host are not modelled, so what they answer is an input to the model:
- `Provider` holds the hosted page, the re-fetched invoice status, the result of voiding, and what `save_transaction_details` reads back.
- `Host` holds the helper's `STATUS_SUCCEEDED` value, the result of `verify_transaction`, what `save_transaction_details` reads back, whether `get_success_url` exists, and the course of a fee enrolment.

The PHP semantics the code relies on are written out:
- `empty()` on a string is true for `""` and `"0"`;
- `isset` means the key is present and its value is not `null`;
- `linked_payments[0].txn_id` is `null` when the invoice has no linked payment;
- a `switch` with no `default` does nothing for an unmatched state.

Two properties of the code that bear on double recording:
- **Ledger key.** The task looks ledger rows up by (invoice number, transaction id). Its own code checks `record_exists` on that pair and then calls `save_transaction_details`; whether that call inserts atomically is not visible, since the helper's method bodies are not part of this model.
- **Return page.** The return page never reads the ledger. `Process.TaskAfterReturnOnlyAcknowledges` proves that the task after the return page records nothing more, when the row the return page stores carries the page's key. `Process.ReturnAfterTaskDeliversAgain` proves that the return page after the task saves and delivers a second time whenever `verify_transaction` still accepts the page. Whether it does depends on the helper's internals, which are not part of this model.

## Model

| member | source | states |
|---|---|---|
| FinaliseTransaction.Execute | classes/task/finalise_transaction.php:43-193 | Running the task on the platform leaves exactly the state `Finalise` describes: the same calls in the same order, and the same tables. |
| FinaliseTransaction.NoReferenceDoesNothing | classes/task/finalise_transaction.php:50-52 | Without a `remotereference`, nothing is fetched, saved, acknowledged or logged. |
| FinaliseTransaction.NotSucceededOnlyFetches | classes/task/finalise_transaction.php:67-192 | For an acknowledged page (with or without a matching record), a requested page, or a state no `case` matches, the page is only fetched. Ledger, payments and deliveries are unchanged. |
| FinaliseTransaction.RecordedPageIsAcknowledged | classes/task/finalise_transaction.php:84-93 | For a succeeded page whose (invoice id, first txn id) is in the ledger, the reference is acknowledged exactly once. No payment or row is saved, nothing is delivered and no event is logged. |
| FinaliseTransaction.PaidPageIsRecorded | classes/task/finalise_transaction.php:94-136 | For a succeeded, unrecorded, paid page, the effects are save payment, record transaction, deliver order, transaction successful, transaction completed, in that order. The payment carries the payable's cost and currency, and the new row refers to the new payment id. |
| FinaliseTransaction.RecordPaymentEffects | classes/task/finalise_transaction.php:63-136 | Fetching the page and recording its paid invoice performs fetch, save payment, record transaction, deliver order and the two events in that order. It adds one payment and the row for its id, and delivers exactly once. |
| FinaliseTransaction.SavedCostIgnoresInvoice | classes/task/finalise_transaction.php:97-110 | The outcome does not depend on the invoice's amount or currency: the saved cost comes from the payable and its surcharge. |
| FinaliseTransaction.UnpaidPageIsResolved | classes/task/finalise_transaction.php:140-184 | For an unpaid invoice, it is re-fetched and then: if voided, acknowledged only; if due with auto-void `'1'`, voided and then logged as void success plus completed, or void failed only; otherwise nothing more. Ledger, payments and deliveries never change. |
| FinaliseTransaction.HandleUnpaidEffects | classes/task/finalise_transaction.php:140-184 | After the invoice is re-fetched: acknowledged only when voided; voided and then logged as void success plus completed, or void failed only, when due with auto-void on; nothing more otherwise. Nothing is saved or delivered. |
| FinaliseTransaction.SuccessEventIsValid | classes/task/finalise_transaction.php:119-127 | The transaction-successful event the task logs carries every key the event's `validate_data` requires, so validation passes whenever the parent check does. |
| FinaliseTransaction.KeyRecordedAfterRun | classes/task/finalise_transaction.php:84-113 | Assuming the inserted row carries the page's invoice id and txn id: after a run on a succeeded, paid page, the page's key is in the ledger. |
| FinaliseTransaction.RerunOnlyAcknowledges | classes/task/finalise_transaction.php:84-94 | Idempotence under the same assumption. A second run on the same succeeded, paid page only fetches and acknowledges. No new row, payment or delivery. |
| FinaliseTransaction.RetriesRecordOnce | classes/task/finalise_transaction.php:84-113 | Under the same assumption, any number of runs leaves the tables and the delivery count as the first run left them. |
| FinaliseTransaction.FinaliseShape | classes/task/finalise_transaction.php:67-192 | One run either leaves both tables and the delivery count alone, or appends the task's payment to the payment table, appends the one row referring to it, and delivers once. |
| FinaliseTransaction.FinalisePreservesConsistency | classes/task/finalise_transaction.php:101-115 | A run keeps one row and one delivery per saved payment, with row i referring to payment id i + 1. |
| FinaliseTransaction.Finalise | classes/task/finalise_transaction.php:43-193 | The state after one run of `execute`. It has no contract of its own; `Execute` is proved equal to it, and `NoReferenceDoesNothing`, `NotSucceededOnlyFetches`, `RecordedPageIsAcknowledged`, `PaidPageIsRecorded`, `UnpaidPageIsResolved`, `FinaliseShape`, `FinalisePreservesConsistency` and the idempotence lemmas state what it does. |
| FinaliseTransaction.RecordPayment | classes/task/finalise_transaction.php:94-136 | The recording branch. It has no contract of its own; `RecordPaymentEffects` and `PaidPageIsRecorded` state its ordered effects, its payment and its row. |
| FinaliseTransaction.HandleUnpaid | classes/task/finalise_transaction.php:140-184 | The unpaid-invoice branch. It has no contract of its own; `HandleUnpaidEffects` and `UnpaidPageIsResolved` state the trace of each status and that no table changes. |
| Process.HandleReturn | process.php:43-83 | The return page leaves the state, and returns the redirect, that `ProcessReturn` describes. |
| Process.ProcessReturn | process.php:43-83 | The state and redirect of the return page. It has no contract of its own; `HandleReturn` is proved equal to it, and `NotSucceededCancels`, `MismatchSavesNothing`, `VerifiedReturnDelivers`, `ProcessPreservesConsistency`, `TaskAfterReturnOnlyAcknowledges` and `ReturnAfterTaskDeliversAgain` state what it does. |
| Process.SuccessTarget | process.php:68-77 | The success URL is `get_success_url` when that method exists. Otherwise it is the course when the component is `enrol_fee`, the area is `fee` and a non-empty course id is found. Otherwise it is the site root. |
| Process.NotSucceededCancels | process.php:43-83 | A state other than `STATUS_SUCCEEDED` changes nothing and redirects to the site root with the cancellation message. |
| Process.MismatchSavesNothing | process.php:49-80 | A failed verification saves and delivers nothing and redirects with the mismatch message. |
| Process.VerifiedReturnDelivers | process.php:49-78 | A verified success performs verify, save payment, record transaction and deliver order, each once and in that order, then the success redirect. The saved cost and currency are the verified ones. |
| Process.ProcessPreservesConsistency | process.php:51-65 | The return page keeps the same consistency as the task. |
| Process.TaskAfterReturnOnlyAcknowledges | process.php:51-65 | If the row the return page inserts carries the page's key, the task run afterwards on the succeeded page records nothing. The order stays delivered once. |
| Process.ReturnAfterTaskDeliversAgain | process.php:49-65 | The return page does not read the ledger. After the task has recorded a paid page, a verified return saves a second payment and delivers a second time. |
| Platform.World.Perform | classes/task/finalise_transaction.php:101-115 | A call is appended to the trace. The two saves also add their row, and the delivery, acknowledgement and event views grow by exactly that call. |
| Platform.HasRecord | classes/task/finalise_transaction.php:84-88 | `record_exists` on (invoice number, transaction id). It has no contract of its own; `HasRecordMeans` and `HasRecordAppend` state what it means and how an insert changes it. |
| Platform.HasRecordMeans | classes/task/finalise_transaction.php:84-88 | `record_exists` on (invoice number, transaction id) holds exactly when some ledger row carries both values. |
| Platform.HasRecordAppend | classes/task/finalise_transaction.php:84-113 | After a row is inserted, a key is found exactly when it was found before or the new row carries it. |
| Platform.Site.SavePayment | classes/task/finalise_transaction.php:101-110 | `save_payment` stores the payment and returns the next id. |
| Platform.Site.SaveTransactionDetails | classes/task/finalise_transaction.php:113 | `save_transaction_details` inserts the row for the payment id and returns its invoice number. |
| Platform.Site.Call | classes/task/finalise_transaction.php:115 | A call with no local table effect (fetch, verify, deliver, acknowledge, void, log) only extends the trace. |
| Gateway.SupportedCurrencies | classes/gateway.php:45-56 | The supported-currency list, in published order, has 119 entries. |
| Gateway.ZeroDecimalCurrencies | classes/gateway.php:65-69 | The zero-decimal list has six entries, and its set is exactly {CLP, JPY, KRW, VND, XAF, XOF}. |
| Gateway.ZeroDecimalAreSupported | classes/gateway.php:45-69 | Every zero-decimal currency is a supported currency. |
| Gateway.ValidateGatewayForm | classes/gateway.php:102-107 | `errors['enabled']` is set to `gatewaycannotbeenabled` exactly when the gateway is enabled and the API key or site name is empty. No other key is written, and otherwise `errors` is unchanged. |
| Gateway.EnabledNeedsBothCredentials | classes/gateway.php:104-106 | An enabled gateway is rejected if and only if one of the two credentials is empty. |
| Gateway.PrefixIsNeverRequired | classes/gateway.php:104-105 | The customer-id prefix has no influence on the validation. |
| TransactionEvent.TransactionSuccessful.Init | classes/event/transaction_successful.php:38-41 | `crud` becomes `'c'` and `edulevel` becomes `LEVEL_OTHER`; the other fields stay. |
| TransactionEvent.GetUrl | classes/event/transaction_successful.php:66-72 | The URL is absent if and only if `courseid < 1`. Otherwise it is `/course/view.php` with `id = courseid`. |
| TransactionEvent.ValidateData | classes/event/transaction_successful.php:80-94 | Validation passes if and only if the parent passes and `itemid`, `component`, `paymentid` and `invoice` are all set. A parent failure propagates. Otherwise the exception names the first missing key in that order. |
| TransactionEvent.FirstMissingKeyIsReported | classes/event/transaction_successful.php:82-93 | With two keys missing, the error does not name the one checked later. |
| TransactionEvent.MessageNamesKey | classes/event/transaction_successful.php:82-93 | Different keys give different exception messages. |
| Autoload.LoadClass | externallib/autoload.php:35-55 | The closure requires exactly the computed file for the `GuzzleHttp` entry, when the name maps and the file exists, and nothing else. |
| Autoload.RequiredFiles | externallib/autoload.php:40-53 | Every file loaded by the map entries exists. |
| Autoload.Segments | externallib/autoload.php:40-47 | The underscore split is used when its first piece is the namespace. Otherwise the backslash split is used when its first piece is. There are no segments exactly when neither first piece matches. |
| Autoload.Explode | externallib/autoload.php:41 | `explode` gives at least one piece, and exactly one when the separator does not occur. |
| Autoload.Implode | externallib/autoload.php:49 | PHP `implode`: no pieces give `""`; otherwise the result starts with the first piece and ends with the last. `ImplodeExplode` and `ExplodeRoundTrip` relate it to `Explode`. |
| Autoload.ClassFile | externallib/autoload.php:40-49 | There is no file exactly when neither the underscore split nor the backslash split starts with the namespace. Otherwise the path starts with dir + `/` + the namespace and ends with `.php`; `UnderscorePath` and `BackslashPath` give it exactly. |
| Autoload.ImplodeExplode | externallib/autoload.php:41-49 | Joining the pieces of a split with `/` is the name with every separator replaced by `/`. |
| Autoload.ExplodeRoundTrip | externallib/autoload.php:41-49 | Splitting and joining with the same separator gives back the name. |
| Autoload.ExplodeHead | externallib/autoload.php:41-42 | The first piece is the text before the first separator. |
| Autoload.FirstPieceIs | externallib/autoload.php:42-44 | The first piece is the namespace exactly when the name is the namespace, or starts with it followed by the separator. |
| Autoload.UnderscorePath | externallib/autoload.php:41-49 | A name whose underscore split starts with `GuzzleHttp` maps to dir + `/` + the name with `_` made `/` + `.php`. |
| Autoload.BackslashPath | externallib/autoload.php:43-49 | Otherwise, a name whose backslash split starts with `GuzzleHttp` maps to dir + `/` + the name with `\` made `/` + `.php`. |
| Autoload.MappedNames | externallib/autoload.php:40-47 | A name is mapped exactly when it is `GuzzleHttp` or starts with `GuzzleHttp_` or `GuzzleHttp\`. |

## Left out

- `pay.php`: checkout creation through the SDK, with its float amount `cost * 100` and hard-coded test customer data. It is outside the reconciliation core.
- Zero-decimal conversion: the code has none, since `pay.php` always multiplies by 100. So no encode/decode round trip is claimed; only the two tables are modelled.
- `classes/chargebee_helper.php`: its methods are not declared. `get_hosted_page`, `get_invoice`, `void_unpaid_invoice`, `verify_transaction`, `STATE_*` and `STATUS_SUCCEEDED` are inputs.
  - `save_transaction_details` is modelled as inserting one row built from the provider's answers, and returning its invoice number.
  - The constructor ignores the `customeridprefix` argument its callers pass; the model never uses it.
- `log_event`, `deliver_order` and `HostedPage::acknowledge` appear only as entries in the trace. What they do inside the host platform and the SDK is not modelled.
- FinaliseTransaction.Finalise: the hosted page is assumed to always carry an invoice. The case where `content['invoice']` is missing, which PHP reads as `null`, is not modelled.
- FinaliseTransaction.Finalise: `autovoidinvoice == '1'` is PHP's loose comparison. The model compares strings exactly, so numeric spellings such as `"1.0"` or `"01"` are not treated as on.
- FinaliseTransaction.Finalise: exceptions are not modelled. This covers the provider calls and the host calls `get_payable`, `save_payment` and `deliver_order`, whose exceptions propagate to the task runner. Every run is taken to go to the end.
- Process.ProcessReturn: exceptions are not modelled. This covers `required_param`, `verify_transaction`, `save_transaction_details`, `get_payable`, `save_payment` and `deliver_order`. Every request is taken to go to the end.
- FinaliseTransaction.FinalisePreservesConsistency: holds only for a run that goes to the end. A throw between `save_payment` and `save_transaction_details` leaves a payment with no row and no delivery, and the model does not capture that state.
- FinaliseTransaction.RetriesRecordOnce: holds only for runs that go to the end. If a run throws after `save_payment` but before `save_transaction_details`, the runner's retry finds no record and saves a second payment; the model does not capture that case.
- Process.ProcessPreservesConsistency: holds only for a request that goes to the end. A throw after `save_payment` leaves a payment with no row and no delivery.
- FinaliseTransaction.KeyRecordedAfterRun, FinaliseTransaction.RerunOnlyAcknowledges, FinaliseTransaction.RetriesRecordOnce, Process.TaskAfterReturnOnlyAcknowledges: these hold under the assumption that the stored row carries the page's key (`StoresPageKey`, or for the return page `host.details` carrying the page's invoice id and first txn id), because what `save_transaction_details` stores is not visible here. Without it the task saves a second payment.
- `get_rounded_cost` and `get_gateway_surcharge`: the rounded cost is an input (`Payable.cost`); the rounding itself is float arithmetic.
- `mtrace` output, `get_string` lookups, `moodle_url` and `course_get_url` construction, and the `redirect` call are not modelled. A redirect is a value carrying its target and its message.
- Payment ids are assumed to be the next row number of the payment table (auto-increment).
- Concurrency: the race between the return page and the task is not modelled. Only the two sequential orders are proved.
- Gateway.SupportedCurrencies: states only the length. Distinctness and the three-letter code shape of each entry are not stated, because proving them over the 119-entry literal is too costly for the verifier.
- Gateway.ValidateGatewayForm: the by-reference `$errors` array is a parameter, and the updated array is the result. `$data->enabled` is read as a string with PHP truthiness (`""` and `"0"` are false).
- `gateway::add_configuration_to_gateway_form`, `get_name`, `get_description` and the context files (privacy provider, upgrade script, language strings): these are form construction, localisation and schema code with no reconciliation logic.
- Autoload.LoadClass: the `file_exists` check is a set of existing paths. The loaded files are returned as a list. `require_once`'s load-once behaviour and the four unconditional `require_once` lines before the closure are not modelled.
