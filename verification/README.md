# Refunds, journal bundle offers and the Spgateway processor

A Dafny model of three parts of an Open edX–style e-commerce service:

- **Refunds** (`ecommerce/extensions/refund/models.py`). A `Refund` and its
  `RefundLine`s carry statuses that move only along a configured status
  pipeline. Creating a refund covers the order lines that are not refunded yet.
  Approving one issues the credit and then revokes fulfilment. Denying one
  denies each line. The model keeps the source's classes and in-place
  status updates (`Refunds.Refund`, `Refunds.RefundLine`). The shared
  transition rule lives in `StatusPipeline`.
- **The journal bundle offer condition** (`ecommerce/journal/conditions.py`).
  The courses of a bundle are checked in order against a working set of
  basket SKUs. Each course must find one of its SKUs (a seat of an
  applicable type) among those earlier courses left, and it then removes
  all of its eligible SKUs, not just one. A basket of SKUs x and y
  therefore fails a bundle whose first course accepts x and y and whose
  second accepts only y. Every journal SKU must still be in the working set
  after all courses. The condition also lists the SKUs a bundle applies
  to, and the basket lines the discount may consume, sorted by unit price.
  `JournalBundles` holds the bundle descriptor and the set reasoning.
  `JournalCondition.JournalBundleCondition` is the condition object and its
  working SKU set.
- **The Spgateway payment processor**
  (`ecommerce/extensions/payment/processors/spgateway.py`).
  `SpgatewayRules` covers:
  - the merchant order number;
  - the item description;
  - the notify-URL rewrite;
  - the masked card number.

  `SpgatewayProcessor.Spgateway` builds the payment-page parameters. It
  checks and records the gateway's notification, and refunds through the
  credit-close call. Some failures record nothing:
  - an anonymous user;
  - a failed basket lookup;
  - a refund close call that raises.

  Each step that gets past them appends to the table of processor
  responses. That table is a sequence of rows, and looking a basket up by
  payment id reads it.

Money is in minor units (`int`). Statuses are datatypes. The Django
settings that hold the status pipelines and initial statuses are
parameters. Calls into code outside these files are parameters too:
- the bundle catalogue fetch, whose outcome (a bundle, a falsy answer or
  an exception) is a `Fetch`, for `is_satisfied` and for
  `get_applicable_skus` and the two methods that call it;
- the payment processor's credit and the fulfilment revocation, as
  `CreditOutcome` and `revoked`;
- the gateway SDK (`Sdk`) and the credit-close HTTP call.

Exceptions are the error sides of `Result`/`Outcome` values.

Where the code and its comments disagree, the model follows the code:
- `get_basket`'s docstring says it returns `None` on any unexpected error,
  but the handler re-raises. `ResolveBasket` returns `DoesNotExist` when no
  row matches.
- The journals of a bundle are looked up in the working SKU set that the
  course check has already reduced, not in the whole basket
  (`JournalCondition.SatisfiedIff`). A SKU that serves a course cannot also
  serve a journal.

## Model

| member | source | states |
|---|---|---|
| StatusPipeline.Transition | ecommerce/extensions/refund/models.py:33-53 | a transition succeeds exactly when the requested status is among the current status's pipeline successors, lands on the requested status, and otherwise raises InvalidStatus naming both statuses |
| Refunds.UnrefundedMembers | ecommerce/extensions/refund/models.py:90 | the lines kept for a refund are exactly the given order lines that have no refund lines yet |
| Refunds.ApproveSpec | ecommerce/extensions/refund/models.py:172-192 | approve returns true only when it leaves the refund COMPLETE; when InvalidStatus escapes, the refund stays in the status whose move was refused, and that move is not in the pipeline |
| Refunds.DenyStatus | ecommerce/extensions/refund/models.py:194-199 | a refund outside the initial status answers false and stays; one in it goes on to deny its lines exactly when the pipeline allows DENIED, and is then DENIED; otherwise InvalidStatus(status, DENIED) escapes and the status stays |
| Refunds.ApproveWhenClosed | ecommerce/extensions/refund/models.py:173-175 | a COMPLETE or DENIED refund cannot be approved: approve returns false and the status is unchanged |
| Refunds.ApprovePaymentFailure | ecommerce/extensions/refund/models.py:176-184 | a PaymentError while crediting an OPEN or PAYMENT_REFUND_ERROR refund moves it to PAYMENT_REFUND_ERROR and approve returns false; if the pipeline forbids that move, InvalidStatus escapes and the status stays |
| Refunds.ApproveAfterCredit | ecommerce/extensions/refund/models.py:164-192 | once the credit is issued on a pipeline that allows the moves, approve returns whether revocation succeeded and leaves the refund COMPLETE or REVOCATION_ERROR accordingly |
| Refunds.ApproveTrueIffComplete | ecommerce/extensions/refund/models.py:172-192 | approve returns true exactly when it leaves an approvable refund COMPLETE, and the refund's status only ever moves along the pipeline, at most two steps |
| Refunds.RefundLine.constructor | ecommerce/extensions/refund/models.py:110-118 | a new refund line holds the given credit, quantity, status and pipeline |
| Refunds.RefundLine.SetStatus | ecommerce/extensions/refund/models.py:38-53 | the line's status changes to the requested one exactly when the pipeline allows it; otherwise InvalidStatus names the refused move and the status stays |
| Refunds.RefundLine.Deny | ecommerce/extensions/refund/models.py:223-225 | a line becomes DENIED exactly when its pipeline allows that move from its current status |
| Refunds.Refund.constructor | ecommerce/extensions/refund/models.py:92-99 | a new refund is in the initial status, with the given total credit and no lines |
| Refunds.Refund.CanApprove | ecommerce/extensions/refund/models.py:133-136 | a refund that cannot be approved is left alone by approve, which returns false, whatever the credit and revocation outcomes; one that can is never answered with false and left unchanged when the credit is issued and revocation succeeds: the approval either moves the status or raises InvalidStatus |
| Refunds.Refund.CanDeny | ecommerce/extensions/refund/models.py:138-141 | a refund that cannot be denied is left alone by deny, which returns false; one that can either becomes DENIED or is refused by its pipeline with InvalidStatus, its status unchanged |
| Refunds.Refund.NumItems | ecommerce/extensions/refund/models.py:125-131 | the number of items is the sum of the lines' quantities |
| Refunds.Refund.SetStatus | ecommerce/extensions/refund/models.py:38-53 | the refund's status changes to the requested one exactly when the pipeline allows it; otherwise InvalidStatus names the refused move and the status stays |
| Refunds.Refund.RevokeLines | ecommerce/extensions/refund/models.py:164-170 | a successful revocation asks for COMPLETE and a failed one for REVOCATION_ERROR, subject to the pipeline |
| Refunds.Refund.Approve | ecommerce/extensions/refund/models.py:172-192 | the result and the new status are those of ApproveSpec, whose behaviour the Approve lemmas above pin down |
| Refunds.Refund.Deny | ecommerce/extensions/refund/models.py:194-209 | a refund not in the initial status is left alone and deny returns false; otherwise it becomes DENIED (or InvalidStatus escapes), each line becomes DENIED where its pipeline allows, and deny returns true exactly when every line could be denied; the refund's own part is DenyStatus, and its lines stay distinct |
| Refunds.CreateWithLines | ecommerce/extensions/refund/models.py:75-123 | no refund when every line was already refunded; otherwise a fresh refund whose total credit is the sum of the unrefunded lines' prices and equals the sum of its lines' credits, with one line per unrefunded order line copying its price and quantity, each in the initial line status; a zero-credit refund is approved at once, and creation fails exactly when that approval raises InvalidStatus |
| JournalBundles.ApplicableSkusMembers | ecommerce/journal/conditions.py:110-129 | a SKU is applicable exactly when the bundle exists and offers it as a seat of an applicable type in some course run, or as a journal |
| JournalBundles.ConsumeCoursesSucceedsIff | ecommerce/journal/conditions.py:27-58 | the course check passes exactly when every course meets the basket SKUs that earlier courses did not claim; when it passes, the working set left is the basket minus every course's eligible SKUs |
| JournalBundles.ConsumeCourses | ecommerce/journal/conditions.py:27-58 | the check fails only when there is a course to fail, and an empty working set passes only a bundle without courses |
| JournalBundles.ConsumeCoursesShrinks | ecommerce/journal/conditions.py:27-58 | the working set of basket SKUs only shrinks |
| JournalBundles.ConsumeCoursesCount | ecommerce/journal/conditions.py:27-58 | a passing basket gives each course at least one SKU of its own: the SKUs left plus the number of courses never exceed the basket's SKUs |
| JournalBundles.ConsumeCoursesMissingCourse | ecommerce/journal/conditions.py:41-50 | a course none of whose eligible SKUs is in the basket makes the check fail |
| JournalBundles.JournalsPresent | ecommerce/journal/conditions.py:61-76 | the journal check passes exactly when every journal's SKU is in the working set |
| JournalCondition.SatisfiedSpec | ecommerce/journal/conditions.py:79-107 | the working set left is part of the basket's SKUs; only a connection error escapes; a true result needs a fetched, non-falsy bundle |
| JournalCondition.SatisfiedIff | ecommerce/journal/conditions.py:79-107 | with a fetched bundle, the condition holds exactly when every course meets the SKUs left by earlier courses and every journal SKU is in the basket and not eligible for any course |
| JournalCondition.SatisfiedNeedsBundle | ecommerce/journal/conditions.py:91-101 | a not-found, client or timeout error, or a falsy bundle, gives false; a connection error escapes |
| JournalCondition.SatisfiedNeedsEveryJournal | ecommerce/journal/conditions.py:61-107 | a journal whose SKU is missing from the basket, or is also eligible for a course, makes the condition fail |
| JournalCondition.ApplicableTuplesMembers | ecommerce/journal/conditions.py:139-150 | a priced line is kept exactly when its line is in the basket, the condition applies to it, and its unit price is present and non-zero |
| JournalCondition.SortByPriceCorrect | ecommerce/journal/conditions.py:151 | sorting by price gives an ordered permutation of its input, descending for most-expensive-first and ascending otherwise |
| JournalCondition.MostExpensiveFirstExample | ecommerce/journal/conditions.py:139-151 | prices 10, 30, 20 come out as 30, 20, 10 |
| JournalCondition.JournalBundleCondition.constructor | ecommerce/journal/conditions.py:15-17 | a new condition has no working SKUs and no bundle |
| JournalCondition.JournalBundleCondition.BasketContainsAllRequiredCourses | ecommerce/journal/conditions.py:27-58 | the result and the reduced working set are those of ConsumeCourses, characterised by ConsumeCoursesSucceedsIff |
| JournalCondition.JournalBundleCondition.BasketContainsAllJournals | ecommerce/journal/conditions.py:61-76 | true exactly when every journal SKU of the bundle is in the working set |
| JournalCondition.JournalBundleCondition.IsSatisfied | ecommerce/journal/conditions.py:79-107 | the result, the escaping exception and the working set are those of SatisfiedSpec on the basket's SKUs; a fetched bundle is stored |
| JournalCondition.JournalBundleCondition.GetApplicableSkus | ecommerce/journal/conditions.py:110-129 | any exception from the fetch escapes; otherwise the collected SKUs are exactly those the fetched bundle offers, and none for a falsy answer |
| JournalCondition.JournalBundleCondition.BundleSkus | ecommerce/journal/conditions.py:117-127 | the seat and journal loops collect exactly the bundle's applicable SKUs |
| JournalCondition.JournalBundleCondition.CanApplyCondition | ecommerce/journal/conditions.py:131-137 | a line without a stock record does not qualify and triggers no fetch; for any other line an exception from the fetch escapes, and otherwise the line qualifies exactly when the bundle offers its SKU and its product is discountable |
| JournalCondition.JournalBundleCondition.GetApplicableLines | ecommerce/journal/conditions.py:139-151 | the fetch's exception escapes exactly when some line has a stock record; otherwise the result is sorted by price in the requested direction, is a permutation of the kept lines, and holds exactly the applicable basket lines with a non-zero unit price |
| SpgatewayRules.SanitizedChars | ecommerce/extensions/payment/processors/spgateway.py:35-41 | sanitising keeps the length and each character where it is a letter, digit or `_`, and turns every other character into `_` |
| SpgatewayRules.SanitizedIdempotent | ecommerce/extensions/payment/processors/spgateway.py:35-41 | sanitising a sanitised order number changes nothing |
| SpgatewayRules.GenerateOrderNo | ecommerce/extensions/payment/processors/spgateway.py:35-42 | the merchant order number is the sanitised order number, `_`, and the generated suffix, and it is exactly the maximum order length long when the generator honours the length it is given |
| SpgatewayRules.DecimalRoundTrip | ecommerce/extensions/payment/processors/spgateway.py:120 | a quantity is written as a non-empty run of digits that reads back as the same quantity |
| SpgatewayRules.ItemEntryQuantity | ecommerce/extensions/payment/processors/spgateway.py:120 | the digits at the head of an item entry read back as the line's quantity, whatever the title |
| SpgatewayRules.JoinLength | ecommerce/extensions/payment/processors/spgateway.py:121 | a joined string is as long as its parts plus one separator between each two |
| SpgatewayRules.BuildItemDescription | ecommerce/extensions/payment/processors/spgateway.py:118-121 | the description is the lines' entries in basket order joined by `", "`, of the corresponding length |
| SpgatewayRules.ReplaceAllAbsent | ecommerce/extensions/payment/processors/spgateway.py:115 | replacing a string that does not occur leaves the URL unchanged |
| SpgatewayRules.NotifyUrl | ecommerce/extensions/payment/processors/spgateway.py:113-115 | the notify URL never points at the local development address; a local one is moved to the placeholder host, and any other is kept |
| SpgatewayRules.NotifyUrlKeepsPath | ecommerce/extensions/payment/processors/spgateway.py:113-115 | a local notify URL whose path holds no second copy of the local prefix keeps its path and only changes its prefix (the rewrite replaces every copy) |
| SpgatewayRules.CardNumber | ecommerce/extensions/payment/processors/spgateway.py:220-230 | a card number ends with the last four card digits (or four stars), and a bank transfer ends with the payer's account code (or ten stars) |
| SpgatewayRules.CardNumberHidesMiddle | ecommerce/extensions/payment/processors/spgateway.py:220-230 | a card number shows six stars after its first digits; a bank account shows a dash and nine stars after the bank code; a convenience-store pickup shows ten stars |
| SpgatewayRules.CardNumberWithoutFields | ecommerce/extensions/payment/processors/spgateway.py:220-230 | without the optional fields: sixteen stars for a card, three stars, a dash and nineteen stars for a bank transfer, ten stars for a store code, and `None-None-None` for a barcode |
| SpgatewayProcessor.MatchingMembers | ecommerce/extensions/payment/processors/spgateway.py:88-97 | the rows looked at for a payment id are exactly this processor's rows under that id |
| SpgatewayProcessor.ResolveBasket | ecommerce/extensions/payment/processors/spgateway.py:72-107 | the lookup raises DoesNotExist exactly when no row matches, and reports a duplicate (None) exactly when several rows match and duplicates are not tolerated; a basket found is the oldest matching row's |
| SpgatewayProcessor.ResolveBasketFromRecord | ecommerce/extensions/payment/processors/spgateway.py:86-103 | a basket found for a payment id is the basket of a row this processor recorded under that id |
| SpgatewayProcessor.RecordedBasketResolves | ecommerce/extensions/payment/processors/spgateway.py:86-100 | when the id had no row before, both lookups find the recorded row's basket; otherwise the strict lookup reports a duplicate and the tolerant one still finds the id's first row's basket |
| SpgatewayProcessor.TradeInfoForBasket | ecommerce/extensions/payment/processors/spgateway.py:109-141 | the trade information asks for the basket total, under an order number that starts with the sanitised basket number and `_`, with a notify URL that is never local, and with one entry per line that carries that line's quantity |
| SpgatewayProcessor.HandleOutcome | ecommerce/extensions/payment/processors/spgateway.py:183-239 | handling a notification only appends to the response table, and an accepted notification has appended at least one row |
| SpgatewayProcessor.HandleOutcomeAccepts | ecommerce/extensions/payment/processors/spgateway.py:183-239 | without a basket the lookup's failure escapes; with one, the notification is accepted exactly when its amount is absent or equals the basket total, its payment type is known, and no credit-close call raises anything but GatewayError; a different amount raises GatewayError, such an exception from the close call escapes, and an accepted one reports the basket's total and currency, the trade number, the payment type and the masked card number |
| SpgatewayProcessor.HandleOutcomeRecords | ecommerce/extensions/payment/processors/spgateway.py:188-213 | the notification is recorded first, even when its amount is refused; a credit-card payment that passes, and whose close call answers, adds exactly the close result after it; the tolerant lookup then finds the id's first row's basket, which is this basket when the id had no row before or the basket was itself looked up |
| SpgatewayProcessor.HandleOutcomeIgnoresCreditClose | ecommerce/extensions/payment/processors/spgateway.py:202-213 | whatever the credit-close call returns, or a GatewayError it raises, the notification's outcome is the same, and any two answers leave tables of the same length |
| SpgatewayProcessor.IssueCreditOutcome | ecommerce/extensions/payment/processors/spgateway.py:241-256 | a refund appends at most one row, and a successful one returns the reference number after appending exactly one |
| SpgatewayProcessor.IssueCreditSucceedsIff | ecommerce/extensions/payment/processors/spgateway.py:241-256 | a close call that raises lets its exception escape and records nothing; an answer is recorded, and the refund succeeds exactly when it is SUCCESS, returning the reference number, and otherwise GatewayError carries the gateway's status and message; a reference number with no earlier row then leads back to the order's basket |
| SpgatewayProcessor.Spgateway.constructor | ecommerce/extensions/payment/processors/spgateway.py:56-67 | the processor keeps its site configuration and the response table |
| SpgatewayProcessor.Spgateway.RecordProcessorResponse | ecommerce/extensions/payment/processors/spgateway.py:166-170 | one row for this processor is appended and nothing else changes |
| SpgatewayProcessor.Spgateway.GetTransactionParameters | ecommerce/extensions/payment/processors/spgateway.py:109-172 | an anonymous user gets an error and nothing is recorded; otherwise the parameters are the encrypted and signed trade information for the basket, and that information is recorded under the generated order number; a number not used before then leads back to the basket, and a reused one is reported as a duplicate |
| SpgatewayProcessor.Spgateway.HandleProcessorResponse | ecommerce/extensions/payment/processors/spgateway.py:183-239 | the result and the new response table are those of HandleOutcome, characterised by the three HandleOutcome lemmas |
| SpgatewayProcessor.Spgateway.IssueCredit | ecommerce/extensions/payment/processors/spgateway.py:241-256 | the result and the new response table are those of IssueCreditOutcome, characterised by IssueCreditSucceedsIff |

## Left out

- Persistence: saving, history records and `objects.create` rows. A refund and its lines are objects held in memory, and the response table is a sequence.
- Logging, `audit_log` and the `post_refund` signal.
- `StatusMixin.__str__` and `Refund.all_statuses`: these only display an object or list the keys of the configured pipeline.
- The refund's order, user and currency fields are not modelled. They only feed logging and the processor call.
- `Refunds.Refund.Approve`: `_issue_credit` and `revoke_fulfillment_for_refund` are calls into other code, so their outcomes are parameters (`credit`, `revoked`):
  - a refund without a payment source counts as credited;
  - what revocation does to the refund lines is not modelled.
- `Refunds.Refund.Approve`: `InvalidStatus` is taken not to be a `PaymentError`, so an `InvalidStatus` raised while moving to PAYMENT_REFUNDED escapes instead of being caught. The exception hierarchy is not part of this model.
- `_issue_credit` calls `issue_credit(source, total, currency)` with three arguments (`ecommerce/extensions/refund/models.py:149`), while `Spgateway.issue_credit` takes four (`ecommerce/extensions/payment/processors/spgateway.py:241`). The base processor class is not part of this model, so the refund and the Spgateway credit are not linked.
- The `check_condition_applicability` decorator on `is_satisfied` is not part of this model.
- The condition's `name` property is not modelled: it only formats a display string.
- `JournalCondition.JournalBundleCondition.IsSatisfied`: requires every basket line to have a stock record. The source reads `line.stockrecord.partner_sku` unguarded, and a line without one fails with a Python error that is not modelled.
- `JournalCondition.JournalBundleCondition.GetApplicableLines`: through `can_apply_condition`, the source fetches the bundle again for every line. The model takes one fetch outcome for all lines, so a catalogue answer or failure that changes between lines is not captured.
- `JournalCondition.JournalBundleCondition.GetApplicableLines`: `oscar_utils.unit_price` is a call into other code, so it is an input on each line. The order of lines with equal prices (Python's sort is stable) is not stated.
- The Spgateway HTTP views and URL routing are outside this model.
- `get_basket`'s offer application (`strategy.Default()`, `Applicator().apply`) is not modelled. Any exception it would raise is not modelled either.
- The gateway SDK is a set of `Sdk` parameters:
  - trade-info dictionary building;
  - AES encryption and SHA signing;
  - the random suffix generator;
  - `MAX_ORDER_LEN` and `MPG_VERSION`;
  - `middle_truncate`;
  - Python's Unicode `isalpha`/`isdigit`, passed as a predicate.

  The recorded trade information holds only the fields the processor passes, not what the SDK adds.
- `SpgatewayProcessor.Spgateway.HandleProcessorResponse`: the credit-close call answers with a status and a message, or raises `GatewayError` or another exception. An answer without `Status` or `Message`, whose `KeyError` would escape, is not modelled.
- `SpgatewayProcessor.Spgateway.IssueCredit`: as for the handler, an answer of the credit-close call without `Status` or `Message` is not modelled.
- `SpgatewayProcessor.ResolveBasket`: the tolerant lookup of a duplicated payment id returns the oldest row's basket. This assumes that rows keep the order in which they were recorded, as primary keys do. `.first()` on a query without an ordering orders by primary key.
- `get_payment_id` is the `merchantOrderNo` field of `TradeResult`, and `_credit_close_execute` is the `creditClose` parameter.
- The `cancel_url` and `error_url` properties are not modelled. The absolute cancel URL is part of `Configuration`, and `error_url` is not used by the core.
- The constructor's `KeyError` on a missing configuration key is not modelled.
- The amount check compares integers. The source compares the gateway's amount with a `Decimal` basket total.
