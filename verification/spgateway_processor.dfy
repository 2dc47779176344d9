/** The Spgateway payment processor
    (ecommerce/extensions/payment/processors/spgateway.py): building the
    payment-page parameters, finding the basket a gateway notification is
    about, checking and recording the notification, and refunding through
    the gateway's credit-close call.

    The table of processor responses is a sequence of rows in insertion
    order; the gateway SDK (dictionary building, encryption, hashing, the
    credit-close HTTP call, the random suffix) is passed in as functions. */
module SpgatewayProcessor {
  import opened Wrappers
  import opened SpgatewayRules

  /** `Spgateway.NAME`, the processor name on every row it records. */
  const NAME := "spgateway"
  const SUCCESS := "SUCCESS"

  datatype Basket = Basket(id: nat, orderNumber: string, lines: seq<ItemLine>,
                           totalInclTax: int, currency: string)

  datatype User = User(isAuthenticated: bool, email: string)

  /** The trade information sent to the payment page. */
  datatype TradeInfo = TradeInfo(merchantId: string, merchantOrderNo: string, amt: int, itemDesc: string,
                                 email: string, returnUrl: string, notifyUrl: string, clientBackUrl: string)

  /** `response['TradeInfo']['Result']`: `Amt` may be absent; `details`
      holds the optional card, bank and barcode fields. */
  datatype TradeResult = TradeResult(merchantOrderNo: string, paymentType: string, amt: Option<int>,
                                     tradeNo: string, details: map<string, string>)

  /** The keyword arguments of a credit-close call. */
  datatype CloseRequest = CloseRequest(merchantOrderNo: Option<string>, tradeNo: Option<string>, amt: Option<int>,
                                       closeType: Option<int>, indexType: Option<int>)
  datatype CloseResult = CloseResult(status: string, message: string)

  /** An exception the credit-close call raises: a `GatewayError`, or any
      other exception. */
  datatype CloseError = CloseGatewayError(message: string) | CloseOtherError(message: string)

  /** What the credit-close call did: answered, or raised. */
  datatype CloseCall = Closed(result: CloseResult) | CloseRaised(error: CloseError)

  /** What a recorded row holds. */
  datatype Payload = SentTradeInfo(info: TradeInfo) | GatewayResult(result: TradeResult) | CreditClose(close: CloseResult)

  /** A `PaymentProcessorResponse` row. */
  datatype ProcessorResponse = ProcessorResponse(processorName: string, transactionId: string, basket: Basket, payload: Payload)

  datatype GatewayMessage = AmountMismatch(amt: int, total: int, basketId: nat) | CloseFailed(status: string, message: string)

  /** The exceptions the processor lets escape: `DoesNotExist` from the
      basket lookup, `GatewayError`, and the Python errors raised when the
      lookup gave no basket (`AttributeError` on `None`), when the user is
      anonymous (`email` unbound) and when the payment type is unknown
      (`card_number` unbound); and whatever the credit-close call raises
      where nothing catches it. */
  datatype Failure = DoesNotExist | MissingBasket | AnonymousUser | UnknownPaymentType(paymentType: string)
                   | GatewayError(message: GatewayMessage) | CloseCallFailed(error: CloseError)

  datatype Handled = Handled(transactionId: string, total: int, currency: string, cardNumber: string, cardType: string)

  datatype Parameters = Parameters(merchantId: string, tradeInfo: string, tradeSha: string, version: string,
                                   paymentPageUrl: string)

  /** The processor's site configuration; `cancelUrl` is the absolute
      cancel-checkout URL. */
  datatype Configuration = Configuration(merchantId: string, hashKey: string, hashIv: string,
                                         paymentPageUrl: string, cancelUrl: string)

  /** The absolute return and notify URLs of the site. */
  datatype Urls = Urls(returnUrl: string, notifyUrl: string)

  /** The gateway SDK and helpers the processor calls. `encryptInfo` stands
      for building the trade-info string from the dictionary and
      encrypting it. */
  datatype Sdk = Sdk(maxOrderLen: int, mpgVersion: string,
                     isAlphaOrDigit: char -> bool,
                     generateString: int -> string,
                     middleTruncate: (string, nat) -> string,
                     encryptInfo: (string, string, TradeInfo) -> string,
                     generateSha: (string, string, string) -> string)

  // ---------------------------------------------------------------------
  // Basket lookup

  predicate IsFor(row: ProcessorResponse, paymentId: string)
  {
    row.processorName == NAME && row.transactionId == paymentId
  }

  /** The rows of this processor for a payment id, oldest first. */
  function Matching(rows: seq<ProcessorResponse>, paymentId: string): seq<ProcessorResponse>
  {
    if rows == [] then []
    else
      var earlier := Matching(rows[..|rows| - 1], paymentId);
      if IsFor(rows[|rows| - 1], paymentId) then earlier + [rows[|rows| - 1]] else earlier
  }

  lemma {:induction false} MatchingMembers(rows: seq<ProcessorResponse>, paymentId: string)
    ensures forall row :: row in Matching(rows, paymentId) <==> row in rows && IsFor(row, paymentId)
  {
    if rows != [] {
      MatchingMembers(rows[..|rows| - 1], paymentId);
      assert rows == rows[..|rows| - 1] + [rows[|rows| - 1]];
    }
  }

  lemma MatchingSnoc(rows: seq<ProcessorResponse>, row: ProcessorResponse, paymentId: string)
    ensures Matching(rows + [row], paymentId)
         == if IsFor(row, paymentId) then Matching(rows, paymentId) + [row] else Matching(rows, paymentId)
  {
    assert (rows + [row])[..|rows|] == rows;
  }


  /** `get_basket` without the offer application: no row is
      `DoesNotExist` and one row gives its basket. Several rows are a
      duplicate payment id (`None`) unless duplicates are tolerated; then
      `.first()` of a query without an ordering, in primary-key order,
      gives the oldest row's basket. */
  function ResolveBasket(rows: seq<ProcessorResponse>, paymentId: string, ignoredMultiple: bool)
    : (r: Result<Option<Basket>, Failure>)
    ensures r.Err? <==> Matching(rows, paymentId) == []
    ensures r.Err? ==> r.error == DoesNotExist
    ensures r == Ok(None) <==> |Matching(rows, paymentId)| > 1 && !ignoredMultiple
    ensures r.Ok? && r.value.Some? ==> r.value.value == Matching(rows, paymentId)[0].basket
  {
    var m := Matching(rows, paymentId);
    if |m| == 0 then Err(DoesNotExist)
    else if |m| == 1 || ignoredMultiple then Ok(Some(m[0].basket))
    else Ok(None)
  }

  /** A basket found for a payment id is the basket of a row recorded by
      this processor under that id. */
  lemma ResolveBasketFromRecord(rows: seq<ProcessorResponse>, paymentId: string, ignoredMultiple: bool)
    requires ResolveBasket(rows, paymentId, ignoredMultiple).Ok?
    requires ResolveBasket(rows, paymentId, ignoredMultiple).value.Some?
    ensures exists row :: row in rows && IsFor(row, paymentId)
                          && row.basket == ResolveBasket(rows, paymentId, ignoredMultiple).value.value
  {
    MatchingMembers(rows, paymentId);
    var m := Matching(rows, paymentId);
    assert m[0] in m;
  }

  /** Recording the first row for a payment id makes both lookups find its
      basket. After that, the strict lookup reports a duplicate, and the
      tolerant one keeps finding the first row's basket. */
  lemma RecordedBasketResolves(rows: seq<ProcessorResponse>, paymentId: string, basket: Basket, payload: Payload)
    ensures var after := rows + [ProcessorResponse(NAME, paymentId, basket, payload)];
      && (Matching(rows, paymentId) == [] ==>
            && ResolveBasket(after, paymentId, false) == Ok(Some(basket))
            && ResolveBasket(after, paymentId, true) == Ok(Some(basket)))
      && (Matching(rows, paymentId) != [] ==>
            && ResolveBasket(after, paymentId, false) == Ok(None)
            && ResolveBasket(after, paymentId, true) == Ok(Some(Matching(rows, paymentId)[0].basket)))
  {
    MatchingSnoc(rows, ProcessorResponse(NAME, paymentId, basket, payload), paymentId);
  }

  /** A basket passed in by the caller is used as is; otherwise it is looked
      up strictly. */
  function Located(rows: seq<ProcessorResponse>, paymentId: string, basket: Option<Basket>)
    : Result<Option<Basket>, Failure>
  {
    if basket.Some? then Ok(basket) else ResolveBasket(rows, paymentId, false)
  }

  // ---------------------------------------------------------------------
  // Payment page parameters

  /** The trade information for a basket paid by `email`. */
  function TradeInfoFor(config: Configuration, sdk: Sdk, urls: Urls, basket: Basket, email: string): TradeInfo
  {
    TradeInfo(config.merchantId,
              Sanitized(basket.orderNumber, sdk.isAlphaOrDigit) + "_"
                + sdk.generateString(sdk.maxOrderLen - |basket.orderNumber| - 1),
              basket.totalInclTax,
              Join(", ", ItemEntries(basket.lines, sdk.middleTruncate)),
              email, urls.returnUrl, NotifyUrl(urls.notifyUrl), config.cancelUrl)
  }

  /** The trade information asks for the basket's total, under an order
      number that starts with the sanitised basket order number followed by
      `_`, never notifies the local development address, and describes
      every line by its quantity. */
  lemma TradeInfoForBasket(config: Configuration, sdk: Sdk, urls: Urls, basket: Basket, email: string)
    ensures var info := TradeInfoFor(config, sdk, urls, basket, email);
      && info.amt == basket.totalInclTax
      && |info.merchantOrderNo| > |basket.orderNumber|
      && info.merchantOrderNo[..|basket.orderNumber|] == Sanitized(basket.orderNumber, sdk.isAlphaOrDigit)
      && info.merchantOrderNo[|basket.orderNumber|] == '_'
      && !StartsWith(info.notifyUrl, LOCAL_NOTIFY_PREFIX)
      && (!StartsWith(urls.notifyUrl, LOCAL_NOTIFY_PREFIX) ==> info.notifyUrl == urls.notifyUrl)
    ensures forall k :: 0 <= k < |basket.lines| ==>
      DecimalValue(LeadingDigits(ItemEntries(basket.lines, sdk.middleTruncate)[k])) == basket.lines[k].quantity
  {
    SanitizedChars(basket.orderNumber, sdk.isAlphaOrDigit);
    forall k | 0 <= k < |basket.lines|
      ensures DecimalValue(LeadingDigits(ItemEntries(basket.lines, sdk.middleTruncate)[k])) == basket.lines[k].quantity
    {
      ItemEntryQuantity(basket.lines[k], sdk.middleTruncate);
    }
  }

  function ParametersFor(config: Configuration, sdk: Sdk, info: TradeInfo): Parameters
  {
    var encrypted := sdk.encryptInfo(config.hashKey, config.hashIv, info);
    Parameters(config.merchantId, encrypted, sdk.generateSha(config.hashKey, config.hashIv, encrypted),
               sdk.mpgVersion, config.paymentPageUrl)
  }

  // ---------------------------------------------------------------------
  // Gateway notification

  /** The close request after a credit-card payment: by merchant order
      number, for the amount the gateway reported. */
  function CloseRequestFor(response: TradeResult): CloseRequest
  {
    CloseRequest(Some(response.merchantOrderNo), None, response.amt, None, None)
  }

  /** A close-call exception that `handle_processor_response` does not catch. */
  predicate Escapes(call: CloseCall)
  {
    call.CloseRaised? && call.error.CloseOtherError?
  }

  /** The end of `handle_processor_response`: the masked card number and
      the handled response, once `closed` is the table. */
  function Settle(response: TradeResult, b: Basket, closed: seq<ProcessorResponse>)
    : (Result<Handled, Failure>, seq<ProcessorResponse>)
  {
    if !KnownPaymentType(response.paymentType) then (Err(UnknownPaymentType(response.paymentType)), closed)
    else
      (Ok(Handled(response.tradeNo, b.totalInclTax, b.currency,
                  CardNumber(response.paymentType, response.details), response.paymentType)), closed)
  }

  /** `handle_processor_response` on the table `rows`: the result and the
      table afterwards. The notification is recorded as soon as a basket is
      known, before the amount is checked. A credit-card payment is then
      closed. A close result is recorded whatever its status. A
      `GatewayError` from the call is swallowed; any other exception
      escapes. */
  function HandleOutcome(rows: seq<ProcessorResponse>, response: TradeResult, basket: Option<Basket>,
                         creditClose: CloseRequest -> CloseCall)
    : (r: (Result<Handled, Failure>, seq<ProcessorResponse>))
    ensures |r.1| >= |rows| && r.1[..|rows|] == rows
    ensures r.0.Ok? ==> |r.1| > |rows|
  {
    var paymentId := response.merchantOrderNo;
    var found := Located(rows, paymentId, basket);
    if found.Err? then (Err(found.error), rows)
    else if found.value.None? then (Err(MissingBasket), rows)
    else
      var b := found.value.value;
      var recorded := rows + [ProcessorResponse(NAME, paymentId, b, GatewayResult(response))];
      if response.amt.Some? && response.amt.value != b.totalInclTax then
        (Err(GatewayError(AmountMismatch(response.amt.value, b.totalInclTax, b.id))), recorded)
      else if response.paymentType != "CREDIT" then Settle(response, b, recorded)
      else
        match creditClose(CloseRequestFor(response))
        case Closed(result) => Settle(response, b, recorded + [ProcessorResponse(NAME, paymentId, b, CreditClose(result))])
        case CloseRaised(CloseGatewayError(_)) => Settle(response, b, recorded)
        case CloseRaised(e) => (Err(CloseCallFailed(e)), recorded)
  }

  /** Without a basket nothing is recorded and the lookup's failure
      escapes. With one, the notification is accepted exactly when:
      - its amount is absent or equals the basket total;
      - its payment type is known;
      - no close call raises an exception other than `GatewayError`.

      An accepted notification reports:
      - the basket's total (which then agrees with any amount the gateway
        sent) and currency;
      - the gateway's trade number;
      - the payment type and its masked card number. */
  lemma HandleOutcomeAccepts(rows: seq<ProcessorResponse>, response: TradeResult, basket: Option<Basket>,
                             creditClose: CloseRequest -> CloseCall)
    ensures var found := Located(rows, response.merchantOrderNo, basket);
      var (r, after) := HandleOutcome(rows, response, basket, creditClose);
      var call := creditClose(CloseRequestFor(response));
      && (found.Err? ==> r == Err(found.error) && after == rows)
      && (found == Ok(None) ==> r == Err(MissingBasket) && after == rows)
      && (found.Ok? && found.value.Some? ==>
            var b := found.value.value;
            var amountOk := response.amt.None? || response.amt.value == b.totalInclTax;
            && (r.Ok? <==> amountOk && KnownPaymentType(response.paymentType)
                           && !(response.paymentType == "CREDIT" && Escapes(call)))
            && (!amountOk ==> r == Err(GatewayError(AmountMismatch(response.amt.value, b.totalInclTax, b.id))))
            && (amountOk && response.paymentType == "CREDIT" && Escapes(call) ==> r == Err(CloseCallFailed(call.error)))
            && (amountOk && !KnownPaymentType(response.paymentType) ==>
                  r == Err(UnknownPaymentType(response.paymentType)))
            && (r.Ok? ==>
                  && r.value.total == b.totalInclTax
                  && (response.amt.Some? ==> r.value.total == response.amt.value)
                  && r.value.currency == b.currency
                  && r.value.transactionId == response.tradeNo
                  && r.value.cardType == response.paymentType
                  && r.value.cardNumber == CardNumber(response.paymentType, response.details)))
  {
  }

  /** The table after a notification whose basket is known. */
  lemma HandleOutcomeTable(rows: seq<ProcessorResponse>, response: TradeResult, basket: Option<Basket>,
                           creditClose: CloseRequest -> CloseCall)
    requires Located(rows, response.merchantOrderNo, basket).Ok?
    requires Located(rows, response.merchantOrderNo, basket).value.Some?
    ensures var b := Located(rows, response.merchantOrderNo, basket).value.value;
      var recorded := rows + [ProcessorResponse(NAME, response.merchantOrderNo, b, GatewayResult(response))];
      var call := creditClose(CloseRequestFor(response));
      HandleOutcome(rows, response, basket, creditClose).1
        == if (response.amt.None? || response.amt.value == b.totalInclTax) && response.paymentType == "CREDIT" && call.Closed?
           then recorded + [ProcessorResponse(NAME, response.merchantOrderNo, b, CreditClose(call.result))]
           else recorded
  {
  }

  /** With a basket, the notification is the first row recorded, even when
      the amount is then refused. A credit-card payment that passes the
      amount check, and whose close call answers, adds exactly the close
      result after it. The tolerant lookup then finds the payment id's
      first row. When the basket itself was looked up, that is this
      basket. */
  lemma HandleOutcomeRecords(rows: seq<ProcessorResponse>, response: TradeResult, basket: Option<Basket>,
                             creditClose: CloseRequest -> CloseCall)
    requires Located(rows, response.merchantOrderNo, basket).Ok?
    requires Located(rows, response.merchantOrderNo, basket).value.Some?
    ensures var b := Located(rows, response.merchantOrderNo, basket).value.value;
      var id := response.merchantOrderNo;
      var after := HandleOutcome(rows, response, basket, creditClose).1;
      var call := creditClose(CloseRequestFor(response));
      var amountOk := response.amt.None? || response.amt.value == b.totalInclTax;
      && |after| > |rows|
      && after[..|rows|] == rows
      && after[|rows|] == ProcessorResponse(NAME, id, b, GatewayResult(response))
      && (if amountOk && response.paymentType == "CREDIT" && call.Closed? then
            after == rows + [after[|rows|], ProcessorResponse(NAME, id, b, CreditClose(call.result))]
          else |after| == |rows| + 1)
      && ResolveBasket(after, id, true)
           == Ok(Some(if Matching(rows, id) == [] then b else Matching(rows, id)[0].basket))
      && (basket.None? ==> ResolveBasket(after, id, true) == Ok(Some(b)))
  {
    var b := Located(rows, response.merchantOrderNo, basket).value.value;
    var id := response.merchantOrderNo;
    var row := ProcessorResponse(NAME, id, b, GatewayResult(response));
    var recorded := rows + [row];
    var found := if Matching(rows, id) == [] then b else Matching(rows, id)[0].basket;
    RecordedBasketResolves(rows, id, b, GatewayResult(response));
    assert ResolveBasket(recorded, id, true) == Ok(Some(found));
    var call := creditClose(CloseRequestFor(response));
    var amountOk := response.amt.None? || response.amt.value == b.totalInclTax;
    var after := HandleOutcome(rows, response, basket, creditClose).1;
    HandleOutcomeTable(rows, response, basket, creditClose);
    if amountOk && response.paymentType == "CREDIT" && call.Closed? {
      var closeRow := ProcessorResponse(NAME, id, b, CreditClose(call.result));
      assert after == recorded + [closeRow];
      MatchingSnoc(rows, row, id);
      RecordedBasketResolves(recorded, id, b, CreditClose(call.result));
      assert Matching(recorded, id) != [] && Matching(recorded, id)[0].basket == found;
    } else {
      assert after == recorded;
    }
  }

  /** The gateway charges a card whether or not the close call succeeds:
      unless the call raises something other than `GatewayError`, the
      outcome does not depend on what it returns, and any two answers
      leave tables of the same length. */
  lemma HandleOutcomeIgnoresCreditClose(rows: seq<ProcessorResponse>, response: TradeResult, basket: Option<Basket>,
                                        f: CloseRequest -> CloseCall, g: CloseRequest -> CloseCall)
    ensures !Escapes(f(CloseRequestFor(response))) && !Escapes(g(CloseRequestFor(response))) ==>
      HandleOutcome(rows, response, basket, f).0 == HandleOutcome(rows, response, basket, g).0
    ensures f(CloseRequestFor(response)).Closed? && g(CloseRequestFor(response)).Closed? ==>
      |HandleOutcome(rows, response, basket, f).1| == |HandleOutcome(rows, response, basket, g).1|
  {
  }

  // ---------------------------------------------------------------------
  // Refund

  /** The close request of a refund: by trade number, for the refunded
      amount, with close type 2 (refund) and index type 2 (trade number). */
  function RefundCloseRequest(referenceNumber: string, amount: int): CloseRequest
  {
    CloseRequest(None, Some(referenceNumber), Some(amount), Some(2), Some(2))
  }

  /** `issue_credit` on the table `rows`. A refund close is requested; an
      exception from the call escapes before anything is recorded. An
      answer is recorded, and the refund succeeds only when the gateway
      says `SUCCESS`. */
  function IssueCreditOutcome(rows: seq<ProcessorResponse>, basket: Basket, referenceNumber: string, amount: int,
                              creditClose: CloseRequest -> CloseCall)
    : (r: (Result<string, Failure>, seq<ProcessorResponse>))
    ensures |rows| <= |r.1| <= |rows| + 1 && r.1[..|rows|] == rows
    ensures r.0.Ok? ==> r.0.value == referenceNumber && |r.1| == |rows| + 1
  {
    match creditClose(RefundCloseRequest(referenceNumber, amount))
    case CloseRaised(e) => (Err(CloseCallFailed(e)), rows)
    case Closed(result) =>
      var after := rows + [ProcessorResponse(NAME, referenceNumber, basket, CreditClose(result))];
      if result.status == SUCCESS then (Ok(referenceNumber), after)
      else (Err(GatewayError(CloseFailed(result.status, result.message))), after)
  }

  /** A refund whose close call raises lets the exception escape and
      records nothing. One whose call answers:
      - records that answer;
      - succeeds exactly when the answer is `SUCCESS`, returning the
        reference number;
      - otherwise raises a gateway error carrying the gateway's status and
        message.

      A reference number not seen before then leads back to the order's
      basket. */
  lemma IssueCreditSucceedsIff(rows: seq<ProcessorResponse>, basket: Basket, referenceNumber: string, amount: int,
                               creditClose: CloseRequest -> CloseCall)
    ensures var (r, after) := IssueCreditOutcome(rows, basket, referenceNumber, amount, creditClose);
      var call := creditClose(RefundCloseRequest(referenceNumber, amount));
      && (call.CloseRaised? ==> r == Err(CloseCallFailed(call.error)) && after == rows)
      && (call.Closed? ==>
            && after == rows + [ProcessorResponse(NAME, referenceNumber, basket, CreditClose(call.result))]
            && (r.Ok? <==> call.result.status == SUCCESS)
            && (r.Err? ==> r.error == GatewayError(CloseFailed(call.result.status, call.result.message)))
            && (Matching(rows, referenceNumber) == [] ==>
                  ResolveBasket(after, referenceNumber, false) == Ok(Some(basket))))
      && (r.Ok? ==> r.value == referenceNumber)
  {
    var call := creditClose(RefundCloseRequest(referenceNumber, amount));
    if call.Closed? {
      RecordedBasketResolves(rows, referenceNumber, basket, CreditClose(call.result));
    }
  }

  // ---------------------------------------------------------------------
  // The processor

  class Spgateway {
    const configuration: Configuration
    /** The shared table of processor responses, oldest first. */
    var responses: seq<ProcessorResponse>

    constructor (configuration: Configuration, responses: seq<ProcessorResponse>)
      ensures this.configuration == configuration && this.responses == responses
    {
      this.configuration := configuration;
      this.responses := responses;
    }

    /** Appends one row for this processor. */
    method RecordProcessorResponse(payload: Payload, transactionId: string, basket: Basket)
      modifies this`responses
      ensures responses == old(responses) + [ProcessorResponse(NAME, transactionId, basket, payload)]
    {
      responses := responses + [ProcessorResponse(NAME, transactionId, basket, payload)];
    }

    /** `get_transaction_parameters`: the signed, encrypted trade information
      for the payment page. The trade information is recorded under the
      generated order number. When that number is new, the notification's
      strict lookup finds the basket; when it was used before, the lookup
      reports a duplicate. */
    method GetTransactionParameters(basket: Basket, user: User, urls: Urls, sdk: Sdk)
      returns (r: Result<Parameters, Failure>)
      modifies this`responses
      ensures r.Ok? <==> user.isAuthenticated
      ensures !user.isAuthenticated ==> r == Err(AnonymousUser) && responses == old(responses)
      ensures user.isAuthenticated ==>
        var info := TradeInfoFor(configuration, sdk, urls, basket, user.email);
        && r.value == ParametersFor(configuration, sdk, info)
        && responses == old(responses) + [ProcessorResponse(NAME, info.merchantOrderNo, basket, SentTradeInfo(info))]
        && (Matching(old(responses), info.merchantOrderNo) == [] ==>
              ResolveBasket(responses, info.merchantOrderNo, false) == Ok(Some(basket)))
        && (Matching(old(responses), info.merchantOrderNo) != [] ==>
              ResolveBasket(responses, info.merchantOrderNo, false) == Ok(None))
    {
      var notifyUrl := urls.notifyUrl;
      if StartsWith(notifyUrl, LOCAL_NOTIFY_PREFIX) {
        notifyUrl := ReplaceAll(notifyUrl, LOCAL_NOTIFY_PREFIX, PLACEHOLDER_NOTIFY_PREFIX);
      }
      var merchantOrderNo := GenerateOrderNo(basket.orderNumber, sdk.maxOrderLen, sdk.isAlphaOrDigit, sdk.generateString);
      var itemDesc := BuildItemDescription(basket.lines, sdk.middleTruncate);
      if !user.isAuthenticated {
        return Err(AnonymousUser);
      }
      var info := TradeInfo(configuration.merchantId, merchantOrderNo, basket.totalInclTax, itemDesc, user.email,
                            urls.returnUrl, notifyUrl, configuration.cancelUrl);
      assert info == TradeInfoFor(configuration, sdk, urls, basket, user.email);
      var encrypted := sdk.encryptInfo(configuration.hashKey, configuration.hashIv, info);
      var tradeSha := sdk.generateSha(configuration.hashKey, configuration.hashIv, encrypted);
      r := Ok(Parameters(configuration.merchantId, encrypted, tradeSha, sdk.mpgVersion, configuration.paymentPageUrl));
      RecordProcessorResponse(SentTradeInfo(info), merchantOrderNo, basket);
      RecordedBasketResolves(old(responses), merchantOrderNo, basket, SentTradeInfo(info));
    }

    /** `handle_processor_response`, as specified by `HandleOutcome`. */
    method HandleProcessorResponse(response: TradeResult, basket: Option<Basket>,
                                   creditClose: CloseRequest -> CloseCall)
      returns (r: Result<Handled, Failure>)
      modifies this`responses
      ensures (r, responses) == HandleOutcome(old(responses), response, basket, creditClose)
    {
      var paymentId := response.merchantOrderNo;
      var b: Basket;
      if basket.Some? {
        b := basket.value;
      } else {
        var found := ResolveBasket(responses, paymentId, false);
        if found.Err? {
          return Err(found.error);
        }
        if found.value.None? {
          return Err(MissingBasket);
        }
        b := found.value.value;
      }
      RecordProcessorResponse(GatewayResult(response), paymentId, b);
      if response.amt.Some? && response.amt.value != b.totalInclTax {
        return Err(GatewayError(AmountMismatch(response.amt.value, b.totalInclTax, b.id)));
      }
      if response.paymentType == "CREDIT" {
        var call := creditClose(CloseRequestFor(response));
        match call
        case Closed(result) =>
          RecordProcessorResponse(CreditClose(result), paymentId, b);
        case CloseRaised(CloseGatewayError(_)) =>
        case CloseRaised(e) =>
          return Err(CloseCallFailed(e));
      }
      if !KnownPaymentType(response.paymentType) {
        return Err(UnknownPaymentType(response.paymentType));
      }
      var cardNumber := CardNumber(response.paymentType, response.details);
      r := Ok(Handled(response.tradeNo, b.totalInclTax, b.currency, cardNumber, response.paymentType));
    }

    /** `issue_credit` for an order whose basket is `basket`, as specified by
      `IssueCreditOutcome`. */
    method IssueCredit(basket: Basket, referenceNumber: string, amount: int,
                       creditClose: CloseRequest -> CloseCall)
      returns (r: Result<string, Failure>)
      modifies this`responses
      ensures (r, responses) == IssueCreditOutcome(old(responses), basket, referenceNumber, amount, creditClose)
    {
      var call := creditClose(RefundCloseRequest(referenceNumber, amount));
      if call.CloseRaised? {
        return Err(CloseCallFailed(call.error));
      }
      RecordProcessorResponse(CreditClose(call.result), referenceNumber, basket);
      if call.result.status == SUCCESS {
        r := Ok(referenceNumber);
      } else {
        r := Err(GatewayError(CloseFailed(call.result.status, call.result.message)));
      }
    }
  }
}
