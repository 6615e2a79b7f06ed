/**
 * The Sep payment gateway (base/third_party_api/sep.py): the tiered fee added
 * to an amount, the token request, the payment URL, the decision on an
 * untrusted callback, and the verification of a transaction, which refuses
 * any reference number already stored in the `SepPayment` table and writes a
 * reference number to that table at most once.
 *
 * HTTP is not performed: each call to the gateway receives its reply as an
 * input (`HttpReply`), and the clock, the date parser and the outcome of the
 * database insert are inputs too.
 */
module SepApi {
  import opened Wrappers
  import opened PyText
  import opened Payment

  /**
   * A JSON value as Python sees it after decoding; an array or an object keeps
   * only its number of entries, which is all that truthiness looks at.
   */
  datatype JsonValue = Null | Bool(b: bool) | Int(i: int) | Float(f: real) | Str(s: string) | Container(size: nat)

  /** Python truthiness of a decoded JSON value (`not v` is its negation). */
  predicate Truthy(v: JsonValue) {
    match v
    case Null => false
    case Bool(b) => b
    case Int(i) => i != 0
    case Float(f) => f != 0.0
    case Str(s) => s != ""
    case Container(n) => n != 0
  }

  /** Python's `v == n` for an int n: `True == 1` and `1.0 == 1` hold, `"1" == 1` does not. */
  predicate EqualsInt(v: JsonValue, n: int) {
    match v
    case Bool(b) => (if b then 1 else 0) == n
    case Int(i) => i == n
    case Float(f) => f == n as real
    case _ => false
  }

  /**
   * The outcome of one `requests.post`: a transport failure (connection error
   * or timeout), or a response with its status code, raw text and, when the
   * body is JSON, the fields read from it.
   */
  datatype HttpReply<B> = TransportError(message: string) | Response(statusCode: int, text: string, json: Option<B>)

  /** The fields of the token reply; a `None` is a key the body lacks. */
  datatype TokenReply = TokenReply(status: Option<JsonValue>, token: Option<JsonValue>)

  /** `TransactionDetail` of the verification reply. */
  datatype TransactionDetail = TransactionDetail(maskedPan: Option<string>, straceDate: Option<string>,
                                                 affectiveAmount: Option<JsonValue>)

  /** The fields of the verification reply. */
  datatype VerifyReply = VerifyReply(success: Option<JsonValue>, resultCode: Option<JsonValue>,
                                     detail: Option<TransactionDetail>)

  /** The untrusted fields of the gateway's callback. */
  datatype CallbackData = CallbackData(state: Option<string>, securePan: Option<string>,
                                       hashedCardNumber: Option<string>)

  const HTTP_OK := 200
  /** Asia/Tehran as the fixed offset +03:30, in seconds. */
  const TEHRAN_UTC_OFFSET := 12600
  /** Transactions older than this many seconds are not verified. */
  const FRESHNESS_WINDOW := 3600
  const MICROS_PER_SECOND := 1000000
  const PAYMENT_URL_PREFIX := "https://sep.shaparak.ir/OnlinePG/SendToken?token="

  // ---------------------------------------------------------------------------
  // _calcWage

  /**
   * The gateway fee in toman: 120 below 600,000, 0.02% of the amount up to
   * 20,000,000 (truncated; the amount is positive there), 4000 from then on.
   */
  function CalcWage(amountToman: int): (wage: int)
    ensures 120 <= wage <= 4000
    ensures amountToman < 600000 ==> wage == 120
    ensures 600000 <= amountToman < 20000000 ==>
              wage as real <= amountToman as real * 0.0002 < wage as real + 1.0
    ensures 20000000 <= amountToman ==> wage == 4000
  {
    if amountToman < 600000 then 120
    else if amountToman < 20000000 then
      var w := amountToman / 5000;
      assert w * 5000 <= amountToman < w * 5000 + 5000;
      assert (w * 5000) as real == w as real * 5000.0;
      w
    else 4000
  }

  /** A larger amount never pays a smaller fee. */
  lemma WageMonotone(a: int, b: int)
    requires a <= b
    ensures CalcWage(a) <= CalcWage(b)
  {
    if 600000 <= a && b < 20000000 {
      assert a / 5000 <= b / 5000;
    }
  }

  lemma WageExamples()
    ensures CalcWage(500000) == 120
    ensures CalcWage(600000) == 120
    ensures CalcWage(19999999) == 3999
    ensures CalcWage(50000000) == 4000
  {
  }

  // ---------------------------------------------------------------------------
  // getPaymentUrl

  /** The page the payer is sent to: the fixed gateway address followed by the token. */
  function PaymentUrl(token: string): (url: string)
    ensures |url| == |PAYMENT_URL_PREFIX| + |token|
    ensures url[..|PAYMENT_URL_PREFIX|] == PAYMENT_URL_PREFIX && url[|PAYMENT_URL_PREFIX|..] == token
  {
    PAYMENT_URL_PREFIX + token
  }

  /** Different tokens give different URLs: the token can be read back from the URL. */
  lemma PaymentUrlInjective(t1: string, t2: string)
    requires PaymentUrl(t1) == PaymentUrl(t2)
    ensures t1 == t2
  {
    assert t1 == PaymentUrl(t1)[|PAYMENT_URL_PREFIX|..];
  }

  // ---------------------------------------------------------------------------
  // verifyPayment: the checks on the gateway's reply

  /** HTTP 200, a JSON body, `Success` truthy and `ResultCode == 0`. */
  predicate ReplyReportsSuccess(reply: HttpReply<VerifyReply>) {
    && reply.Response? && reply.statusCode == HTTP_OK && reply.json.Some?
    && reply.json.value.success.Some? && Truthy(reply.json.value.success.value)
    && reply.json.value.resultCode.Some? && EqualsInt(reply.json.value.resultCode.value, 0)
  }

  /** A detail with a 16-character masked card and a date the parser accepts. */
  predicate DetailReadable(detail: Option<TransactionDetail>, parseLocalTime: string -> Option<int>) {
    && detail.Some?
    && detail.value.maskedPan.Some? && |detail.value.maskedPan.value| == MASKED_CARD_LENGTH
    && detail.value.straceDate.Some? && parseLocalTime(detail.value.straceDate.value).Some?
  }

  /** The payment time in UTC seconds: the gateway's Tehran wall-clock time minus +03:30. */
  function PaymentDateUtc(detail: TransactionDetail, parseLocalTime: string -> Option<int>): (utc: int)
    requires DetailReadable(Some(detail), parseLocalTime)
    ensures utc + TEHRAN_UTC_OFFSET == parseLocalTime(detail.straceDate.value).value
  {
    parseLocalTime(detail.straceDate.value).value - TEHRAN_UTC_OFFSET
  }

  /** At most an hour (3600 s, inclusive) has passed between the payment and now. */
  predicate IsFresh(nowMicros: int, paidAtUtc: int) {
    nowMicros - paidAtUtc * MICROS_PER_SECOND <= FRESHNESS_WINDOW * MICROS_PER_SECOND
  }

  lemma FreshnessBoundary(paidAtUtc: int)
    ensures IsFresh((paidAtUtc + 3600) * MICROS_PER_SECOND, paidAtUtc)
    ensures !IsFresh((paidAtUtc + 3600) * MICROS_PER_SECOND + 1, paidAtUtc)
  {
  }

  /** Everything the reply must satisfy before the reference number is stored. */
  predicate GatewayConfirms(reply: HttpReply<VerifyReply>, nowMicros: int,
                            parseLocalTime: string -> Option<int>)
  {
    && ReplyReportsSuccess(reply)
    && DetailReadable(reply.json.value.detail, parseLocalTime)
    && IsFresh(nowMicros, PaymentDateUtc(reply.json.value.detail.value, parseLocalTime))
  }

  /** A stale transaction is never confirmed, however valid the rest of the reply. */
  lemma StaleNeverConfirmed(reply: HttpReply<VerifyReply>, nowMicros: int,
                            parseLocalTime: string -> Option<int>)
    requires ReplyReportsSuccess(reply) && DetailReadable(reply.json.value.detail, parseLocalTime)
    requires !IsFresh(nowMicros, PaymentDateUtc(reply.json.value.detail.value, parseLocalTime))
    ensures !GatewayConfirms(reply, nowMicros, parseLocalTime)
  {
  }

  // ---------------------------------------------------------------------------
  // verifyPayment: the result built after the record is saved

  /** The outcome of Python code that may let a KeyError escape. */
  datatype PyOutcome<T> = Returned(value: T) | RaisedKeyError

  /**
   * Lines 223-242 as written: `detail["AffectiveAmount"]` is read outside the
   * try block, so a reply without that key raises KeyError to the caller,
   * after the record has been saved.
   */
  function ResultFromDetailAsWritten(detail: TransactionDetail): (r: PyOutcome<Option<VerifiedPaymentResult>>)
    requires detail.maskedPan.Some? && |detail.maskedPan.value| == MASKED_CARD_LENGTH
    ensures r.RaisedKeyError? <==> IsDigits(detail.maskedPan.value[..6]) && IsDigits(detail.maskedPan.value[12..])
                                   && detail.affectiveAmount.None?
  {
    var cardNumber := detail.maskedPan.value;
    var firstDigits := cardNumber[..6];
    var lastDigits := cardNumber[12..];
    if !IsDigits(firstDigits) || !IsDigits(lastDigits) then Returned(None)
    else if detail.affectiveAmount.None? then RaisedKeyError
    else if !detail.affectiveAmount.value.Int? then Returned(None)
    else Returned(Some(VerifiedPaymentResult(detail.affectiveAmount.value.i,
                                             MaskedCard(DigitsValue(firstDigits), DigitsValue(lastDigits)))))
  }

  /** A reply with a numeric card and no `AffectiveAmount` makes the code as written raise. */
  lemma MissingAmountRaises()
    ensures ResultFromDetailAsWritten(TransactionDetail(Some("6037991234561234"), Some("2024-01-01 10:00:00"), None))
         == RaisedKeyError
  {
    var pan := "6037991234561234";
    assert IsDigits(pan[..6]) && IsDigits(pan[12..]);
  }

  /**
   * The result as the surrounding handlers intend it: a missing amount is
   * refused like every other missing key. The payment carries the amount
   * and the two visible digit groups read as numbers.
   */
  function ResultFromDetail(detail: TransactionDetail): (r: Option<VerifiedPaymentResult>)
    requires detail.maskedPan.Some? && |detail.maskedPan.value| == MASKED_CARD_LENGTH
    ensures r.Some? <==> IsDigits(detail.maskedPan.value[..6]) && IsDigits(detail.maskedPan.value[12..])
                         && detail.affectiveAmount.Some? && detail.affectiveAmount.value.Int?
    ensures r.Some? ==> r.value.paidAmountRial == detail.affectiveAmount.value.i
    ensures r.Some? ==> r.value.cardNumber == MaskedCard(DigitsValue(detail.maskedPan.value[..6]),
                                                         DigitsValue(detail.maskedPan.value[12..]))
    ensures r.Some? ==> 0 <= r.value.cardNumber.firstDigits < 1000000 && 0 <= r.value.cardNumber.lastDigits < 10000
  {
    var cardNumber := detail.maskedPan.value;
    var firstDigits := cardNumber[..6];
    var lastDigits := cardNumber[12..];
    if !IsDigits(firstDigits) || !IsDigits(lastDigits) then None
    else if detail.affectiveAmount.None? || !detail.affectiveAmount.value.Int? then None
    else
      DigitsValueBound(firstDigits);
      DigitsValueBound(lastDigits);
      assert Pow10(|firstDigits|) == 1000000 && Pow10(|lastDigits|) == 10000;
      Some(VerifiedPaymentResult(detail.affectiveAmount.value.i,
                                 MaskedCard(DigitsValue(firstDigits), DigitsValue(lastDigits))))
  }

  /** The corrected result differs from the code as written only where the latter raises. */
  lemma ResultFromDetailAgrees(detail: TransactionDetail)
    requires detail.maskedPan.Some? && |detail.maskedPan.value| == MASKED_CARD_LENGTH
    ensures ResultFromDetailAsWritten(detail).Returned? ==> ResultFromDetailAsWritten(detail).value == ResultFromDetail(detail)
    ensures ResultFromDetailAsWritten(detail).RaisedKeyError? <==>
              ResultFromDetail(detail).None? && detail.affectiveAmount.None?
              && IsDigits(detail.maskedPan.value[..6]) && IsDigits(detail.maskedPan.value[12..])
  {
  }

  /** The digit groups of the result are the visible digits of the card: `str` of them restores the card's ends. */
  lemma ResultCardGroups(detail: TransactionDetail)
    requires detail.maskedPan.Some? && |detail.maskedPan.value| == MASKED_CARD_LENGTH
    requires ResultFromDetail(detail).Some?
    requires detail.maskedPan.value[0] != '0'
    ensures NatToString(ResultFromDetail(detail).value.cardNumber.firstDigits) == detail.maskedPan.value[..6]
  {
    NatToStringOfDigitsValue(detail.maskedPan.value[..6]);
  }

  /**
   * The result pins down both visible digit groups of the card, leading zeros
   * included: two replies with the same card groups in their results show the
   * same first six and last four characters.
   */
  lemma ResultIdentifiesCardEnds(d1: TransactionDetail, d2: TransactionDetail)
    requires d1.maskedPan.Some? && |d1.maskedPan.value| == MASKED_CARD_LENGTH
    requires d2.maskedPan.Some? && |d2.maskedPan.value| == MASKED_CARD_LENGTH
    requires ResultFromDetail(d1).Some? && ResultFromDetail(d2).Some?
    requires ResultFromDetail(d1).value.cardNumber == ResultFromDetail(d2).value.cardNumber
    ensures d1.maskedPan.value[..6] == d2.maskedPan.value[..6]
    ensures d1.maskedPan.value[12..] == d2.maskedPan.value[12..]
  {
    DigitsValueInjective(d1.maskedPan.value[..6], d2.maskedPan.value[..6]);
    DigitsValueInjective(d1.maskedPan.value[12..], d2.maskedPan.value[12..]);
  }

  // ---------------------------------------------------------------------------
  // inquiryPayment

  /** What `inquiryPayment` hands back: the decoded body, or a descriptor of the failure. */
  datatype Inquiry = ConnectionError(message: string) | HttpError(rawResult: string)
                   | NotJson(rawResult: string) | Parsed(body: VerifyReply)

  /** The read-only inquiry: no table lookup, no insert, never None. */
  function InquiryPayment(reply: HttpReply<VerifyReply>): (r: Inquiry)
    ensures r.ConnectionError? <==> reply.TransportError?
    ensures r.ConnectionError? ==> r.message == reply.message
    ensures r.HttpError? <==> reply.Response? && reply.statusCode != HTTP_OK
    ensures r.NotJson? <==> reply.Response? && reply.statusCode == HTTP_OK && reply.json.None?
    ensures r.Parsed? ==> reply.Response? && reply.json == Some(r.body)
    ensures (r.HttpError? || r.NotJson?) ==> r.rawResult == reply.text
  {
    match reply
    case TransportError(e) => ConnectionError(e)
    case Response(code, text, json) =>
      if code != HTTP_OK then HttpError(text)
      else match json
        case None => NotJson(text)
        case Some(body) => Parsed(body)
  }

  /** A reply that verification would accept is one the inquiry shows in full. */
  lemma InquiryShowsConfirmedReply(reply: HttpReply<VerifyReply>, nowMicros: int,
                                   parseLocalTime: string -> Option<int>)
    requires GatewayConfirms(reply, nowMicros, parseLocalTime)
    ensures InquiryPayment(reply) == Parsed(reply.json.value)
  {
  }

  // ---------------------------------------------------------------------------

  /**
   * Whether a token reply grants a token: HTTP 200, JSON, `status == 1` and a
   * `token` key that is not JSON null (a null token is Python's None, the same
   * value every failure returns).
   */
  predicate TokenGranted(reply: HttpReply<TokenReply>) {
    && reply.Response? && reply.statusCode == HTTP_OK && reply.json.Some?
    && reply.json.value.status.Some? && EqualsInt(reply.json.value.status.value, 1)
    && reply.json.value.token.Some? && !reply.json.value.token.value.Null?
  }

  class Sep {
    const terminalId: string
    const callbackUrl: string
    /** The `SepPayment` table: each stored refnum (unique) with its payment date in UTC seconds. */
    var payments: map<string, int>

    constructor (terminalId: string, callbackUrl: string, payments: map<string, int>)
      ensures this.terminalId == terminalId && this.callbackUrl == callbackUrl && this.payments == payments
    {
      this.terminalId := terminalId;
      this.callbackUrl := callbackUrl;
      this.payments := payments;
    }

    /**
     * Builds the token request (the fee-inclusive amount in rial, the mobile
     * with its leading zero only when one is given) and reads the token from
     * the gateway's reply.
     */
    method RequestPayment(orderId: string, amountToman: int, mobile: Option<int>, reply: HttpReply<TokenReply>)
      returns (data: map<string, JsonValue>, token: Option<JsonValue>)
      ensures data.Keys == {"action", "TerminalId", "Amount", "ResNum", "RedirectUrl"}
                           + (if mobile.Some? then {"CellNumber"} else {})
      ensures data["action"] == Str("token") && data["TerminalId"] == Str(terminalId)
      ensures data["ResNum"] == Str(orderId) && data["RedirectUrl"] == Str(callbackUrl)
      ensures data["Amount"] == Int((amountToman + CalcWage(amountToman)) * 10)
      ensures mobile.Some? ==> data["CellNumber"] == Str("0" + DecimalString(mobile.value))
      ensures token.Some? <==> TokenGranted(reply)
      ensures token.Some? ==> token == reply.json.value.token
    {
      var wage := CalcWage(amountToman);
      data := map["action" := Str("token"),
                  "TerminalId" := Str(terminalId),
                  "Amount" := Int((amountToman + wage) * 10),
                  "ResNum" := Str(orderId),
                  "RedirectUrl" := Str(callbackUrl)];
      if mobile.Some? {
        data := data["CellNumber" := Str("0" + DecimalString(mobile.value))];
      }

      if reply.TransportError? {
        return data, None;
      }
      if reply.statusCode != HTTP_OK {
        return data, None;
      }
      if reply.json.None? {
        return data, None;
      }
      var response := reply.json.value;
      if response.status.None? {
        return data, None;
      }
      if !EqualsInt(response.status.value, 1) {
        return data, None;
      }
      if response.token.None? || response.token.value.Null? {
        return data, None;
      }
      return data, response.token;
    }

    /**
     * Classifies an untrusted callback: a missing key is UNKNOWN, a state other
     * than "OK" is PAYMENTFAILED, and a non-empty allow-list that does not
     * account for the card is UNAUTHORIZEDCARD.
     */
    method IsPaymentVerifiable(callbackData: CallbackData, authorizedCards: seq<int>, sha256: string -> Digest)
      returns (status: PaymentStatus)
      ensures callbackData.state.None? ==> status == UNKNOWN
      ensures callbackData.state.Some? && callbackData.state.value != "OK" ==> status == PAYMENTFAILED
      ensures callbackData.state == Some("OK") && authorizedCards == [] ==> status == OK
      ensures callbackData.state == Some("OK") && authorizedCards != [] ==>
                status == (if callbackData.securePan.None? || callbackData.hashedCardNumber.None? then UNKNOWN
                           else if IsCardAuthorized(callbackData.securePan.value, callbackData.hashedCardNumber.value,
                                                    authorizedCards, sha256) then OK
                           else UNAUTHORIZEDCARD)
    {
      if callbackData.state.None? {
        return UNKNOWN;
      }
      if callbackData.state.value != "OK" {
        return PAYMENTFAILED;
      }
      if authorizedCards != [] {
        if callbackData.securePan.None? || callbackData.hashedCardNumber.None? {
          return UNKNOWN;
        }
        var authorized := CheckCardAuthorized(callbackData.securePan.value, callbackData.hashedCardNumber.value,
                                              authorizedCards, sha256);
        if !authorized {
          return UNAUTHORIZEDCARD;
        }
      }
      return OK;
    }

    /**
     * Verifies the transaction `trackId`. A refnum already in the table is
     * refused without asking the gateway. Otherwise the refnum is stored
     * exactly when the gateway confirms a fresh transaction and the insert
     * succeeds; only then can a result be returned, and it is returned unless
     * the card digits or the amount are malformed, in which case the record
     * stays although the result is None.
     */
    method VerifyPayment(trackId: string, reply: HttpReply<VerifyReply>, nowMicros: int,
                         parseLocalTime: string -> Option<int>, insertSucceeds: bool)
      returns (result: Option<VerifiedPaymentResult>)
      modifies this
      ensures trackId in old(payments) ==> result.None? && payments == old(payments)
      ensures var recorded := trackId !in old(payments) && GatewayConfirms(reply, nowMicros, parseLocalTime)
                              && insertSucceeds;
              && payments == (if recorded
                              then old(payments)[trackId := PaymentDateUtc(reply.json.value.detail.value, parseLocalTime)]
                              else old(payments))
              && (result.Some? ==> recorded)
              && (recorded ==> result == ResultFromDetail(reply.json.value.detail.value))
    {
      if trackId in payments {
        return None;
      }
      if reply.TransportError? {
        return None;
      }
      if reply.statusCode != HTTP_OK {
        return None;
      }
      if reply.json.None? {
        return None;
      }
      var response := reply.json.value;
      if response.success.None? || !Truthy(response.success.value) {
        return None;
      }
      if response.resultCode.None? || !EqualsInt(response.resultCode.value, 0) {
        return None;
      }
      if response.detail.None? {
        return None;
      }
      var detail := response.detail.value;
      if detail.maskedPan.None? || |detail.maskedPan.value| != MASKED_CARD_LENGTH {
        return None;
      }
      if detail.straceDate.None? {
        return None;
      }
      var paymentDate := parseLocalTime(detail.straceDate.value);
      if paymentDate.None? {
        return None;
      }
      var paymentDateUtc := paymentDate.value - TEHRAN_UTC_OFFSET;
      var timeSincePayment := nowMicros - paymentDateUtc * MICROS_PER_SECOND;
      if timeSincePayment > FRESHNESS_WINDOW * MICROS_PER_SECOND {
        return None;
      }

      if !insertSucceeds {
        return None;
      }
      payments := payments[trackId := paymentDateUtc];

      var cardNumber := detail.maskedPan.value;
      var firstDigits := cardNumber[..6];
      var lastDigits := cardNumber[12..];
      if !IsDigits(firstDigits) || !IsDigits(lastDigits) {
        return None;
      }
      if detail.affectiveAmount.None? || !detail.affectiveAmount.value.Int? {
        return None;
      }
      return ResultFromDetail(detail);
    }
  }

  /**
   * Two verifications of the same reference number, one after the other: the
   * second never yields a result once the first has, and the table gains at
   * most one entry.
   */
  method VerifyTwice(sep: Sep, trackId: string, first: HttpReply<VerifyReply>, second: HttpReply<VerifyReply>,
                     nowMicros: int, laterMicros: int, parseLocalTime: string -> Option<int>,
                     firstInsert: bool, secondInsert: bool)
    returns (r1: Option<VerifiedPaymentResult>, r2: Option<VerifiedPaymentResult>)
    modifies sep
    ensures r1.Some? ==> r2.None?
    ensures r2.Some? ==> r1.None? && trackId !in old(sep.payments)
    ensures sep.payments.Keys <= old(sep.payments).Keys + {trackId}
  {
    r1 := sep.VerifyPayment(trackId, first, nowMicros, parseLocalTime, firstInsert);
    r2 := sep.VerifyPayment(trackId, second, laterMicros, parseLocalTime, secondInsert);
  }
}
