/** The pure rules of the Spgateway payment processor
    (ecommerce/extensions/payment/processors/spgateway.py): the merchant
    order number, the item description and notify URL sent to the gateway,
    and the masked card number shown for each payment type.

    Python's Unicode `isalpha()`/`isdigit()`, the vendor's random string
    generator and `middle_truncate` are not visible here; they are passed in
    as functions. The generator is asked for `maxOrderLen - len - 1`
    characters, which is negative for an over-long order number; what it
    returns then is up to it. */
module SpgatewayRules {

  // ---------------------------------------------------------------------
  // Merchant order number

  /** `each.isalpha() or each.isdigit() or each == '_'`, else `_`. */
  function SafeChar(c: char, isAlphaOrDigit: char -> bool): char
  {
    if isAlphaOrDigit(c) || c == '_' then c else '_'
  }

  /** The order number with every character that is not a letter, a digit
      or `_` replaced by `_`. */
  function Sanitized(s: string, isAlphaOrDigit: char -> bool): string
  {
    if s == [] then [] else Sanitized(s[..|s| - 1], isAlphaOrDigit) + [SafeChar(s[|s| - 1], isAlphaOrDigit)]
  }

  /** Sanitising keeps the length and replaces each character on its own:
      allowed characters stay, every other one becomes `_`. */
  lemma {:induction false} SanitizedChars(s: string, isAlphaOrDigit: char -> bool)
    ensures |Sanitized(s, isAlphaOrDigit)| == |s|
    ensures forall i :: 0 <= i < |s| ==> Sanitized(s, isAlphaOrDigit)[i] == SafeChar(s[i], isAlphaOrDigit)
    ensures forall i :: 0 <= i < |s| ==>
      isAlphaOrDigit(Sanitized(s, isAlphaOrDigit)[i]) || Sanitized(s, isAlphaOrDigit)[i] == '_'
  {
    if s != [] {
      SanitizedChars(s[..|s| - 1], isAlphaOrDigit);
    }
  }

  /** Sanitising a sanitised order number changes nothing. */
  lemma SanitizedIdempotent(s: string, isAlphaOrDigit: char -> bool)
    ensures Sanitized(Sanitized(s, isAlphaOrDigit), isAlphaOrDigit) == Sanitized(s, isAlphaOrDigit)
  {
    var t := Sanitized(s, isAlphaOrDigit);
    SanitizedChars(s, isAlphaOrDigit);
    SanitizedChars(t, isAlphaOrDigit);
  }

  /** `generate_order_no`: the sanitised order number, `_`, and a generated
      suffix of the length that brings the whole to `maxOrderLen`. */
  method GenerateOrderNo(orderNumber: string, maxOrderLen: int,
                         isAlphaOrDigit: char -> bool, generateString: int -> string)
    returns (r: string)
    ensures r == Sanitized(orderNumber, isAlphaOrDigit) + "_" + generateString(maxOrderLen - |orderNumber| - 1)
    ensures |r| == |orderNumber| + 1 + |generateString(maxOrderLen - |orderNumber| - 1)|
    ensures r[|orderNumber|] == '_'
    ensures forall i :: 0 <= i < |orderNumber| ==> r[i] == SafeChar(orderNumber[i], isAlphaOrDigit)
    ensures |generateString(maxOrderLen - |orderNumber| - 1)| == maxOrderLen - |orderNumber| - 1 ==> |r| == maxOrderLen
  {
    var resultStr := "";
    for i := 0 to |orderNumber|
      invariant resultStr == Sanitized(orderNumber[..i], isAlphaOrDigit)
    {
      assert orderNumber[..i + 1][..i] == orderNumber[..i];
      var each := orderNumber[i];
      if isAlphaOrDigit(each) || each == '_' {
        resultStr := resultStr + [each];
      } else {
        resultStr := resultStr + "_";
      }
    }
    assert orderNumber[..|orderNumber|] == orderNumber;
    SanitizedChars(orderNumber, isAlphaOrDigit);
    r := resultStr + "_" + generateString(maxOrderLen - |resultStr| - 1);
  }

  // ---------------------------------------------------------------------
  // Item description

  predicate IsDigit(c: char)
  {
    '0' <= c <= '9'
  }

  function DigitChar(d: nat): (c: char)
    requires d < 10
    ensures IsDigit(c)
  {
    ('0' as int + d) as char
  }

  /** `str(n)` for a non-negative integer. */
  function DecimalString(n: nat): string
    decreases n
  {
    if n < 10 then [DigitChar(n)] else DecimalString(n / 10) + [DigitChar(n % 10)]
  }

  /** The number a string of decimal digits denotes. */
  function DecimalValue(s: string): nat
    requires forall i :: 0 <= i < |s| ==> IsDigit(s[i])
  {
    if s == [] then 0
    else
      assert IsDigit(s[|s| - 1]);
      DecimalValue(s[..|s| - 1]) * 10 + (s[|s| - 1] as int - '0' as int)
  }

  /** Rendering a quantity gives a non-empty string of digits that reads
      back as the same quantity. */
  lemma {:induction false} DecimalRoundTrip(n: nat)
    ensures |DecimalString(n)| > 0
    ensures forall i :: 0 <= i < |DecimalString(n)| ==> IsDigit(DecimalString(n)[i])
    ensures DecimalValue(DecimalString(n)) == n
  {
    if n >= 10 {
      DecimalRoundTrip(n / 10);
      var s := DecimalString(n);
      assert s[..|s| - 1] == DecimalString(n / 10);
    }
  }

  /** The longest prefix made of digits. */
  function LeadingDigits(s: string): (r: string)
    ensures forall i :: 0 <= i < |r| ==> IsDigit(r[i])
  {
    if s == [] || !IsDigit(s[0]) then [] else [s[0]] + LeadingDigits(s[1..])
  }

  lemma {:induction false} LeadingDigitsOf(d: string, rest: string)
    requires forall i :: 0 <= i < |d| ==> IsDigit(d[i])
    requires rest == [] || !IsDigit(rest[0])
    ensures LeadingDigits(d + rest) == d
  {
    if d != [] {
      LeadingDigitsOf(d[1..], rest);
      assert (d + rest)[1..] == d[1..] + rest;
    }
  }

  /** The title length `middle_truncate` is asked for. */
  const TITLE_LIMIT: nat := 127

  datatype ItemLine = ItemLine(quantity: nat, title: string)

  /** `'{}x{}'.format(line.quantity, middle_truncate(line.product.title, 127))`. */
  function ItemEntry(line: ItemLine, middleTruncate: (string, nat) -> string): string
  {
    DecimalString(line.quantity) + "x" + middleTruncate(line.title, TITLE_LIMIT)
  }

  /** Each entry starts with the line's quantity: the digits before its
      first `x` read back as that quantity, whatever the title. */
  lemma ItemEntryQuantity(line: ItemLine, middleTruncate: (string, nat) -> string)
    ensures forall i :: 0 <= i < |LeadingDigits(ItemEntry(line, middleTruncate))| ==>
      IsDigit(LeadingDigits(ItemEntry(line, middleTruncate))[i])
    ensures DecimalValue(LeadingDigits(ItemEntry(line, middleTruncate))) == line.quantity
  {
    var d := DecimalString(line.quantity);
    DecimalRoundTrip(line.quantity);
    LeadingDigitsOf(d, "x" + middleTruncate(line.title, TITLE_LIMIT));
    assert ItemEntry(line, middleTruncate) == d + ("x" + middleTruncate(line.title, TITLE_LIMIT));
  }

  function ItemEntries(lines: seq<ItemLine>, middleTruncate: (string, nat) -> string): (r: seq<string>)
    ensures |r| == |lines|
  {
    seq(|lines|, k requires 0 <= k < |lines| => ItemEntry(lines[k], middleTruncate))
  }

  /** `sep.join(parts)`. */
  function Join(sep: string, parts: seq<string>): string
  {
    if parts == [] then ""
    else if |parts| == 1 then parts[0]
    else Join(sep, parts[..|parts| - 1]) + sep + parts[|parts| - 1]
  }

  function TotalLength(parts: seq<string>): nat
  {
    if parts == [] then 0 else TotalLength(parts[..|parts| - 1]) + |parts[|parts| - 1]|
  }

  /** A joined string is its parts plus one separator between each two. */
  lemma {:induction false} JoinLength(sep: string, parts: seq<string>)
    requires parts != []
    ensures |Join(sep, parts)| == TotalLength(parts) + |sep| * (|parts| - 1)
  {
    if |parts| > 1 {
      JoinLength(sep, parts[..|parts| - 1]);
    } else {
      assert parts[..0] == [];
    }
  }

  /** The item description: the entries of the basket's lines, in order,
      joined by `", "`. */
  method BuildItemDescription(lines: seq<ItemLine>, middleTruncate: (string, nat) -> string)
    returns (itemDesc: string)
    ensures itemDesc == Join(", ", ItemEntries(lines, middleTruncate))
    ensures lines != [] ==> |itemDesc| == TotalLength(ItemEntries(lines, middleTruncate)) + 2 * (|lines| - 1)
  {
    var itemDescList := [];
    for i := 0 to |lines|
      invariant itemDescList == ItemEntries(lines[..i], middleTruncate)
    {
      itemDescList := itemDescList + [ItemEntry(lines[i], middleTruncate)];
    }
    assert lines[..|lines|] == lines;
    itemDesc := Join(", ", itemDescList);
    if lines != [] {
      JoinLength(", ", itemDescList);
    }
  }

  // ---------------------------------------------------------------------
  // Notify URL

  const LOCAL_NOTIFY_PREFIX := "http://localhost:18130/"
  const PLACEHOLDER_NOTIFY_PREFIX := "http://somewhere.elsenot.exist/"

  predicate StartsWith(s: string, prefix: string)
  {
    |prefix| <= |s| && s[..|prefix|] == prefix
  }

  /** Python's `s.replace(pattern, replacement)`: every occurrence, scanning left to
      right without overlaps. */
  function ReplaceAll(s: string, pattern: string, replacement: string): string
    requires pattern != []
    decreases |s|
  {
    if s == [] then []
    else if StartsWith(s, pattern) then replacement + ReplaceAll(s[|pattern|..], pattern, replacement)
    else [s[0]] + ReplaceAll(s[1..], pattern, replacement)
  }

  /** Replacing a string that does not occur changes nothing. */
  lemma {:induction false} ReplaceAllAbsent(s: string, pattern: string, replacement: string)
    requires pattern != []
    requires forall i :: 0 <= i <= |s| ==> !StartsWith(s[i..], pattern)
    ensures ReplaceAll(s, pattern, replacement) == s
    decreases |s|
  {
    if s != [] {
      assert !StartsWith(s[0..], pattern);
      assert forall i :: 0 <= i <= |s[1..]| ==> s[1..][i..] == s[i + 1..];
      ReplaceAllAbsent(s[1..], pattern, replacement);
    }
  }

  /** The notify URL sent to the gateway: a local development address is
      rewritten to a placeholder host. */
  function NotifyUrl(url: string): (r: string)
    ensures !StartsWith(r, LOCAL_NOTIFY_PREFIX)
    ensures !StartsWith(url, LOCAL_NOTIFY_PREFIX) ==> r == url
    ensures StartsWith(url, LOCAL_NOTIFY_PREFIX) ==> StartsWith(r, PLACEHOLDER_NOTIFY_PREFIX)
  {
    if StartsWith(url, LOCAL_NOTIFY_PREFIX) then
      var r := ReplaceAll(url, LOCAL_NOTIFY_PREFIX, PLACEHOLDER_NOTIFY_PREFIX);
      assert r[..|PLACEHOLDER_NOTIFY_PREFIX|] == PLACEHOLDER_NOTIFY_PREFIX;
      assert r[7] == 's' != LOCAL_NOTIFY_PREFIX[7];
      r
    else url
  }

  /** A local notify URL keeps its path: only the prefix changes when the
      path holds no second copy of the local prefix. */
  lemma NotifyUrlKeepsPath(url: string)
    requires StartsWith(url, LOCAL_NOTIFY_PREFIX)
    requires forall i :: 0 <= i <= |url| - |LOCAL_NOTIFY_PREFIX| ==>
      !StartsWith(url[|LOCAL_NOTIFY_PREFIX|..][i..], LOCAL_NOTIFY_PREFIX)
    ensures NotifyUrl(url) == PLACEHOLDER_NOTIFY_PREFIX + url[|LOCAL_NOTIFY_PREFIX|..]
  {
    ReplaceAllAbsent(url[|LOCAL_NOTIFY_PREFIX|..], LOCAL_NOTIFY_PREFIX, PLACEHOLDER_NOTIFY_PREFIX);
  }

  // ---------------------------------------------------------------------
  // Masked card number

  predicate KnownPaymentType(paymentType: string)
  {
    paymentType in ["CREDIT", "WEBATM", "VACC", "CVS", "BARCODE", "CVSCOM"]
  }

  function Stars(n: nat): (r: string)
    ensures |r| == n && forall i :: 0 <= i < n ==> r[i] == '*'
  {
    seq(n, _ => '*')
  }

  /** `result.get(key, default)` on the gateway's result fields. */
  function Get(fields: map<string, string>, key: string, default: string): string
  {
    if key in fields then fields[key] else default
  }

  /** The card number recorded for a payment, by payment type. A missing
      barcode segment prints as `None`, as Python formats it. */
  function CardNumber(paymentType: string, fields: map<string, string>): (r: string)
    requires KnownPaymentType(paymentType)
    ensures paymentType == "CREDIT" ==>
      var tail := Get(fields, "Card4No", Stars(4));
      |r| >= |tail| + 6 && r[|r| - |tail|..] == tail
    ensures paymentType == "WEBATM" || paymentType == "VACC" ==>
      var tail := Get(fields, "PayerAccount5Code", Stars(10));
      |r| >= |tail| + 10 && r[|r| - |tail|..] == tail
  {
    if paymentType == "CREDIT" then
      Get(fields, "Card6No", Stars(6)) + Stars(6) + Get(fields, "Card4No", Stars(4))
    else if paymentType == "WEBATM" || paymentType == "VACC" then
      Get(fields, "PayBankCode", Stars(3)) + "-" + Stars(14 - 5) + Get(fields, "PayerAccount5Code", Stars(10))
    else if paymentType == "CVS" then
      Get(fields, "CodeNo", Stars(10))
    else if paymentType == "BARCODE" then
      Get(fields, "Barcode_1", "None") + "-" + Get(fields, "Barcode_2", "None") + "-" + Get(fields, "Barcode_3", "None")
    else
      Stars(10)
  }

  /** Card and bank-account numbers always hide their middle: six stars
      after the first card digits, nine stars after the bank code and its
      dash; a convenience-store pickup shows ten stars only. */
  lemma CardNumberHidesMiddle(paymentType: string, fields: map<string, string>)
    requires KnownPaymentType(paymentType)
    ensures paymentType == "CREDIT" ==>
      var head := Get(fields, "Card6No", Stars(6));
      var r := CardNumber(paymentType, fields);
      |r| >= |head| + 6 && r[..|head|] == head && r[|head|..|head| + 6] == Stars(6)
    ensures paymentType == "WEBATM" || paymentType == "VACC" ==>
      var head := Get(fields, "PayBankCode", Stars(3));
      var r := CardNumber(paymentType, fields);
      |r| >= |head| + 10 && r[..|head|] == head && r[|head|] == '-' && r[|head| + 1..|head| + 10] == Stars(9)
    ensures paymentType == "CVSCOM" ==> CardNumber(paymentType, fields) == Stars(10)
  {
    if paymentType == "CREDIT" {
      var head := Get(fields, "Card6No", Stars(6));
      var r := CardNumber(paymentType, fields);
      assert r == head + Stars(6) + Get(fields, "Card4No", Stars(4));
      assert r[..|head|] == head;
      assert r[|head|..|head| + 6] == Stars(6);
    } else if paymentType == "WEBATM" || paymentType == "VACC" {
      var head := Get(fields, "PayBankCode", Stars(3));
      var r := CardNumber(paymentType, fields);
      assert r == head + "-" + Stars(9) + Get(fields, "PayerAccount5Code", Stars(10));
      assert r[..|head|] == head;
      assert r[|head| + 1..|head| + 10] == Stars(9);
    }
  }

  /** What is shown when the gateway sends none of the optional fields. */
  lemma CardNumberWithoutFields(paymentType: string)
    requires KnownPaymentType(paymentType)
    ensures paymentType == "CREDIT" ==> CardNumber(paymentType, map[]) == Stars(16)
    ensures paymentType == "WEBATM" || paymentType == "VACC" ==> CardNumber(paymentType, map[]) == Stars(3) + "-" + Stars(19)
    ensures paymentType == "CVS" || paymentType == "CVSCOM" ==> CardNumber(paymentType, map[]) == Stars(10)
    ensures paymentType == "BARCODE" ==> CardNumber(paymentType, map[]) == "None-None-None"
  {
    assert Stars(6) + Stars(6) + Stars(4) == Stars(16);
    assert Stars(9) + Stars(10) == Stars(19);
  }
}
