/**
 * The gateway-independent part of payment handling (base/interface_payment.py):
 * the payment status returned for a callback, the shape of a verified payment,
 * and the check that a masked card belongs to an allow-list of full card numbers
 * of which the callback only carries a SHA-256 digest.
 */
module Payment {
  import opened Wrappers
  import opened PyText

  datatype PaymentStatus = OK | UNKNOWN | PAYMENTFAILED | UNAUTHORIZEDCARD

  /** The visible digit groups of a card, as ints. */
  datatype MaskedCard = MaskedCard(firstDigits: int, lastDigits: int)

  datatype VerifiedPaymentResult = VerifiedPaymentResult(paidAmountRial: int, cardNumber: MaskedCard)

  type Digest = seq<bv8>

  const MASKED_CARD_LENGTH := 16

  // ---------------------------------------------------------------------------
  // bytes.fromhex

  /** The characters `bytes.fromhex` skips between byte pairs (ASCII whitespace). */
  predicate IsHexSpace(c: char) {
    c == ' ' || 9 <= c as int <= 13
  }

  predicate IsHexDigit(c: char) {
    '0' <= c <= '9' || 'a' <= c <= 'f' || 'A' <= c <= 'F'
  }

  function HexValue(c: char): (v: nat)
    requires IsHexDigit(c)
    ensures v < 16
  {
    if '0' <= c <= '9' then c as int - '0' as int
    else if 'a' <= c <= 'f' then c as int - 'a' as int + 10
    else c as int - 'A' as int + 10
  }

  /**
   * `bytes.fromhex(s)`: two hex digits per byte, whitespace allowed between
   * pairs but not inside one; `None` where Python raises ValueError.
   */
  function FromHex(s: string): (r: Option<Digest>)
    ensures r.Some? ==> 2 * |r.value| <= |s|
    ensures r.Some? ==> forall i :: 0 <= i < |s| ==> IsHexDigit(s[i]) || IsHexSpace(s[i])
    ensures s == [] ==> r == Some([])
    decreases |s|
  {
    if s == [] then Some([])
    else if IsHexSpace(s[0]) then FromHex(s[1..])
    else if 2 <= |s| && IsHexDigit(s[0]) && IsHexDigit(s[1]) then
      match FromHex(s[2..])
      case None => None
      case Some(rest) => Some([(HexValue(s[0]) * 16 + HexValue(s[1])) as bv8] + rest)
    else None
  }

  function HexChar(n: nat): (c: char)
    requires n < 16
    ensures IsHexDigit(c) && HexValue(c) == n
  {
    if n < 10 then ('0' as int + n) as char else ('a' as int + n - 10) as char
  }

  /** `digest.hex()`: the lower-case hex form a gateway would send. */
  function ToHex(d: Digest): (s: string)
    ensures |s| == 2 * |d|
  {
    if d == [] then [] else [HexChar(d[0] as int / 16), HexChar(d[0] as int % 16)] + ToHex(d[1..])
  }

  /** Every digest's hex form decodes back to it. */
  lemma {:induction false} FromHexOfToHex(d: Digest)
    ensures FromHex(ToHex(d)) == Some(d)
  {
    if d != [] {
      var s := ToHex(d);
      assert s[2..] == ToHex(d[1..]);
      FromHexOfToHex(d[1..]);
      var b := d[0] as int;
      assert !IsHexSpace(s[0]) && IsHexDigit(s[0]) && IsHexDigit(s[1]);
      assert HexValue(s[0]) * 16 + HexValue(s[1]) == b;
      assert (b as bv8) == d[0];
      assert [d[0]] + d[1..] == d;
    }
  }

  /** A character that is neither a hex digit nor whitespace makes decoding fail. */
  lemma {:induction false} FromHexRejectsStrayChar(s: string, k: nat)
    requires k < |s| && !IsHexDigit(s[k]) && !IsHexSpace(s[k])
    ensures FromHex(s).None?
    decreases |s|
  {
    if k == 0 {
    } else if IsHexSpace(s[0]) {
      FromHexRejectsStrayChar(s[1..], k - 1);
    } else if 2 <= |s| && IsHexDigit(s[0]) && IsHexDigit(s[1]) {
      assert k >= 2;
      FromHexRejectsStrayChar(s[2..], k - 2);
    }
  }

  // ---------------------------------------------------------------------------
  // _isCardAuthorized

  /**
   * One allow-listed card accounts for the masked card: its decimal form shares
   * the first 6 and last 4 characters with the masked card and hashes to the digest.
   */
  predicate CardMatches(maskedCard: string, digest: Digest, card: int, sha256: string -> Digest)
    requires |maskedCard| == MASKED_CARD_LENGTH
  {
    var cardStr := DecimalString(card);
    && PyPrefix(cardStr, 6) == maskedCard[..6]
    && PySuffix(cardStr, 4) == maskedCard[12..]
    && sha256(cardStr) == digest
  }

  /** Some allow-listed card accounts for the masked card and the decoded digest. */
  predicate AllowListAdmits(maskedCard: string, digest: Digest, authorizedCards: seq<int>,
                            sha256: string -> Digest)
    requires |maskedCard| == MASKED_CARD_LENGTH
  {
    exists i :: 0 <= i < |authorizedCards| && CardMatches(maskedCard, digest, authorizedCards[i], sha256)
  }

  /** What `_isCardAuthorized` decides. */
  predicate IsCardAuthorized(maskedCard: string, cardHash: string, authorizedCards: seq<int>,
                             sha256: string -> Digest)
  {
    && |maskedCard| == MASKED_CARD_LENGTH
    && FromHex(cardHash).Some?
    && AllowListAdmits(maskedCard, FromHex(cardHash).value, authorizedCards, sha256)
  }

  /**
   * The guards of `_isCardAuthorized`: a masked card of the wrong length or a
   * hash that is not hex is refused before the allow-list is read.
   */
  method CheckCardAuthorized(maskedCard: string, cardHash: string, authorizedCards: seq<int>,
                             sha256: string -> Digest)
    returns (authorized: bool)
    ensures authorized <==> IsCardAuthorized(maskedCard, cardHash, authorizedCards, sha256)
  {
    if |maskedCard| != MASKED_CARD_LENGTH {
      return false;
    }
    var decoded := FromHex(cardHash);
    if decoded.None? {
      return false;
    }
    authorized := ScanAllowList(maskedCard, decoded.value, authorizedCards, sha256);
  }

  /**
   * The linear scan of the allow-list: it skips cards whose digit groups differ,
   * hashes the others and stops at the first digest match.
   */
  method ScanAllowList(maskedCard: string, cardHashBin: Digest, authorizedCards: seq<int>,
                       sha256: string -> Digest)
    returns (found: bool)
    requires |maskedCard| == MASKED_CARD_LENGTH
    ensures found <==> AllowListAdmits(maskedCard, cardHashBin, authorizedCards, sha256)
  {
    var firstDigits := maskedCard[..6];
    var lastDigits := maskedCard[12..];
    for i := 0 to |authorizedCards|
      invariant forall j :: 0 <= j < i ==> !CardMatches(maskedCard, cardHashBin, authorizedCards[j], sha256)
    {
      var cardStr := DecimalString(authorizedCards[i]);
      if PyPrefix(cardStr, 6) != firstDigits || PySuffix(cardStr, 4) != lastDigits {
        continue;
      }
      var digest := sha256(cardStr);
      if digest == cardHashBin {
        assert CardMatches(maskedCard, cardHashBin, authorizedCards[i], sha256);
        return true;
      }
    }
    return false;
  }

  lemma WrongLengthNeverAuthorized(maskedCard: string, cardHash: string, authorizedCards: seq<int>,
                                   sha256: string -> Digest)
    requires |maskedCard| != MASKED_CARD_LENGTH
    ensures !IsCardAuthorized(maskedCard, cardHash, authorizedCards, sha256)
  {
  }

  lemma UndecodableHashNeverAuthorized(maskedCard: string, cardHash: string, authorizedCards: seq<int>,
                                       sha256: string -> Digest)
    requires FromHex(cardHash).None?
    ensures !IsCardAuthorized(maskedCard, cardHash, authorizedCards, sha256)
  {
  }

  lemma EmptyAllowListNeverAuthorized(maskedCard: string, cardHash: string, sha256: string -> Digest)
    ensures !IsCardAuthorized(maskedCard, cardHash, [], sha256)
  {
  }

  /** Matching digit groups are not enough: the digest must match too. */
  lemma DigitMatchWithWrongHashRejected(maskedCard: string, cardHash: string, card: int,
                                        sha256: string -> Digest)
    requires |maskedCard| == MASKED_CARD_LENGTH && FromHex(cardHash).Some?
    requires PyPrefix(DecimalString(card), 6) == maskedCard[..6]
    requires PySuffix(DecimalString(card), 4) == maskedCard[12..]
    requires sha256(DecimalString(card)) != FromHex(cardHash).value
    ensures !IsCardAuthorized(maskedCard, cardHash, [card], sha256)
  {
  }

  /** A hex digest of the card's own decimal form authorizes it. */
  lemma OwnDigestAuthorizes(maskedCard: string, card: int, authorizedCards: seq<int>,
                            sha256: string -> Digest)
    requires card in authorizedCards
    requires |maskedCard| == MASKED_CARD_LENGTH
    requires PyPrefix(DecimalString(card), 6) == maskedCard[..6]
    requires PySuffix(DecimalString(card), 4) == maskedCard[12..]
    ensures IsCardAuthorized(maskedCard, ToHex(sha256(DecimalString(card))), authorizedCards, sha256)
  {
    FromHexOfToHex(sha256(DecimalString(card)));
    var i :| 0 <= i < |authorizedCards| && authorizedCards[i] == card;
    assert CardMatches(maskedCard, sha256(DecimalString(card)), authorizedCards[i], sha256);
  }

  /** The ten masked-out middle characters play no part in the decision. */
  lemma OnlyVisibleDigitsMatter(maskedA: string, maskedB: string, cardHash: string,
                                authorizedCards: seq<int>, sha256: string -> Digest)
    requires |maskedA| == |maskedB| == MASKED_CARD_LENGTH
    requires maskedA[..6] == maskedB[..6] && maskedA[12..] == maskedB[12..]
    ensures IsCardAuthorized(maskedA, cardHash, authorizedCards, sha256)
        == IsCardAuthorized(maskedB, cardHash, authorizedCards, sha256)
  {
  }

  /** Neither the order of the allow-list nor repeated entries change the decision. */
  lemma AllowListOrderIrrelevant(maskedCard: string, cardHash: string, cardsA: seq<int>, cardsB: seq<int>,
                                 sha256: string -> Digest)
    requires forall c :: c in cardsA <==> c in cardsB
    ensures IsCardAuthorized(maskedCard, cardHash, cardsA, sha256)
        == IsCardAuthorized(maskedCard, cardHash, cardsB, sha256)
  {
    if IsCardAuthorized(maskedCard, cardHash, cardsA, sha256) {
      var i :| 0 <= i < |cardsA| && CardMatches(maskedCard, FromHex(cardHash).value, cardsA[i], sha256);
      assert cardsA[i] in cardsB;
      var j :| 0 <= j < |cardsB| && cardsB[j] == cardsA[i];
    }
    if IsCardAuthorized(maskedCard, cardHash, cardsB, sha256) {
      var j :| 0 <= j < |cardsB| && CardMatches(maskedCard, FromHex(cardHash).value, cardsB[j], sha256);
      assert cardsB[j] in cardsA;
      var i :| 0 <= i < |cardsA| && cardsA[i] == cardsB[j];
    }
  }
}
