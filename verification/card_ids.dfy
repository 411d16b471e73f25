/**
  Card identifiers. A card created while the counter holds `n` is named by the
  template string `card-${n}`, so an id is the prefix "card-" followed by the
  shortest decimal spelling of `n`. Reading the number back out of an id is
  what lets the rest of the model talk about "the number of a live card".
 */
module CardIds {
  import opened Wrappers

  const Prefix: string := "card-"

  predicate IsDigit(c: char)
  {
    '0' <= c <= '9'
  }

  predicate AllDigits(s: string)
  {
    forall i :: 0 <= i < |s| ==> IsDigit(s[i])
  }

  function DigitChar(d: nat): (c: char)
    requires d < 10
    ensures IsDigit(c)
    ensures c as int - '0' as int == d
  {
    ('0' as int + d) as char
  }

  /** The decimal spelling of `n`, as a JavaScript template literal prints a non-negative integer. */
  function Decimal(n: nat): (s: string)
    ensures |s| >= 1
    ensures AllDigits(s)
    ensures s[0] == '0' ==> n == 0
    decreases n
  {
    if n < 10 then [DigitChar(n)]
    else Decimal(n / 10) + [DigitChar(n % 10)]
  }

  /** The value of a string of decimal digits (leading zeros allowed). */
  function DecimalValue(s: string): nat
    requires AllDigits(s)
    decreases |s|
  {
    if |s| == 0 then 0
    else DecimalValue(s[..|s| - 1]) * 10 + (s[|s| - 1] as int - '0' as int)
  }

  /** Reading back a printed number gives the number. */
  lemma {:induction false} DecimalRoundTrip(n: nat)
    ensures DecimalValue(Decimal(n)) == n
    decreases n
  {
    if n >= 10 {
      DecimalRoundTrip(n / 10);
      var s := Decimal(n);
      assert s[..|s| - 1] == Decimal(n / 10);
    }
  }

  /** The id allocated for counter value `n`. */
  function CardId(n: nat): (id: string)
    ensures |id| > |Prefix| && id[..|Prefix|] == Prefix
    ensures ParseCardId(id) == Some(n)
  {
    var id := Prefix + Decimal(n);
    assert id[|Prefix|..] == Decimal(n);
    DecimalRoundTrip(n);
    id
  }

  /** The counter value an id was allocated from, or None for a string that is not of the form `card-<digits>`. */
  function ParseCardId(id: string): (r: Option<nat>)
    ensures r.Some? <==> |id| > |Prefix| && id[..|Prefix|] == Prefix && AllDigits(id[|Prefix|..])
  {
    if |id| > |Prefix| && id[..|Prefix|] == Prefix && AllDigits(id[|Prefix|..])
    then Some(DecimalValue(id[|Prefix|..]))
    else None
  }

  /** Every allocated id parses back to the counter value it was made from. */
  lemma CardIdRoundTrip(n: nat)
    ensures ParseCardId(CardId(n)) == Some(n)
  {
    var id := CardId(n);
    assert id[|Prefix|..] == Decimal(n);
    DecimalRoundTrip(n);
  }

  /** Different counter values never produce the same id. */
  lemma CardIdInjective(m: nat, n: nat)
    ensures CardId(m) == CardId(n) <==> m == n
  {
    CardIdRoundTrip(m);
    CardIdRoundTrip(n);
  }

  /** An id in the canonical form `card-<n>` that the allocator produces. */
  predicate IsCardId(id: string)
  {
    ParseCardId(id).Some? && CardId(ParseCardId(id).value) == id
  }

  /** The counter value of a canonical id. */
  function Number(id: string): (n: nat)
    requires IsCardId(id)
    ensures CardId(n) == id
  {
    ParseCardId(id).value
  }

  /** Allocated ids are canonical, and their number is the counter value they came from. */
  lemma AllocatedIdIsCanonical(n: nat)
    ensures IsCardId(CardId(n)) && Number(CardId(n)) == n
  {
    CardIdRoundTrip(n);
  }
}
