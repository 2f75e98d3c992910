/**
 * Employee identifiers of the form `AT-NNN`: the number written with at
 * least three digits after the fixed prefix `AT-`.
 */
module UniqueId {
  import opened Wrappers
  import opened Decimal

  const Prefix: string := "AT-"

  /** `f'AT-{n:03d}'`. */
  function FormatId(n: nat): (id: string)
    ensures |id| >= |Prefix| + 3 && id[..|Prefix|] == Prefix
    ensures AllDigits(id[|Prefix|..])
  {
    PadDecimalValue(n, 3);
    Prefix + PadDecimal(n, 3)
  }

  /** The only identifier the allocator ever considers for a roster of `rosterLength` rows: it reads back as the length plus one. */
  function CandidateId(rosterLength: nat): (id: string)
    ensures ParseId(id) == Some(rosterLength + 1)
  {
    ParseFormatId(rosterLength + 1);
    FormatId(rosterLength + 1)
  }

  /** Reads an identifier back: the prefix, then one or more decimal digits. */
  function ParseId(id: string): Option<nat>
  {
    if |id| > |Prefix| && id[..|Prefix|] == Prefix && AllDigits(id[|Prefix|..])
    then Some(Value(id[|Prefix|..]))
    else None
  }

  /** Formatting then parsing gives back the number. */
  lemma ParseFormatId(n: nat)
    ensures ParseId(FormatId(n)) == Some(n)
  {
    PadDecimalValue(n, 3);
    assert FormatId(n)[|Prefix|..] == PadDecimal(n, 3);
  }

  /** Distinct numbers give distinct identifiers. */
  lemma FormatIdInjective(a: nat, b: nat)
    ensures FormatId(a) == FormatId(b) <==> a == b
  {
    if FormatId(a) == FormatId(b) {
      ParseFormatId(a);
      ParseFormatId(b);
    }
  }

  /**
   * Numbers below 1000 are padded to exactly three digits; from 1000 on the
   * number is written in full, with four or more digits and no truncation.
   */
  lemma FormatIdWidth(n: nat)
    ensures n < 1000 ==> |FormatId(n)| == |Prefix| + 3
    ensures n >= 1000 ==> FormatId(n) == Prefix + Digits(n) && |FormatId(n)| >= |Prefix| + 4
  {
    assert Pow10(3) == 1000;
    DigitsLength(n, 3);
  }

  /** The first identifier, and the first one past three digits. */
  lemma SampleIds()
    ensures CandidateId(0) == "AT-001"
    ensures FormatId(1000) == "AT-1000"
  {
    assert Digits(1) == "1";
    assert PadDecimal(1, 3) == "001";
    assert CandidateId(0) == Prefix + "001";
    assert Digits(1000) == Digits(100) + ['0'] && Digits(100) == Digits(10) + ['0'];
    assert Digits(10) == "10";
  }
}
