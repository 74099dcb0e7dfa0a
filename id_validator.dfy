/**
 * The route-parameter check: an identifier passes when `parseInt` reads a
 * positive integer from it and printing that integer gives the identifier
 * back; otherwise it fails with a 400 error.
 */
module IdValidator {
  import opened Wrappers
  import opened Text

  /** The error the source throws: a message and an HTTP status. */
  datatype ApiError = ApiError(message: string, status: int)

  const InvalidIdentifier: ApiError := ApiError("Invalid identifier", 400)

  /** `idValidator(id)`: NaN, a value of at most zero, or a printed form that differs from `id` are all refused. */
  function ValidateId(id: string): (r: Outcome<ApiError>)
    ensures r.Fail? ==> r.error == InvalidIdentifier
    ensures r.Pass? ==> IsDigits(id) && id[0] != '0'
  {
    var num := ParseInt(id);
    if num.None? || num.value <= 0 || IntToDecimal(num.value) != id then Fail(InvalidIdentifier)
    else Pass
  }

  // ------------------------------------------------------------------ lemmas

  /** Exactly the canonical positive decimals pass: digits only, and no leading zero. */
  lemma ValidIdIff(id: string)
    ensures ValidateId(id).Pass? <==> IsDigits(id) && id[0] != '0'
  {
    if IsDigits(id) && id[0] != '0' {
      PositiveDecimalPasses(id);
    }
  }

  /** A canonical positive decimal reads back as its own value, which is positive. */
  lemma PositiveDecimalPasses(id: string)
    requires IsDigits(id) && id[0] != '0'
    ensures AllRadixDigits(id, 10) && ParseInt(id) == Some(RadixValue(id, 10)) && RadixValue(id, 10) > 0
    ensures ValidateId(id) == Pass
  {
    DecimalRoundTrip(id);
    LeadingDigitPositive(id);
    var v := RadixValue(id, 10);
    ParseIntOfDecimal(v);
    assert IntToDecimal(v) == id;
  }

  /** What passes denotes the integer the services look up: the decimal value of its digits. */
  lemma PassedIdValue(id: string)
    requires ValidateId(id).Pass?
    ensures AllRadixDigits(id, 10) && ParseInt(id) == Some(RadixValue(id, 10)) && RadixValue(id, 10) >= 1
  {
    PositiveDecimalPasses(id);
  }

  /** Every positive integer, printed, passes. */
  lemma PrintedPositivePasses(n: int)
    requires n > 0
    ensures ValidateId(IntToDecimal(n)) == Pass
  {
    ParseIntOfDecimal(n);
  }

  /** No zero, negative or non-integer printed number passes. */
  lemma PrintedNonPositiveFails(n: int)
    requires n <= 0
    ensures ValidateId(IntToDecimal(n)) == Fail(InvalidIdentifier)
  {
    ParseIntOfDecimal(n);
  }

  /** A character other than a digit anywhere makes the identifier fail. */
  lemma NonDigitFails(id: string, i: nat)
    requires i < |id| && !IsDigit(id[i])
    ensures ValidateId(id) == Fail(InvalidIdentifier)
  {
    ValidIdIff(id);
  }

  /** A leading zero makes the identifier fail. */
  lemma LeadingZeroFails(id: string)
    requires |id| > 0 && id[0] == '0'
    ensures ValidateId(id) == Fail(InvalidIdentifier)
  {
    ValidIdIff(id);
  }

  /** The request tests' valid identifiers: `5` and `9999`. */
  lemma IdAcceptedExamples(id: string)
    requires id == "5" || id == "9999"
    ensures ValidateId(id) == Pass
  {
    PositiveDecimalPasses(id);
  }

  /** The request tests' refused identifiers `0`, `1.0` and `abc`, and likewise `-5`, `01` and `5abc`. */
  lemma IdRefusedExamples(id: string)
    requires id == "0" || id == "1.0" || id == "abc" || id == "-5" || id == "01" || id == "5abc"
    ensures ValidateId(id) == Fail(InvalidIdentifier)
  {
    if id == "0" || id == "01" {
      LeadingZeroFails(id);
    } else if id == "1.0" || id == "5abc" {
      NonDigitFails(id, 1);
    } else {
      NonDigitFails(id, 0);
    }
  }
}
