/**
 * BarcodeValidator of barcode-validator.js: check-digit validation of
 * EAN-13, EAN-8, UPC-A and UPC-E, the UPC-E to UPC-A expansion,
 * classification by length and prefix, and the origin lookup by prefix.
 * Every operation is total: malformed input yields `false`, `Unknown` or a
 * sentinel string, never an error.
 */
module BarcodeValidator {
  import opened Text
  import opened Checksum
  import opened Options
  import opened PrefixTables

  /** `isValidEAN13`: 13 digits whose last equals the check digit of the first 12 weighted 1/3. */
  predicate IsValidEAN13(code: string) {
    IsDigitString(code, 13) && DigitValue(code[12]) == CheckDigit(WeightedSum(code, 12, 1, 3))
  }

  /** `isValidEAN8`: 8 digits whose last equals the check digit of the first 7 weighted 3/1. */
  predicate IsValidEAN8(code: string) {
    IsDigitString(code, 8) && DigitValue(code[7]) == CheckDigit(WeightedSum(code, 7, 3, 1))
  }

  /** `isValidUPCA`: 12 digits whose last equals the check digit of the first 11 weighted 3/1. */
  predicate IsValidUPCA(code: string) {
    IsDigitString(code, 12) && DigitValue(code[11]) == CheckDigit(WeightedSum(code, 11, 3, 1))
  }

  /**
   * `expandUPCE`: the number-system character, a body of 10 characters
   * rebuilt from the six middle ones by the pattern the sixth middle
   * character selects, and the check character. It is total over all
   * strings, with `charAt` and `substring` clamping as JavaScript does.
   */
  function ExpandUPCE(upce: string): (upcA: string)
    ensures |upcA| <= 12
    ensures |upcA| == 12 <==> |upce| >= 8
    ensures |upce| >= 8 ==> upcA[0] == upce[0] && upcA[11] == upce[7]
  {
    var first := CharAt(upce, 0);
    var last := CharAt(upce, 7);
    var middle := Substring(upce, 1, 7);
    var selector := CharAt(middle, 5);
    var body :=
      if selector == "0" || selector == "1" || selector == "2" then
        Substring(middle, 0, 2) + selector + "0000" + Substring(middle, 2, 5)
      else if selector == "3" then
        Substring(middle, 0, 3) + "00000" + Substring(middle, 3, 5)
      else if selector == "4" then
        Substring(middle, 0, 4) + "00000" + CharAt(middle, 4)
      else
        Substring(middle, 0, 5) + "0000" + CharAt(middle, 5);
    first + body + last
  }

  /** The pieces `expandUPCE` cuts from an 8-character code, as slices of it. */
  lemma ExpandUPCEPieces(upce: string)
    requires |upce| == 8
    ensures CharAt(upce, 0) == upce[..1] && CharAt(upce, 7) == [upce[7]]
    ensures Substring(upce, 1, 7) == upce[1..7]
    ensures CharAt(upce[1..7], 5) == [upce[6]] && CharAt(upce[1..7], 4) == [upce[5]]
    ensures Substring(upce[1..7], 0, 2) == upce[1..3] && Substring(upce[1..7], 2, 5) == upce[3..6]
    ensures Substring(upce[1..7], 0, 3) == upce[1..4] && Substring(upce[1..7], 3, 5) == upce[4..6]
    ensures Substring(upce[1..7], 0, 4) == upce[1..5] && Substring(upce[1..7], 0, 5) == upce[1..6]
  {
    SubstringInRange(upce, 1, 7);
    SubstringOfSlice(upce, 1, 7, 0, 2);
    SubstringOfSlice(upce, 1, 7, 2, 5);
    SubstringOfSlice(upce, 1, 7, 0, 3);
    SubstringOfSlice(upce, 1, 7, 3, 5);
    SubstringOfSlice(upce, 1, 7, 0, 4);
    SubstringOfSlice(upce, 1, 7, 0, 5);
  }

  /** Selector 0, 1 or 2: it follows the first two middle digits, then four zeros and the other three. */
  lemma ExpandUPCELayoutLow(upce: string)
    requires |upce| == 8 && '0' <= upce[6] <= '2'
    ensures ExpandUPCE(upce) == upce[..3] + [upce[6]] + "0000" + upce[3..6] + [upce[7]]
  {
    ExpandUPCEPieces(upce);
    assert upce[..1] + upce[1..3] == upce[..3];
  }

  /** Selector 3: the first three middle digits, five zeros, the next two. */
  lemma ExpandUPCELayout3(upce: string)
    requires |upce| == 8 && upce[6] == '3'
    ensures ExpandUPCE(upce) == upce[..4] + "00000" + upce[4..6] + [upce[7]]
  {
    ExpandUPCEPieces(upce);
    assert upce[..1] + upce[1..4] == upce[..4];
  }

  /** Selector 4: the first four middle digits, five zeros, the fifth. */
  lemma ExpandUPCELayout4(upce: string)
    requires |upce| == 8 && upce[6] == '4'
    ensures ExpandUPCE(upce) == upce[..5] + "00000" + [upce[5]] + [upce[7]]
  {
    ExpandUPCEPieces(upce);
    assert upce[..1] + upce[1..5] == upce[..5];
  }

  /** Any other selector: the first five middle digits, four zeros, the selector itself. */
  lemma ExpandUPCELayoutHigh(upce: string)
    requires |upce| == 8 && !('0' <= upce[6] <= '4')
    ensures ExpandUPCE(upce) == upce[..6] + "0000" + [upce[6]] + [upce[7]]
  {
    ExpandUPCEPieces(upce);
    assert upce[..1] + upce[1..6] == upce[..6];
  }

  /**
   * On an 8-character code each of the four patterns, written with the
   * code's own indices: the sixth middle character (index 6) selects the
   * pattern, and is kept in the expansion except for selectors 3 and 4.
   * Digits expand to digits.
   */
  lemma ExpandUPCELayout(upce: string)
    requires |upce| == 8
    ensures '0' <= upce[6] <= '2' ==>
              ExpandUPCE(upce) == upce[..3] + [upce[6]] + "0000" + upce[3..6] + [upce[7]]
    ensures upce[6] == '3' ==>
              ExpandUPCE(upce) == upce[..4] + "00000" + upce[4..6] + [upce[7]]
    ensures upce[6] == '4' ==>
              ExpandUPCE(upce) == upce[..5] + "00000" + [upce[5]] + [upce[7]]
    ensures !('0' <= upce[6] <= '4') ==>
              ExpandUPCE(upce) == upce[..6] + "0000" + [upce[6]] + [upce[7]]
    ensures IsDigits(upce) ==> IsDigits(ExpandUPCE(upce))
  {
    if '0' <= upce[6] <= '2' {
      ExpandUPCELayoutLow(upce);
    } else if upce[6] == '3' {
      ExpandUPCELayout3(upce);
    } else if upce[6] == '4' {
      ExpandUPCELayout4(upce);
    } else {
      ExpandUPCELayoutHigh(upce);
    }
    if IsDigits(upce) {
      ExpansionOfDigitsIsDigits(upce);
    }
  }

  /** Each piece an 8-digit code expands into is a digit string, so the expansion is one. */
  lemma ExpansionOfDigitsIsDigits(upce: string)
    requires IsDigitString(upce, 8)
    ensures IsDigits(ExpandUPCE(upce))
  {
    assert IsDigit(upce[5]) && IsDigit(upce[6]) && IsDigit(upce[7]);
    var s5, s6, s7 := [upce[5]], [upce[6]], [upce[7]];
    assert IsDigits(s5) && IsDigits(s6) && IsDigits(s7);
    assert IsDigits("0000") && IsDigits("00000");
    if '0' <= upce[6] <= '2' {
      ExpandUPCELayoutLow(upce);
      DigitsSlice(upce, 0, 3);
      DigitsSlice(upce, 3, 6);
      DigitsConcat(upce[..3], s6);
      DigitsConcat(upce[..3] + s6, "0000");
      DigitsConcat(upce[..3] + s6 + "0000", upce[3..6]);
      DigitsConcat(upce[..3] + s6 + "0000" + upce[3..6], s7);
    } else if upce[6] == '3' {
      ExpandUPCELayout3(upce);
      DigitsSlice(upce, 0, 4);
      DigitsSlice(upce, 4, 6);
      DigitsConcat(upce[..4], "00000");
      DigitsConcat(upce[..4] + "00000", upce[4..6]);
      DigitsConcat(upce[..4] + "00000" + upce[4..6], s7);
    } else if upce[6] == '4' {
      ExpandUPCELayout4(upce);
      DigitsSlice(upce, 0, 5);
      DigitsConcat(upce[..5], "00000");
      DigitsConcat(upce[..5] + "00000", s5);
      DigitsConcat(upce[..5] + "00000" + s5, s7);
    } else {
      ExpandUPCELayoutHigh(upce);
      DigitsSlice(upce, 0, 6);
      DigitsConcat(upce[..6], "0000");
      DigitsConcat(upce[..6] + "0000", s6);
      DigitsConcat(upce[..6] + "0000" + s6, s7);
    }
  }

  /** Characters after the eighth play no part in the expansion. */
  lemma ExpandUPCEReadsFirstEight(upce: string)
    requires |upce| >= 8
    ensures ExpandUPCE(upce) == ExpandUPCE(upce[..8])
  {
    var e := upce[..8];
    assert Substring(upce, 1, 7) == Substring(e, 1, 7);
    assert CharAt(upce, 0) == CharAt(e, 0) && CharAt(upce, 7) == CharAt(e, 7);
  }

  /**
   * Zero suppression, the inverse of `ExpandUPCE`: the 8-character UPC-E
   * form of a 12-character UPC-A code, when one of the four patterns fits
   * (tried in the order of the expansion's cases).
   */
  function CompressUPCA(upcA: string): Option<string> {
    if |upcA| != 12 then None
    else if upcA[4..8] == "0000" && '0' <= upcA[3] <= '2' then
      Some(upcA[..3] + upcA[8..11] + [upcA[3]] + [upcA[11]])
    else if upcA[4..9] == "00000" then
      Some(upcA[..4] + upcA[9..11] + "3" + [upcA[11]])
    else if upcA[5..10] == "00000" then
      Some(upcA[..5] + [upcA[10]] + "4" + [upcA[11]])
    else if upcA[6..10] == "0000" && '5' <= upcA[10] <= '9' then
      Some(upcA[..6] + [upcA[10]] + [upcA[11]])
    else None
  }

  /** Expanding the compressed form gives back the UPC-A code, digits stay digits. */
  lemma CompressThenExpand(upcA: string)
    requires CompressUPCA(upcA).Some?
    ensures |CompressUPCA(upcA).value| == 8
    ensures ExpandUPCE(CompressUPCA(upcA).value) == upcA
    ensures IsDigits(upcA) ==> IsDigits(CompressUPCA(upcA).value)
  {
    var e := CompressUPCA(upcA).value;
    if upcA[4..8] == "0000" && '0' <= upcA[3] <= '2' {
      ExpandSuppressedAt4(upcA);
    } else if upcA[4..9] == "00000" {
      ExpandSuppressedAt4With3(upcA);
    } else if upcA[5..10] == "00000" {
      ExpandSuppressedAt5(upcA);
    } else {
      ExpandSuppressedAt6(upcA);
    }
    if IsDigits(upcA) {
      forall i | 0 <= i < 8
        ensures IsDigit(e[i])
      {
        assert e[i] in upcA || e[i] == '3' || e[i] == '4';
      }
    }
  }

  /** The first zero-suppression pattern: zeros at 4..7, selector 0-2 taken from index 3. */
  lemma ExpandSuppressedAt4(a: string)
    requires |a| == 12 && a[4..8] == "0000" && '0' <= a[3] <= '2'
    ensures ExpandUPCE(a[..3] + a[8..11] + [a[3]] + [a[11]]) == a
  {
    var e := a[..3] + a[8..11] + [a[3]] + [a[11]];
    assert |e| == 8 && e[..3] == a[..3] && e[3..6] == a[8..11] && e[6] == a[3] && e[7] == a[11];
    ExpandUPCELayoutLow(e);
    assert a == a[..3] + [a[3]] + a[4..8] + a[8..11] + [a[11]];
  }

  /** The second pattern: zeros at 4..8, selector 3. */
  lemma ExpandSuppressedAt4With3(a: string)
    requires |a| == 12 && a[4..9] == "00000"
    ensures ExpandUPCE(a[..4] + a[9..11] + "3" + [a[11]]) == a
  {
    var e := a[..4] + a[9..11] + "3" + [a[11]];
    ExpandUPCELayout(e);
    assert e[..4] == a[..4] && e[4..6] == a[9..11];
    assert a == a[..4] + a[4..9] + a[9..11] + [a[11]];
  }

  /** The third pattern: zeros at 5..9, selector 4. */
  lemma ExpandSuppressedAt5(a: string)
    requires |a| == 12 && a[5..10] == "00000"
    ensures ExpandUPCE(a[..5] + [a[10]] + "4" + [a[11]]) == a
  {
    var e := a[..5] + [a[10]] + "4" + [a[11]];
    ExpandUPCELayout(e);
    assert e[..5] == a[..5] && e[5] == a[10];
    assert a == a[..5] + a[5..10] + [a[10]] + [a[11]];
  }

  /** The fourth pattern: zeros at 6..9, selector 5-9 taken from index 10. */
  lemma ExpandSuppressedAt6(a: string)
    requires |a| == 12 && a[6..10] == "0000" && '5' <= a[10] <= '9'
    ensures ExpandUPCE(a[..6] + [a[10]] + [a[11]]) == a
  {
    var e := a[..6] + [a[10]] + [a[11]];
    ExpandUPCELayout(e);
    assert e[..6] == a[..6] && e[6] == a[10];
    assert a == a[..6] + a[6..10] + [a[10]] + [a[11]];
  }

  /**
   * Every expansion of an 8-digit code can be compressed again, to a code
   * with the same expansion. (Not always to the same code: the patterns
   * overlap, so distinct UPC-E codes may share one expansion.)
   */
  lemma ExpansionIsCompressible(upce: string)
    requires IsDigitString(upce, 8)
    ensures CompressUPCA(ExpandUPCE(upce)).Some?
    ensures ExpandUPCE(CompressUPCA(ExpandUPCE(upce)).value) == ExpandUPCE(upce)
  {
    var a := ExpandUPCE(upce);
    assert IsDigit(upce[6]);
    if upce[6] == '0' || upce[6] == '1' || upce[6] == '2' {
      ExpandUPCELayoutLow(upce);
      var head := upce[..3] + [upce[6]];
      assert a == head + "0000" + (upce[3..6] + [upce[7]]) && |head| == 4;
      assert a[3] == upce[6] && a[4..8] == "0000";
    } else if upce[6] == '3' {
      ExpandUPCELayout3(upce);
      assert a == upce[..4] + "00000" + (upce[4..6] + [upce[7]]) && |upce[..4]| == 4;
      assert a[4..9] == "00000";
    } else if upce[6] == '4' {
      ExpandUPCELayout4(upce);
      assert a == upce[..5] + "00000" + ([upce[5]] + [upce[7]]) && |upce[..5]| == 5;
      assert a[5..10] == "00000";
    } else {
      ExpandUPCELayoutHigh(upce);
      assert a == upce[..6] + "0000" + ([upce[6]] + [upce[7]]) && |upce[..6]| == 6;
      assert a[6..10] == "0000" && a[10] == upce[6];
    }
    CompressThenExpand(a);
  }

  /** Two distinct 8-digit codes with one expansion: the UPC-E form is not unique. */
  lemma ExpansionIsNotInjective()
    ensures ExpandUPCE("01204523") == "012200000453"
    ensures ExpandUPCE("01224533") == "012200000453"
  {
    ExpansionOf01204523();
    ExpansionOf01224533();
  }

  /** The expansion of "01204523": selector 2 follows "12", then four zeros and "045". */
  lemma ExpansionOf01204523()
    ensures ExpandUPCE("01204523") == "012200000453"
  {
    ExpandUPCELayoutLow("01204523");
    assert "01204523"[..3] == "012" && "01204523"[3..6] == "045";
  }

  /** The expansion of "01224533": selector 3 keeps "0122", then five zeros and "45". */
  lemma ExpansionOf01224533()
    ensures ExpandUPCE("01224533") == "012200000453"
  {
    ExpandUPCELayout3("01224533");
    assert "01224533"[..4] == "0122" && "01224533"[4..6] == "45";
  }

  /** `isValidUPCE`: 8 digits whose expansion is a valid UPC-A code. */
  predicate IsValidUPCE(code: string) {
    IsDigitString(code, 8) && IsValidUPCA(ExpandUPCE(code))
  }

  /** EAN-13 validity is the standard's check on all 13 digits. */
  lemma EAN13IsGs1Check(code: string)
    ensures IsValidEAN13(code) <==> IsDigitString(code, 13) && Gs1CheckHolds(code)
  {
    if IsDigitString(code, 13) {
      LastDigitCheckIsGs1Check(code, 1, 3);
    }
  }

  /** EAN-8 validity is the standard's check on all 8 digits. */
  lemma EAN8IsGs1Check(code: string)
    ensures IsValidEAN8(code) <==> IsDigitString(code, 8) && Gs1CheckHolds(code)
  {
    if IsDigitString(code, 8) {
      LastDigitCheckIsGs1Check(code, 3, 1);
    }
  }

  /** UPC-A validity is the standard's check on all 12 digits. */
  lemma UPCAIsGs1Check(code: string)
    ensures IsValidUPCA(code) <==> IsDigitString(code, 12) && Gs1CheckHolds(code)
  {
    if IsDigitString(code, 12) {
      LastDigitCheckIsGs1Check(code, 3, 1);
    }
  }

  /** UPC-E validity is the standard's check on the expansion. */
  lemma UPCEIsGs1CheckOfExpansion(code: string)
    ensures IsValidUPCE(code) <==> IsDigitString(code, 8) && Gs1CheckHolds(ExpandUPCE(code))
  {
    if |code| == 8 {
      ExpandUPCELayout(code);
    }
    UPCAIsGs1Check(ExpandUPCE(code));
  }

  /** A leading zero does not change the standard's sum over an even number of digits. */
  lemma {:induction false} Gs1SumLeadingZero(code: string)
    requires |code| % 2 == 0
    ensures Gs1Sum("0" + code) == Gs1Sum(code)
    decreases |code|
  {
    var n := |code|;
    if n >= 2 {
      Gs1SumLeadingZero(code[..n - 2]);
      assert ("0" + code)[..n - 1] == "0" + code[..n - 2];
    }
  }

  /** A UPC-A code is valid exactly when the EAN-13 code "0" + it is. */
  lemma UPCAIsEAN13WithLeadingZero(code: string)
    ensures IsValidUPCA(code) == IsValidEAN13("0" + code)
  {
    UPCAIsGs1Check(code);
    EAN13IsGs1Check("0" + code);
    if |code| == 12 {
      Gs1SumLeadingZero(code);
      assert IsDigits("0" + code) <==> IsDigits(code) by {
        assert forall i | 0 <= i < |code| :: ("0" + code)[i + 1] == code[i];
      }
    }
  }

  /** Changing one digit of a valid EAN-13 code always makes it invalid. */
  lemma EAN13DetectsSingleDigitErrors(code: string, i: nat, c: char)
    requires IsValidEAN13(code) && i < 13 && IsDigit(c) && c != code[i]
    ensures !IsValidEAN13(code[i := c])
  {
    EAN13IsGs1Check(code);
    EAN13IsGs1Check(code[i := c]);
    SingleDigitErrorDetected(code, i, c);
  }

  /** A valid UPC-A code that can be zero-suppressed yields a valid UPC-E code. */
  lemma CompressedValidUPCAIsValidUPCE(upcA: string)
    requires IsValidUPCA(upcA) && CompressUPCA(upcA).Some?
    ensures IsValidUPCE(CompressUPCA(upcA).value)
  {
    CompressThenExpand(upcA);
  }

  /** The expansion of "51234560", a code whose number-system digit is 5. */
  lemma ExpansionOf51234560()
    ensures ExpandUPCE("51234560") == "512345000060"
  {
    ExpandUPCELayoutHigh("51234560");
    assert "51234560"[..6] == "512345";
  }

  /** The number-system digit of a UPC-E code is not restricted to 0 or 1. */
  lemma UPCENumberSystemUnrestricted()
    ensures IsValidUPCE("51234560")
  {
    ExpansionOf51234560();
    ValidUPCAExample512345000060();
    assert IsDigitString("51234560", 8);
  }

  /** "512345000060" passes the UPC-A check. */
  lemma ValidUPCAExample512345000060()
    ensures IsValidUPCA("512345000060")
  {
    assert WeightedSum("512345000060", 3, 3, 1) == 22;
    assert WeightedSum("512345000060", 6, 3, 1) == 42;
    assert WeightedSum("512345000060", 9, 3, 1) == 42;
    assert WeightedSum("512345000060", 11, 3, 1) == 60;
  }

  /** `validateBarcode`: dispatch on the length alone. */
  predicate ValidateBarcode(code: string) {
    if |code| == 13 then IsValidEAN13(code)
    else if |code| == 8 then IsValidEAN8(code) || IsValidUPCE(code)
    else if |code| == 12 then IsValidUPCA(code)
    else false
  }

  /**
   * Only lengths 8, 12 and 13 can be valid, and a code is valid exactly when
   * it is all digits and the standard's check holds on it or, at length 8,
   * on its UPC-A expansion.
   */
  lemma ValidateBarcodeIsGs1Check(code: string)
    ensures |code| != 8 && |code| != 12 && |code| != 13 ==> !ValidateBarcode(code)
    ensures |code| == 13 ==> ValidateBarcode(code) == IsValidEAN13(code)
    ensures |code| == 12 ==> ValidateBarcode(code) == IsValidUPCA(code)
    ensures |code| == 8 ==> ValidateBarcode(code) == (IsValidEAN8(code) || IsValidUPCE(code))
    ensures ValidateBarcode(code) <==>
              IsDigits(code) &&
              (|code| == 13 || |code| == 12 || |code| == 8) &&
              (Gs1CheckHolds(code) || (|code| == 8 && Gs1CheckHolds(ExpandUPCE(code))))
  {
    EAN13IsGs1Check(code);
    EAN8IsGs1Check(code);
    UPCAIsGs1Check(code);
    UPCEIsGs1CheckOfExpansion(code);
  }

  /** The symbologies `identifyBarcodeType` tells apart, with the labels it returns. */
  datatype Symbology = EAN13 | ISBN13 | ISSN | EAN8 | UPCE | UPCA | Unknown {
    function Label(): string {
      match this
      case EAN13 => "EAN-13"
      case ISBN13 => "ISBN-13"
      case ISSN => "ISSN"
      case EAN8 => "EAN-8"
      case UPCE => "UPC-E"
      case UPCA => "UPC-A"
      case Unknown => "Desconhecido"
    }
  }

  /** Distinct symbologies carry distinct labels, so the label string identifies the result. */
  lemma LabelsAreDistinct(s: Symbology, t: Symbology)
    ensures s.Label() == t.Label() <==> s == t
  {
  }

  /** A code carrying the "978"/"979" book prefix. */
  predicate HasBookPrefix(code: string) {
    StartsWith(code, "978") || StartsWith(code, "979")
  }

  /** A code carrying the "977" serial-publication prefix. */
  predicate HasSerialPrefix(code: string) {
    StartsWith(code, "977")
  }

  /**
   * `identifyBarcodeType`: a valid EAN-13 code refined by prefix, an 8-digit
   * code tried as EAN-8 before UPC-E, a valid UPC-A code, or `Unknown`.
   */
  function IdentifyBarcodeType(code: string): Symbology {
    if |code| == 13 && IsValidEAN13(code) then
      if HasBookPrefix(code) then ISBN13
      else if HasSerialPrefix(code) then ISSN
      else EAN13
    else if |code| == 8 then
      if IsValidEAN8(code) then EAN8
      else if IsValidUPCE(code) then UPCE
      else Unknown
    else if |code| == 12 && IsValidUPCA(code) then UPCA
    else Unknown
  }

  /**
   * Classification agrees with validation, and each symbology is named
   * exactly for the codes its rule (and prefix) accepts.
   */
  lemma IdentifyAgreesWithValidate(code: string)
    ensures IdentifyBarcodeType(code) != Unknown <==> ValidateBarcode(code)
    ensures IdentifyBarcodeType(code) == ISBN13 <==> IsValidEAN13(code) && HasBookPrefix(code)
    ensures IdentifyBarcodeType(code) == ISSN <==> IsValidEAN13(code) && HasSerialPrefix(code)
    ensures IdentifyBarcodeType(code) == EAN13 <==>
              IsValidEAN13(code) && !HasBookPrefix(code) && !HasSerialPrefix(code)
    ensures IdentifyBarcodeType(code) == EAN8 <==> IsValidEAN8(code)
    ensures IdentifyBarcodeType(code) == UPCE <==> IsValidUPCE(code) && !IsValidEAN8(code)
    ensures IdentifyBarcodeType(code) == UPCA <==> IsValidUPCA(code)
  {
  }

  /** The expansion of "00000260". */
  lemma ExpansionOf00000260()
    ensures ExpandUPCE("00000260") == "000002000060"
  {
    ExpandUPCELayoutHigh("00000260");
    assert "00000260"[..6] == "000002";
  }

  /** "00000260" passes the EAN-8 check. */
  lemma ValidEAN8Example()
    ensures IsValidEAN8("00000260")
  {
    assert WeightedSum("00000260", 7, 3, 1) == 20;
  }

  /** "00000260" also passes the UPC-E check. */
  lemma ValidUPCEExample()
    ensures IsValidUPCE("00000260")
  {
    ExpansionOf00000260();
    ValidUPCAExample000002000060();
    assert IsDigitString("00000260", 8);
  }

  /** "000002000060" passes the UPC-A check. */
  lemma ValidUPCAExample000002000060()
    ensures IsValidUPCA("000002000060")
  {
    assert WeightedSum("000002000060", 3, 3, 1) == 0;
    assert WeightedSum("000002000060", 6, 3, 1) == 2;
    assert WeightedSum("000002000060", 9, 3, 1) == 2;
    assert WeightedSum("000002000060", 11, 3, 1) == 20;
  }

  /** An 8-digit code valid under both rules is reported as EAN-8. */
  lemma EAN8TakesPrecedenceOverUPCE()
    ensures IsValidEAN8("00000260") && IsValidUPCE("00000260")
    ensures IdentifyBarcodeType("00000260").Label() == "EAN-8"
  {
    ValidEAN8Example();
    ValidUPCEExample();
  }

  /** The expansion of "01234565": the sixth middle digit 6 selects the last pattern. */
  lemma ExpansionOf01234565()
    ensures ExpandUPCE("01234565") == "012345000065"
  {
    ExpandUPCELayoutHigh("01234565");
    assert "01234565"[..6] == "012345";
  }

  /** "01234565" passes the UPC-E check through its expansion. */
  lemma ValidUPCEExample01234565()
    ensures IsValidUPCE("01234565")
  {
    ExpansionOf01234565();
    ValidUPCAExample012345000065();
    assert IsDigitString("01234565", 8);
  }

  /** "012345000065" passes the UPC-A check. */
  lemma ValidUPCAExample012345000065()
    ensures IsValidUPCA("012345000065")
  {
    assert WeightedSum("012345000065", 3, 3, 1) == 7;
    assert WeightedSum("012345000065", 6, 3, 1) == 27;
    assert WeightedSum("012345000065", 9, 3, 1) == 27;
    assert WeightedSum("012345000065", 11, 3, 1) == 45;
  }

  /** "01234565" also passes the EAN-8 check. */
  lemma ValidEAN8Example01234565()
    ensures IsValidEAN8("01234565")
  {
    assert WeightedSum("01234565", 7, 3, 1) == 45;
  }

  /** So the UPC-E example is reported as EAN-8. */
  lemma UPCEExampleIsReportedAsEAN8()
    ensures IsValidUPCE("01234565") && IsValidEAN8("01234565")
    ensures IdentifyBarcodeType("01234565") == EAN8
  {
    ValidUPCEExample01234565();
    ValidEAN8Example01234565();
  }

  const InvalidFormat: string := "Formato inválido"
  const UnknownOrigin: string := "Desconhecido"

  /**
   * `getEANCountry`: for a 13-character code, the origin listed for its
   * three-character prefix, else for its two-character prefix, else
   * `UnknownOrigin`. Digits are not checked.
   */
  function GetEANCountry(code: string): string {
    if |code| != 13 then InvalidFormat
    else
      match OriginByPrefix3(code[..3])
      case Some(origin) => origin
      case None =>
        match OriginByPrefix2(code[..2])
        case Some(origin) => origin
        case None => UnknownOrigin
  }

  /** Neither sentinel string is listed as an origin in either table. */
  lemma NoOriginIsASentinel(key: nat)
    ensures OriginByKey3(key) != Some(InvalidFormat) && OriginByKey3(key) != Some(UnknownOrigin)
    ensures OriginByKey2(key) != Some(InvalidFormat) && OriginByKey2(key) != Some(UnknownOrigin)
  {
  }

  /**
   * "Formato inválido" exactly for a wrong length, the three-character table
   * before the two-character one, and "Desconhecido" exactly when neither
   * table lists the prefix.
   */
  lemma GetEANCountryCases(code: string)
    ensures GetEANCountry(code) == InvalidFormat <==> |code| != 13
    ensures |code| == 13 && OriginByPrefix3(code[..3]).Some? ==>
              GetEANCountry(code) == OriginByPrefix3(code[..3]).value
    ensures |code| == 13 && OriginByPrefix3(code[..3]).None? && OriginByPrefix2(code[..2]).Some? ==>
              GetEANCountry(code) == OriginByPrefix2(code[..2]).value
    ensures GetEANCountry(code) == UnknownOrigin <==>
              |code| == 13 && OriginByPrefix3(code[..3]).None? && OriginByPrefix2(code[..2]).None?
  {
    if |code| == 13 {
      if IsDigitString(code[..3], 3) {
        NoOriginIsASentinel(DecimalValue(code[..3]));
      }
      if IsDigitString(code[..2], 2) {
        NoOriginIsASentinel(DecimalValue(code[..2]));
      }
    }
  }

  /** The origins listed for the book and serial prefixes. */
  lemma BookAndSerialPrefixesListed()
    ensures OriginByPrefix3("978") == Some("Livros (ISBN)")
    ensures OriginByPrefix3("979") == Some("Livros (ISBN)")
    ensures OriginByPrefix3("977") == Some("Publicações periódicas (ISSN)")
  {
    assert OriginByPrefix3("978") == Some("Livros (ISBN)") by {
      DecimalValueOfThreeDigits("978");
    }
    assert OriginByPrefix3("979") == Some("Livros (ISBN)") by {
      DecimalValueOfThreeDigits("979");
    }
    assert OriginByPrefix3("977") == Some("Publicações periódicas (ISSN)") by {
      DecimalValueOfThreeDigits("977");
    }
  }

  /** Books and serials are also reported as such by the origin lookup. */
  lemma BookAndSerialOrigins(code: string)
    ensures IdentifyBarcodeType(code) == ISBN13 ==> GetEANCountry(code) == "Livros (ISBN)"
    ensures IdentifyBarcodeType(code) == ISSN ==> GetEANCountry(code) == "Publicações periódicas (ISSN)"
  {
    if IsValidEAN13(code) && (HasBookPrefix(code) || HasSerialPrefix(code)) {
      BookAndSerialPrefixesListed();
      assert code[..3] == "978" || code[..3] == "979" || code[..3] == "977";
    }
  }

  /** "4006381333931" passes the EAN-13 check. */
  lemma ValidEAN13Example()
    ensures IsValidEAN13("4006381333931")
  {
    assert WeightedSum("4006381333931", 6, 1, 3) == 49;
    assert WeightedSum("4006381333931", 12, 1, 3) == 89;
  }

  /** The prefix "400" of "4006381333931" is listed for Germany. */
  lemma GermanOriginExample()
    ensures GetEANCountry("4006381333931") == "Alemanha"
  {
    var p := "4006381333931"[..3];
    assert p == "400";
    DecimalValueOfThreeDigits(p);
  }

  /** The end-to-end example of a German EAN-13 code. */
  lemma GermanEAN13Example()
    ensures ValidateBarcode("4006381333931")
    ensures IdentifyBarcodeType("4006381333931") == EAN13
    ensures GetEANCountry("4006381333931") == "Alemanha"
  {
    ValidEAN13Example();
    GermanOriginExample();
    assert "4006381333931"[..3] == "400";
  }
}
