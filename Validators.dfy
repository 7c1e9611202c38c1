/**
 * The reusable field predicates of src/utils/validators.js and the two
 * regular expressions of src/utils/constants.js they test against.
 */
module Validators {
  import opened Common
  import opened Text
  import opened Values

  /** `EAN_UPC_LENGTH` of `VALIDATION_RULES`. */
  const EanUpcMinLength: nat := 8
  const EanUpcMaxLength: nat := 14

  /** The values of `FAMILY_STATUS` and of `PRODUCT_LINES`. */
  const FamilyStatuses: seq<string> := ["ACTIVE", "INACTIVE"]
  const ProductLines: seq<string> := ["WIPERS", "FILTRATION", "ENGINE COOLING"]

  // ---------------------------------------------------------------------------
  // The patterns, once as character-class tests and once as the language of
  // the regular expression, with a proof that the two agree.
  // ---------------------------------------------------------------------------

  /** The class `[A-Z_]`. */
  predicate IsUpperOrUnderscore(c: char) {
    ('A' <= c <= 'Z') || c == '_'
  }

  /** `SKU_PATTERN` = `/^SKU-\d+$/`, tested position by position. */
  predicate MatchesSkuPattern(t: string) {
    |t| >= 5 && t[..4] == "SKU-" && AllDigits(t[4..])
  }

  /** `FAMILY_CODE_PATTERN` = `/^FAM_[A-Z_]+_\d{3}$/`, tested position by position. */
  predicate MatchesFamilyCodePattern(t: string) {
    && |t| >= 9
    && t[..4] == "FAM_"
    && (forall i :: 4 <= i < |t| - 4 ==> IsUpperOrUnderscore(t[i]))
    && t[|t| - 4] == '_'
    && AllDigits(t[|t| - 3..])
  }

  /** `/^\d+$/`. */
  predicate MatchesDigitsPattern(t: string) {
    |t| >= 1 && AllDigits(t)
  }

  function SkuOf(digits: string): string {
    "SKU-" + digits
  }

  function FamilyCodeOf(name: string, number: string): string {
    "FAM_" + name + "_" + number
  }

  /** The strings the SKU regular expression accepts: "SKU-" then one or more digits. */
  ghost predicate InSkuLanguage(t: string) {
    exists digits :: t == SkuOf(digits) && |digits| >= 1 && AllDigits(digits)
  }

  /**
   * The strings the family-code regular expression accepts: "FAM_", one or
   * more characters of `[A-Z_]`, "_", then exactly three digits.
   */
  ghost predicate InFamilyCodeLanguage(t: string) {
    exists name, number ::
      && t == FamilyCodeOf(name, number)
      && |name| >= 1 && (forall i :: 0 <= i < |name| ==> IsUpperOrUnderscore(name[i]))
      && |number| == 3 && AllDigits(number)
  }

  lemma SkuPatternIsLanguage(t: string)
    ensures MatchesSkuPattern(t) <==> InSkuLanguage(t)
  {
    if MatchesSkuPattern(t) {
      assert t == SkuOf(t[4..]);
    }
    if InSkuLanguage(t) {
      var digits :| t == SkuOf(digits) && |digits| >= 1 && AllDigits(digits);
      assert t[4..] == digits;
    }
  }

  lemma FamilyCodePatternIsLanguage(t: string)
    ensures MatchesFamilyCodePattern(t) <==> InFamilyCodeLanguage(t)
  {
    if MatchesFamilyCodePattern(t) {
      FamilyCodePatternInLanguage(t);
    }
    if InFamilyCodeLanguage(t) {
      FamilyCodeLanguageMatchesPattern(t);
    }
  }

  lemma FamilyCodePatternInLanguage(t: string)
    requires MatchesFamilyCodePattern(t)
    ensures InFamilyCodeLanguage(t)
  {
    var name, number := t[4..|t| - 4], t[|t| - 3..];
    assert t == FamilyCodeOf(name, number);
    assert forall i :: 0 <= i < |name| ==> name[i] == t[i + 4];
  }

  lemma FamilyCodeLanguageMatchesPattern(t: string)
    requires InFamilyCodeLanguage(t)
    ensures MatchesFamilyCodePattern(t)
  {
    var name, number :|
      && t == FamilyCodeOf(name, number)
      && |name| >= 1 && (forall i :: 0 <= i < |name| ==> IsUpperOrUnderscore(name[i]))
      && |number| == 3 && AllDigits(number);
    FamilyCodeOfLayout(name, number);
    assert forall i :: 4 <= i < |t| - 4 ==> t[i] == name[i - 4];
  }

  /** Where the prefix, the name, the underscore and the number sit in a family code. */
  lemma FamilyCodeOfLayout(name: string, number: string)
    ensures var t := FamilyCodeOf(name, number);
              && |t| == 5 + |name| + |number|
              && t[..4] == "FAM_"
              && (forall i :: 0 <= i < |name| ==> t[i + 4] == name[i])
              && t[4 + |name|] == '_'
              && t[5 + |name|..] == number
  {
  }

  /** The two example codes of the doc comment are accepted; a lower-case name is not. */
  lemma FamilyCodeExamples()
    ensures MatchesFamilyCodePattern("FAM_WIPERS_001")
    ensures MatchesFamilyCodePattern("FAM_FILTER_002")
    ensures !MatchesFamilyCodePattern("FAM_wipers_001")
    ensures !MatchesFamilyCodePattern("FAM__001")
  {
    assert !IsUpperOrUnderscore("FAM_wipers_001"[4]);
  }

  // ---------------------------------------------------------------------------
  // validators.js
  // ---------------------------------------------------------------------------

  /** `!v || typeof v !== 'string'`: the guard every validator starts with. */
  predicate IsNonEmptyString(v: Value) {
    v.Str? && v.s != []
  }

  /** `isValidSKU`: a string whose trimmed value is "SKU-" followed by digits. */
  function IsValidSku(v: Value): (r: bool)
    ensures r <==> v.Str? && InSkuLanguage(Trim(v.s))
  {
    if !IsNonEmptyString(v) then false
    else
      SkuPatternIsLanguage(Trim(v.s));
      MatchesSkuPattern(Trim(v.s))
  }

  /**
   * The doc comment of `isValidSKU` gives "SKU-ABC123" as an example, but
   * the pattern admits digits only after the dash.
   */
  lemma SkuDocExampleRejected()
    ensures IsValidSku(Str("SKU-10001"))
    ensures !IsValidSku(Str("SKU-ABC123"))
  {
    SkuNumericExample();
    SkuAlphanumericExample();
  }

  lemma SkuNumericExample()
    ensures IsValidSku(Str("SKU-10001"))
  {
    TrimUnchanged("SKU-10001");
    assert MatchesSkuPattern(Trim("SKU-10001"));
  }

  lemma SkuAlphanumericExample()
    ensures !IsValidSku(Str("SKU-ABC123"))
  {
    TrimUnchanged("SKU-ABC123");
    assert !IsDigit("SKU-ABC123"[4..][0]);
  }

  /** `isValidFamilyCode`: a string whose trimmed value matches the family-code pattern. */
  function IsValidFamilyCode(v: Value): (r: bool)
    ensures r <==> v.Str? && InFamilyCodeLanguage(Trim(v.s))
  {
    if !IsNonEmptyString(v) then false
    else
      FamilyCodePatternIsLanguage(Trim(v.s));
      MatchesFamilyCodePattern(Trim(v.s))
  }

  /**
   * `isValidEanUpc`: a string whose trimmed value is 8 to 14 digits. The
   * length is read only once the text is all digits, where JavaScript's
   * `length` is the character count (`DigitsUtf16Length`).
   */
  function IsValidEanUpc(v: Value): (r: bool)
    ensures r <==> v.Str? && AllDigits(Trim(v.s))
                   && EanUpcMinLength <= |Trim(v.s)| <= EanUpcMaxLength
  {
    if !IsNonEmptyString(v) then false
    else
      var trimmed := Trim(v.s);
      if !MatchesDigitsPattern(trimmed) then false
      else EanUpcMinLength <= |trimmed| <= EanUpcMaxLength
  }

  /** Seven digits are too few, eight are enough (and fourteen the most). */
  lemma EanUpcLengthBoundary()
    ensures !IsValidEanUpc(Str("1234567"))
    ensures IsValidEanUpc(Str("12345678"))
    ensures IsValidEanUpc(Str("12345678901234"))
    ensures !IsValidEanUpc(Str("123456789012345"))
  {
    EanUpcShortBoundary();
    EanUpcLongBoundary();
  }

  lemma EanUpcShortBoundary()
    ensures !IsValidEanUpc(Str("1234567"))
    ensures IsValidEanUpc(Str("12345678"))
  {
    EanUpcDigitsExample("1234567");
    EanUpcDigitsExample("12345678");
  }

  lemma EanUpcLongBoundary()
    ensures IsValidEanUpc(Str("12345678901234"))
    ensures !IsValidEanUpc(Str("123456789012345"))
  {
    EanUpcDigitsExample("12345678901234");
    EanUpcDigitsExample("123456789012345");
  }

  lemma EanUpcDigitsExample(s: string)
    requires s != [] && !IsWhitespace(s[0]) && !IsWhitespace(s[|s| - 1])
    ensures IsValidEanUpc(Str(s)) == (AllDigits(s) && EanUpcMinLength <= |s| <= EanUpcMaxLength)
  {
    TrimUnchanged(s);
  }

  /** `allowedLines.includes(v.trim().toUpperCase())` after the string guard. */
  function IsAllowedUpper(v: Value, allowed: seq<string>): bool {
    if !IsNonEmptyString(v) then false else ToUpper(Trim(v.s)) in allowed
  }

  /** `isValidProductLine`: case-insensitive membership of the trimmed value in `allowedLines`. */
  function IsValidProductLine(v: Value, allowedLines: seq<string>): (r: bool)
    ensures r ==> v.Str? && v.s != []
    ensures !v.Str? ==> !r
  {
    IsAllowedUpper(v, allowedLines)
  }

  /** `isValidStatus`: case-insensitive membership of the trimmed value in `allowedStatuses`. */
  function IsValidStatus(v: Value, allowedStatuses: seq<string>): (r: bool)
    ensures r ==> v.Str? && v.s != []
    ensures !v.Str? ==> !r
  {
    IsAllowedUpper(v, allowedStatuses)
  }

  /** Both list checks ignore letter case: a string and its upper-cased form get the same verdict. */
  lemma AllowedListIsCaseInsensitive(s: string, allowed: seq<string>)
    ensures IsValidStatus(Str(s), allowed) == IsValidStatus(Str(ToUpper(s)), allowed)
    ensures IsValidProductLine(Str(s), allowed) == IsValidProductLine(Str(ToUpper(s)), allowed)
  {
    TrimToUpperCommute(s);
    ToUpperIdempotent(Trim(s));
  }

  /** Against the catalog's product lines, "wipers" is accepted whatever its case and an unknown line is not. */
  lemma ProductLineExamples()
    ensures IsValidProductLine(Str("wipers"), ProductLines)
    ensures !IsValidProductLine(Str("BRAKES"), ProductLines)
  {
    UpperTrimmed("wipers");
    UpperWipers();
    UpperTrimmed("BRAKES");
    UpperBrakes();
  }

  /** A word that begins and ends with an ASCII letter is looked up as its upper-case form. */
  lemma UpperTrimmed(word: string)
    requires word != [] && 'A' <= UpperChar(word[0]) <= 'Z' && 'A' <= UpperChar(word[|word| - 1]) <= 'Z'
    ensures forall allowed :: IsAllowedUpper(Str(word), allowed) <==> ToUpper(word) in allowed
  {
    LetterIsNotWhitespace(word[0]);
    LetterIsNotWhitespace(word[|word| - 1]);
    TrimUnchanged(word);
  }

  lemma LetterIsNotWhitespace(c: char)
    requires 'A' <= UpperChar(c) <= 'Z'
    ensures !IsWhitespace(c)
  {
  }

  lemma UpperWipers()
    ensures ToUpper("wipers") == ProductLines[0]
  {
  }

  lemma UpperBrakes()
    ensures ToUpper("BRAKES") !in ProductLines
  {
    assert ToUpper("BRAKES")[0] == 'B';
  }

  /** `isValidStatus` accepts a lower-case status. */
  lemma LowerCaseStatusAccepted()
    ensures IsValidStatus(Str("active"), FamilyStatuses)
  {
    TrimUnchanged("active");
    assert ToUpper("active") == "ACTIVE";
  }

  /** `sanitizeString`: `null` for null and undefined, otherwise `String(v).trim()`. */
  function SanitizeString(v: Value): (r: Option<string>)
    ensures r.None? <==> v.Null? || v.Undefined?
    ensures v.Str? ==> r == Some(Trim(v.s))
    ensures v.Num? ==> r == Some(ToJsString(v)) && r.value != []
    ensures v.Num? && v.n >= 0 ==> AllDigits(r.value) && DigitsValue(r.value) == v.n
    ensures v.Bool? ==> r == Some(if v.b then "true" else "false")
    ensures r.Some? ==> r.value == [] || !IsWhitespace(r.value[0])
  {
    if v.Null? || v.Undefined? then None
    else
      if v.Str? then Some(Trim(v.s))
      else
        ToJsStringReadsBack(v);
        TrimUnchanged(ToJsString(v));
        Some(Trim(ToJsString(v)))
  }

  /** Sanitising a sanitised string changes nothing. */
  lemma SanitizeStringIdempotent(s: string)
    ensures SanitizeString(Str(SanitizeString(Str(s)).value)) == SanitizeString(Str(s))
  {
    TrimIdempotent(s);
  }

  /** `isEmpty`: null, undefined and whitespace-only strings; never any other value. */
  function IsEmpty(v: Value): (r: bool)
    ensures r <==> v.Null? || v.Undefined? || (v.Str? && AllWhitespace(v.s))
  {
    if v.Null? || v.Undefined? then true
    else if !v.Str? then false
    else
      TrimEmptyIffBlank(v.s);
      |Trim(v.s)| == 0
  }

  /** The `{ valid, error }` object the two field checks return. */
  datatype FieldCheck = FieldCheck(valid: bool, error: Option<string>)

  /** `validateRequired`: invalid with "<fieldName> is required" exactly when the value is empty. */
  function ValidateRequired(v: Value, fieldName: string): (r: FieldCheck)
    ensures r.valid <==> !(v.Null? || v.Undefined? || (v.Str? && AllWhitespace(v.s)))
    ensures r.valid <==> r.error.None?
    ensures !r.valid ==> r.error == Some(fieldName + " is required")
  {
    if IsEmpty(v) then FieldCheck(false, Some(fieldName + " is required"))
    else FieldCheck(true, None)
  }

  /**
   * `validateLength`: a non-empty string whose trimmed length lies in
   * [min, max]; a falsy or non-string value is reported as not a string.
   */
  function ValidateLength(v: Value, min: int, max: int, fieldName: string): (r: FieldCheck)
    ensures r.valid <==> IsNonEmptyString(v) && min <= Utf16Length(Trim(v.s)) <= max
    ensures r.valid <==> r.error.None?
    ensures !IsNonEmptyString(v) ==> r.error == Some(fieldName + " must be a string")
    ensures IsNonEmptyString(v) && !r.valid ==>
              r.error == Some(fieldName + " must be between " + IntToString(min)
                              + " and " + IntToString(max) + " characters")
  {
    if !IsNonEmptyString(v) then FieldCheck(false, Some(fieldName + " must be a string"))
    else
      var length := Utf16Length(Trim(v.s));
      if length < min || length > max then
        FieldCheck(false, Some(fieldName + " must be between " + IntToString(min)
                               + " and " + IntToString(max) + " characters"))
      else FieldCheck(true, None)
  }

  /**
   * The length is JavaScript's: one emoji is a single character but two code
   * units, so it meets a minimum length of 2.
   */
  lemma AstralCharacterCountsTwice()
    ensures |"\U{1F600}"| == 1
    ensures ValidateLength(Str("\U{1F600}"), 2, 10, "Name").valid
  {
    TrimUnchanged("\U{1F600}");
  }

  /**
   * A whitespace-only string gets past the "must be a string" guard and is
   * refused for its length instead.
   */
  lemma BlankStringFailsOnLength(n: nat, min: int, max: int, fieldName: string)
    requires n >= 1 && min >= 1
    ensures !ValidateLength(Str(seq(n, _ => ' ')), min, max, fieldName).valid
    ensures ValidateLength(Str(seq(n, _ => ' ')), min, max, fieldName).error
            != Some(fieldName + " must be a string")
  {
    var s := seq(n, _ => ' ');
    TrimEmptyIffBlank(s);
    assert |(fieldName + " must be a string")| != |(fieldName + " must be between " + IntToString(min)
                              + " and " + IntToString(max) + " characters")|;
  }
}
