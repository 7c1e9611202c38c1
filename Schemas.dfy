/**
 * The two Joi object schemas of src/utils/schemas.js, as functions from a
 * parsed row to the list of messages Joi reports for it with
 * `abortEarly: false` (every violation, keys in declaration order).
 *
 * A string key `Joi.string().trim()...` is checked the way Joi 17 checks
 * any value: a missing value is reported as required (or accepted when the
 * key is optional); a present string is trimmed; a value in the key's
 * allowed list is accepted at once; a key restricted to that list (`valid`)
 * reports `any.only` and goes on; a non-string or an empty string is then
 * reported once and ends the key; otherwise every rule (pattern, min, max)
 * is checked and each one that fails adds its message.
 */
module Schemas {
  import opened Common
  import opened Text
  import opened Values
  import opened Validators

  /** A parsed row of the families file. */
  datatype FamilyRow = FamilyRow(
    rowNumber: Value,
    familyCode: Value,
    familyName: Value,
    productLine: Value,
    brand: Value,
    status: Value)

  /** A parsed row of the products file. */
  datatype ProductRow = ProductRow(
    rowNumber: Value,
    sku: Value,
    name: Value,
    familyCode: Value,
    eanUpc: Value,
    vehicleType: Value)

  /** The three regular expressions a schema key can carry. */
  datatype Pattern = FamilyCodePattern | SkuPattern | DigitsPattern

  predicate PatternMatches(p: Pattern, t: string) {
    match p
    case FamilyCodePattern => MatchesFamilyCodePattern(t)
    case SkuPattern => MatchesSkuPattern(t)
    case DigitsPattern => MatchesDigitsPattern(t)
  }

  /** A rule of a string key, with the message it reports when it fails. */
  datatype Rule =
    | Matches(pattern: Pattern, message: string)
    | MinLength(limit: nat, message: string)
    | MaxLength(limit: nat, message: string)

  predicate RuleHolds(rule: Rule, t: string) {
    match rule
    case Matches(p, _) => PatternMatches(p, t)
    case MinLength(n, _) => Utf16Length(t) >= n
    case MaxLength(n, _) => Utf16Length(t) <= n
  }

  /**
   * A `Joi.string().trim()` key: whether it is required, the values `allow`
   * or `valid` admit, whether `valid` restricts the key to them, the rules
   * and the messages for `any.only`, `string.base`, `any.required` and
   * `string.empty`.
   */
  datatype StringKey = StringKey(
    required: bool,
    allowed: seq<Value>,
    only: bool,
    onlyMessage: string,
    baseMessage: string,
    requiredMessage: string,
    emptyMessage: string,
    rules: seq<Rule>)

  /** The messages of the rules `t` breaks, in rule order. */
  function RuleErrors(rules: seq<Rule>, t: string): (r: seq<string>)
    ensures |r| <= |rules|
    ensures r == [] <==> forall i :: 0 <= i < |rules| ==> RuleHolds(rules[i], t)
    ensures forall i :: 0 <= i < |rules| && !RuleHolds(rules[i], t) ==> rules[i].message in r
    ensures forall m :: m in r ==> BrokenRuleMessage(rules, t, m)
    decreases |rules|
  {
    if rules == [] then []
    else
      (if RuleHolds(rules[0], t) then [] else [rules[0].message]) + RuleErrors(rules[1..], t)
  }

  /** `m` is the message of a rule that `t` breaks. */
  ghost predicate BrokenRuleMessage(rules: seq<Rule>, t: string, m: string) {
    exists i :: 0 <= i < |rules| && rules[i].message == m && !RuleHolds(rules[i], t)
  }

  /**
   * The messages Joi reports for one string key. A present value that is
   * not allowed outright reports `any.only` first when the key is restricted;
   * then a non-string reports `string.base` and an empty string
   * `string.empty`, and nothing more; any other string reports the message
   * of every rule it breaks and no other.
   */
  function CheckString(key: StringKey, v: Value): (r: seq<string>)
    ensures v.Undefined? ==> (r == [] <==> !key.required)
    ensures v.Undefined? && key.required ==> r == [key.requiredMessage]
    ensures !v.Undefined? && TrimValue(v) in key.allowed ==> r == []
    ensures !v.Undefined? && TrimValue(v) !in key.allowed && r == [] ==>
              !key.only && v.Str? && Trim(v.s) != []
    ensures !v.Undefined? && TrimValue(v) !in key.allowed && key.only ==>
              |r| >= 1 && r[0] == key.onlyMessage
    ensures !v.Undefined? && TrimValue(v) !in key.allowed && !v.Str? ==>
              |r| == (if key.only then 2 else 1) && r[|r| - 1] == key.baseMessage
    ensures v.Str? && TrimValue(v) !in key.allowed && Trim(v.s) == [] ==>
              |r| == (if key.only then 2 else 1) && r[|r| - 1] == key.emptyMessage
    ensures v.Str? && TrimValue(v) !in key.allowed && Trim(v.s) != [] ==>
              && (forall i :: 0 <= i < |key.rules| && !RuleHolds(key.rules[i], Trim(v.s)) ==>
                                key.rules[i].message in r)
              && (forall m :: m in r ==> (key.only && m == key.onlyMessage)
                                         || BrokenRuleMessage(key.rules, Trim(v.s), m))
  {
    if v.Undefined? then
      if key.required then [key.requiredMessage] else []
    else
      var w := TrimValue(v);
      if w in key.allowed then []
      else
        var only := if key.only then [key.onlyMessage] else [];
        if !w.Str? then only + [key.baseMessage]
        else if w.s == [] then only + [key.emptyMessage]
        else only + RuleErrors(key.rules, w.s)
  }

  /** `Joi.number().required()` on the `rowNumber` key (numeric strings are not converted here). */
  function CheckRowNumber(v: Value): (r: seq<string>)
    ensures r == [] <==> v.Num?
    ensures |r| <= 1
  {
    if v.Num? then []
    else if v.Undefined? then ["\"rowNumber\" is required"]
    else ["\"rowNumber\" must be a number"]
  }

  // ---------------------------------------------------------------------------
  // familySchema
  // ---------------------------------------------------------------------------

  const FamilyCodeKey := StringKey(
    true, [], false, "",
    "Family Code must be a string",
    "Family Code is required",
    "Family Code cannot be empty",
    [Matches(FamilyCodePattern, "Family Code must match pattern (e.g., FAM_WIPERS_001)")])

  /** A required trimmed string with no further rule, labelled for its messages. */
  function PlainKey(caption: string): StringKey {
    StringKey(true, [], false, "",
              caption + " must be a string", caption + " is required", caption + " cannot be empty", [])
  }

  const FamilyNameKey := PlainKey("Family Name")
  const ProductLineKey := PlainKey("Product Line")
  const BrandKey := PlainKey("Brand")

  const StatusKey := StringKey(
    true, [Str("ACTIVE"), Str("INACTIVE")], true,
    "Status must be either ACTIVE or INACTIVE",
    "Status must be a string",
    "Status is required",
    "Status cannot be empty",
    [])

  /** `familySchema.validate(row, { abortEarly: false })`: every message, keys in order. */
  function FamilyErrors(row: FamilyRow): (r: seq<string>)
    ensures r == [] <==> && CheckRowNumber(row.rowNumber) == [] && CheckString(FamilyCodeKey, row.familyCode) == []
                         && CheckString(FamilyNameKey, row.familyName) == []
                         && CheckString(ProductLineKey, row.productLine) == []
                         && CheckString(BrandKey, row.brand) == [] && CheckString(StatusKey, row.status) == []
    ensures forall m :: m in r <==> || m in CheckRowNumber(row.rowNumber) || m in CheckString(FamilyCodeKey, row.familyCode)
                                    || m in CheckString(FamilyNameKey, row.familyName)
                                    || m in CheckString(ProductLineKey, row.productLine)
                                    || m in CheckString(BrandKey, row.brand) || m in CheckString(StatusKey, row.status)
  {
    CheckRowNumber(row.rowNumber)
    + CheckString(FamilyCodeKey, row.familyCode)
    + CheckString(FamilyNameKey, row.familyName)
    + CheckString(ProductLineKey, row.productLine)
    + CheckString(BrandKey, row.brand)
    + CheckString(StatusKey, row.status)
  }

  // ---------------------------------------------------------------------------
  // productSchema
  // ---------------------------------------------------------------------------

  const SkuKey := StringKey(
    true, [], false, "",
    "SKU must be a string",
    "SKU is required",
    "SKU cannot be empty",
    [Matches(SkuPattern, "SKU must match pattern (e.g., SKU-12345)")])

  const ProductNameKey := PlainKey("Product Name")
  const ProductFamilyCodeKey := PlainKey("Family Code")

  /** The pattern, then `min(8)` and `max(14)`; the last two keep Joi's default messages. */
  const EanUpcKey := StringKey(
    true, [], false, "",
    "EAN UPC must be a string",
    "EAN UPC is required",
    "\"eanUpc\" is not allowed to be empty",
    [ Matches(DigitsPattern, "EAN UPC must be 8-14 digits"),
      MinLength(EanUpcMinLength, "\"eanUpc\" length must be at least 8 characters long"),
      MaxLength(EanUpcMaxLength, "\"eanUpc\" length must be less than or equal to 14 characters long")])

  /** `allow(null, "")` and `optional()`: only a value of another type is refused. */
  const VehicleTypeKey := StringKey(
    false, [Null, Str("")], false, "",
    "Vehicle Type must be a string",
    "\"vehicleType\" is required",
    "\"vehicleType\" is not allowed to be empty",
    [])

  /** `productSchema.validate(row, { abortEarly: false })`: every message, keys in order. */
  function ProductErrors(row: ProductRow): (r: seq<string>)
    ensures r == [] <==> && CheckRowNumber(row.rowNumber) == [] && CheckString(SkuKey, row.sku) == []
                         && CheckString(ProductNameKey, row.name) == []
                         && CheckString(ProductFamilyCodeKey, row.familyCode) == []
                         && CheckString(EanUpcKey, row.eanUpc) == [] && CheckString(VehicleTypeKey, row.vehicleType) == []
    ensures forall m :: m in r <==> || m in CheckRowNumber(row.rowNumber) || m in CheckString(SkuKey, row.sku)
                                    || m in CheckString(ProductNameKey, row.name)
                                    || m in CheckString(ProductFamilyCodeKey, row.familyCode)
                                    || m in CheckString(EanUpcKey, row.eanUpc)
                                    || m in CheckString(VehicleTypeKey, row.vehicleType)
  {
    CheckRowNumber(row.rowNumber)
    + CheckString(SkuKey, row.sku)
    + CheckString(ProductNameKey, row.name)
    + CheckString(ProductFamilyCodeKey, row.familyCode)
    + CheckString(EanUpcKey, row.eanUpc)
    + CheckString(VehicleTypeKey, row.vehicleType)
  }

  // ---------------------------------------------------------------------------
  // What each key accepts
  // ---------------------------------------------------------------------------

  /** A family code is accepted exactly when its trimmed value is in the family-code language. */
  lemma FamilyCodeKeyAccepts(v: Value)
    ensures CheckString(FamilyCodeKey, v) == [] <==> v.Str? && InFamilyCodeLanguage(Trim(v.s))
  {
    if v.Str? {
      FamilyCodePatternIsLanguage(Trim(v.s));
    }
  }

  /** The schema and `isValidFamilyCode` accept the same family codes. */
  lemma FamilyCodeKeyAgreesWithValidator(v: Value)
    ensures CheckString(FamilyCodeKey, v) == [] <==> IsValidFamilyCode(v)
  {
    FamilyCodeKeyAccepts(v);
  }

  /** A plain required key accepts exactly the strings that are not whitespace only. */
  lemma PlainKeyAccepts(caption: string, v: Value)
    ensures CheckString(PlainKey(caption), v) == [] <==> v.Str? && !AllWhitespace(v.s)
  {
    if v.Str? {
      TrimEmptyIffBlank(v.s);
    }
  }

  /**
   * On strings, a plain required key agrees with `validateRequired`; unlike
   * it, the key also refuses numbers and booleans.
   */
  lemma PlainKeyAgreesWithValidateRequired(caption: string, fieldName: string, v: Value)
    ensures v.Str? ==> (CheckString(PlainKey(caption), v) == [] <==> ValidateRequired(v, fieldName).valid)
    ensures v.Num? ==> CheckString(PlainKey(caption), v) == [caption + " must be a string"]
                       && ValidateRequired(v, fieldName).valid
  {
    PlainKeyAccepts(caption, v);
  }

  /** The status key accepts exactly "ACTIVE" and "INACTIVE" after trimming, letter case included. */
  lemma StatusKeyAccepts(v: Value)
    ensures CheckString(StatusKey, v) == [] <==> v.Str? && Trim(v.s) in FamilyStatuses
  {
  }

  /**
   * The schema refuses a lower-case status that `isValidStatus` accepts,
   * and reports an empty status twice: once as not allowed, once as empty.
   */
  lemma StatusKeyIsCaseSensitive()
    ensures CheckString(StatusKey, Str("active")) == ["Status must be either ACTIVE or INACTIVE"]
    ensures IsValidStatus(Str("active"), FamilyStatuses)
    ensures CheckString(StatusKey, Str("")) ==
              ["Status must be either ACTIVE or INACTIVE", "Status cannot be empty"]
  {
    StatusKeyRejectsLowerCase();
    StatusKeyEmptyMessages();
    LowerCaseStatusAccepted();
  }

  lemma StatusKeyRejectsLowerCase()
    ensures CheckString(StatusKey, Str("active")) == ["Status must be either ACTIVE or INACTIVE"]
  {
    TrimUnchanged("active");
  }

  lemma StatusKeyEmptyMessages()
    ensures CheckString(StatusKey, Str("")) ==
              ["Status must be either ACTIVE or INACTIVE", "Status cannot be empty"]
  {
    TrimUnchanged("");
  }

  /** A SKU is accepted exactly when its trimmed value is in the SKU language, as for `isValidSKU`. */
  lemma SkuKeyAccepts(v: Value)
    ensures CheckString(SkuKey, v) == [] <==> v.Str? && InSkuLanguage(Trim(v.s))
    ensures CheckString(SkuKey, v) == [] <==> IsValidSku(v)
  {
    if v.Str? {
      SkuPatternIsLanguage(Trim(v.s));
    }
  }

  /** An EAN/UPC is accepted exactly when its trimmed value is 8 to 14 digits, as for `isValidEanUpc`. */
  lemma EanUpcKeyAccepts(v: Value)
    ensures CheckString(EanUpcKey, v) == [] <==>
              v.Str? && AllDigits(Trim(v.s)) && EanUpcMinLength <= |Trim(v.s)| <= EanUpcMaxLength
    ensures CheckString(EanUpcKey, v) == [] <==> IsValidEanUpc(v)
  {
    if v.Str? && Trim(v.s) != [] {
      var t := Trim(v.s);
      var rules := EanUpcKey.rules;
      assert RuleHolds(rules[0], t) <==> AllDigits(t);
      if AllDigits(t) {
        DigitsUtf16Length(t);
        assert RuleHolds(rules[1], t) <==> |t| >= EanUpcMinLength;
        assert RuleHolds(rules[2], t) <==> |t| <= EanUpcMaxLength;
      }
    }
  }

  /** A vehicle type may be missing, null or any string; nothing else. */
  lemma VehicleTypeKeyAccepts(v: Value)
    ensures CheckString(VehicleTypeKey, v) == [] <==> v.Undefined? || v.Null? || v.Str?
  {
    if v.Str? && Trim(v.s) == [] {
      assert TrimValue(v) == Str("");
    }
  }

  /** A family row with no keys at all gets one "required" message per key, in key order. */
  lemma EmptyFamilyRowErrors()
    ensures FamilyErrors(FamilyRow(Undefined, Undefined, Undefined, Undefined, Undefined, Undefined))
            == [ "\"rowNumber\" is required", "Family Code is required", "Family Name is required",
                 "Product Line is required", "Brand is required", "Status is required"]
  {
    MissingFamilyKeyMessages();
  }

  lemma MissingFamilyKeyMessages()
    ensures CheckRowNumber(Undefined) == ["\"rowNumber\" is required"]
    ensures CheckString(FamilyCodeKey, Undefined) == ["Family Code is required"]
    ensures CheckString(FamilyNameKey, Undefined) == ["Family Name is required"]
    ensures CheckString(ProductLineKey, Undefined) == ["Product Line is required"]
    ensures CheckString(BrandKey, Undefined) == ["Brand is required"]
    ensures CheckString(StatusKey, Undefined) == ["Status is required"]
  {
    MissingPlainKeyMessages();
  }

  lemma MissingPlainKeyMessages()
    ensures CheckString(FamilyNameKey, Undefined) == ["Family Name is required"]
    ensures CheckString(ProductLineKey, Undefined) == ["Product Line is required"]
    ensures CheckString(BrandKey, Undefined) == ["Brand is required"]
  {
    MissingFamilyName();
    MissingProductLine();
    MissingBrand();
  }

  lemma MissingFamilyName()
    ensures CheckString(FamilyNameKey, Undefined) == ["Family Name is required"]
  {
    MissingPlainKey("Family Name");
    assert "Family Name" + " is required" == "Family Name is required";
  }

  lemma MissingProductLine()
    ensures CheckString(ProductLineKey, Undefined) == ["Product Line is required"]
  {
    MissingPlainKey("Product Line");
    assert "Product Line" + " is required" == "Product Line is required";
  }

  lemma MissingBrand()
    ensures CheckString(BrandKey, Undefined) == ["Brand is required"]
  {
    MissingPlainKey("Brand");
    assert "Brand" + " is required" == "Brand is required";
  }

  lemma MissingPlainKey(caption: string)
    ensures CheckString(PlainKey(caption), Undefined) == [caption + " is required"]
  {
  }
}
