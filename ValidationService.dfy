/**
 * `validateFamily` and `validateProduct` of src/services/validation.service.js:
 * run a schema with `abortEarly: false` and return `{ isValid, errors, data }`.
 * Their contracts compare the schemas with a key-by-key statement of what
 * each key admits, written with the validator languages.
 */
module ValidationService {
  import opened Common
  import opened Text
  import opened Values
  import opened Validators
  import opened Schemas

  /** The object both validation calls return. */
  datatype Validation<T> = Validation(isValid: bool, errors: Option<seq<string>>, data: Option<T>)

  // ---------------------------------------------------------------------------
  // What each key admits
  // ---------------------------------------------------------------------------

  ghost predicate NonBlankString(v: Value) {
    v.Str? && !AllWhitespace(v.s)
  }

  ghost predicate FamilyCodeAcceptable(v: Value) {
    v.Str? && InFamilyCodeLanguage(Trim(v.s))
  }

  ghost predicate StatusAcceptable(v: Value) {
    v.Str? && Trim(v.s) in FamilyStatuses
  }

  ghost predicate SkuAcceptable(v: Value) {
    v.Str? && InSkuLanguage(Trim(v.s))
  }

  ghost predicate EanUpcAcceptable(v: Value) {
    v.Str? && AllDigits(Trim(v.s)) && EanUpcMinLength <= |Trim(v.s)| <= EanUpcMaxLength
  }

  ghost predicate VehicleTypeAcceptable(v: Value) {
    v.Undefined? || v.Null? || v.Str?
  }

  ghost predicate FamilyRowAcceptable(row: FamilyRow) {
    && row.rowNumber.Num?
    && FamilyCodeAcceptable(row.familyCode)
    && NonBlankString(row.familyName)
    && NonBlankString(row.productLine)
    && NonBlankString(row.brand)
    && StatusAcceptable(row.status)
  }

  ghost predicate ProductRowAcceptable(row: ProductRow) {
    && row.rowNumber.Num?
    && SkuAcceptable(row.sku)
    && NonBlankString(row.name)
    && NonBlankString(row.familyCode)
    && EanUpcAcceptable(row.eanUpc)
    && VehicleTypeAcceptable(row.vehicleType)
  }

  function Indicator(broken: bool): nat {
    if broken then 1 else 0
  }

  /** How many keys of a family row break their rule. */
  ghost function BrokenFamilyKeys(row: FamilyRow): nat {
    Indicator(!row.rowNumber.Num?)
    + Indicator(!FamilyCodeAcceptable(row.familyCode))
    + Indicator(!NonBlankString(row.familyName))
    + Indicator(!NonBlankString(row.productLine))
    + Indicator(!NonBlankString(row.brand))
    + Indicator(!StatusAcceptable(row.status))
  }

  /** How many keys of a product row break their rule. */
  ghost function BrokenProductKeys(row: ProductRow): nat {
    Indicator(!row.rowNumber.Num?)
    + Indicator(!SkuAcceptable(row.sku))
    + Indicator(!NonBlankString(row.name))
    + Indicator(!NonBlankString(row.familyCode))
    + Indicator(!EanUpcAcceptable(row.eanUpc))
    + Indicator(!VehicleTypeAcceptable(row.vehicleType))
  }

  /** Each key of the family schema reports nothing exactly when the key is acceptable. */
  lemma FamilyKeysAgree(row: FamilyRow)
    ensures CheckString(FamilyCodeKey, row.familyCode) == [] <==> FamilyCodeAcceptable(row.familyCode)
    ensures CheckString(FamilyNameKey, row.familyName) == [] <==> NonBlankString(row.familyName)
    ensures CheckString(ProductLineKey, row.productLine) == [] <==> NonBlankString(row.productLine)
    ensures CheckString(BrandKey, row.brand) == [] <==> NonBlankString(row.brand)
    ensures CheckString(StatusKey, row.status) == [] <==> StatusAcceptable(row.status)
  {
    FamilyCodeKeyAccepts(row.familyCode);
    PlainKeyAccepts("Family Name", row.familyName);
    PlainKeyAccepts("Product Line", row.productLine);
    PlainKeyAccepts("Brand", row.brand);
    StatusKeyAccepts(row.status);
  }

  /** Each key of the product schema reports nothing exactly when the key is acceptable. */
  lemma ProductKeysAgree(row: ProductRow)
    ensures CheckString(SkuKey, row.sku) == [] <==> SkuAcceptable(row.sku)
    ensures CheckString(ProductNameKey, row.name) == [] <==> NonBlankString(row.name)
    ensures CheckString(ProductFamilyCodeKey, row.familyCode) == [] <==> NonBlankString(row.familyCode)
    ensures CheckString(EanUpcKey, row.eanUpc) == [] <==> EanUpcAcceptable(row.eanUpc)
    ensures CheckString(VehicleTypeKey, row.vehicleType) == [] <==> VehicleTypeAcceptable(row.vehicleType)
  {
    SkuKeyAccepts(row.sku);
    PlainKeyAccepts("Product Name", row.name);
    PlainKeyAccepts("Family Code", row.familyCode);
    EanUpcKeyAccepts(row.eanUpc);
    VehicleTypeKeyAccepts(row.vehicleType);
  }

  /** The value Joi hands back: every string key trimmed, everything else as given. */
  function ValidatedFamily(row: FamilyRow): FamilyRow {
    FamilyRow(row.rowNumber, TrimValue(row.familyCode), TrimValue(row.familyName),
              TrimValue(row.productLine), TrimValue(row.brand), TrimValue(row.status))
  }

  function ValidatedProduct(row: ProductRow): ProductRow {
    ProductRow(row.rowNumber, TrimValue(row.sku), TrimValue(row.name),
               TrimValue(row.familyCode), TrimValue(row.eanUpc), TrimValue(row.vehicleType))
  }

  /**
   * `validateFamily`: valid exactly when every key is acceptable; then no
   * errors and the trimmed row, otherwise every message and no data.
   */
  function ValidateFamily(row: FamilyRow): (r: Validation<FamilyRow>)
    ensures r.isValid <==> FamilyRowAcceptable(row)
    ensures r.isValid <==> r.errors.None?
    ensures r.isValid ==> r.data == Some(ValidatedFamily(row))
    ensures !r.isValid ==> r.data.None? && r.errors == Some(FamilyErrors(row)) && FamilyErrors(row) != []
  {
    FamilyKeysAgree(row);
    var errors := FamilyErrors(row);
    if errors != [] then Validation(false, Some(errors), None)
    else Validation(true, None, Some(ValidatedFamily(row)))
  }

  /**
   * `validateProduct`: valid exactly when every key is acceptable; then no
   * errors and the trimmed row, otherwise every message and no data.
   */
  function ValidateProduct(row: ProductRow): (r: Validation<ProductRow>)
    ensures r.isValid <==> ProductRowAcceptable(row)
    ensures r.isValid <==> r.errors.None?
    ensures r.isValid ==> r.data == Some(ValidatedProduct(row))
    ensures !r.isValid ==> r.data.None? && r.errors == Some(ProductErrors(row)) && ProductErrors(row) != []
  {
    ProductKeysAgree(row);
    var errors := ProductErrors(row);
    if errors != [] then Validation(false, Some(errors), None)
    else Validation(true, None, Some(ValidatedProduct(row)))
  }

  /** Every broken key of a family row contributes at least one message: nothing stops at the first. */
  lemma AllFamilyViolationsReported(row: FamilyRow)
    ensures |FamilyErrors(row)| >= BrokenFamilyKeys(row)
  {
    FamilyKeysAgree(row);
  }

  /** Every broken key of a product row contributes at least one message: nothing stops at the first. */
  lemma AllProductViolationsReported(row: ProductRow)
    ensures |ProductErrors(row)| >= BrokenProductKeys(row)
  {
    ProductKeysAgree(row);
  }

  /**
   * A product row that passes validation has a string key, name, family
   * code and barcode, so it can be written to the store.
   */
  lemma ValidProductHasStrings(row: ProductRow)
    requires ValidateProduct(row).isValid
    ensures row.sku.Str? && row.name.Str? && row.familyCode.Str? && row.eanUpc.Str?
    ensures row.sku.s != [] && row.familyCode.s != []
  {
  }
}
