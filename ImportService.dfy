/**
 * `processImport` of src/services/import.service.js: every family row, then
 * every product row, in input order, is validated and, when valid, upserted
 * into the store; eight counters and two failure lists record what became
 * of each row, and the failure lists are exported at the end. There is no
 * transaction: a row written stays written whatever happens later.
 *
 * `FamilyPhase` and `ProductPhase` state what the two loops compute, for
 * any validation function; `ImportFamilies` and `ImportProducts` are the
 * loops, proved against them, and `ProcessImport` runs them with
 * `ValidateFamily` and `ValidateProduct`.
 */
module ImportService {
  import opened Common
  import opened Text
  import opened Values
  import opened Schemas
  import opened ValidationService
  import opened Catalog
  import opened FailureService

  /** The `stats` object. */
  datatype ImportStats = ImportStats(
    familiesProcessed: nat,
    familiesInserted: nat,
    familiesUpdated: nat,
    familiesFailed: nat,
    productsProcessed: nat,
    productsInserted: nat,
    productsUpdated: nat,
    productsFailed: nat)

  /** The paths of the two failure files, `null` when there was nothing to export. */
  datatype FailureFiles = FailureFiles(families: Option<string>, products: Option<string>)

  datatype ImportResult = ImportResult(stats: ImportStats, failureFiles: FailureFiles)

  /** The four counters and the failure list one of the two loops maintains. */
  datatype Tally = Tally(processed: nat, inserted: nat, updated: nat, failed: nat, failures: seq<FailureEntry>)

  const Fresh := Tally(0, 0, 0, 0, [])

  /** Every processed row was inserted, updated or failed, and every failure is listed once. */
  predicate Balanced(t: Tally) {
    t.processed == t.inserted + t.updated + t.failed && |t.failures| == t.failed
  }

  function Started(t: Tally): Tally {
    t.(processed := t.processed + 1)
  }

  function Failed(t: Tally, entry: FailureEntry): Tally {
    t.(failed := t.failed + 1, failures := t.failures + [entry])
  }

  function Stored(t: Tally, created: bool): Tally {
    if created then t.(inserted := t.inserted + 1) else t.(updated := t.updated + 1)
  }

  /**
   * The validation each loop runs. The loops are stated for any validation
   * function; `ProcessImport` passes `ValidateFamily` and `ValidateProduct`.
   */
  type FamilyValidator = FamilyRow -> Validation<FamilyRow>
  type ProductValidator = ProductRow -> Validation<ProductRow>

  /** `validation.errors.join("--")`: the reason recorded for a row that fails validation. */
  function JoinedErrors<T>(validation: Validation<T>): string {
    Join(if validation.errors.Some? then validation.errors.value else [], "--")
  }

  /** A value as the table column receives it; the values of a validated row are strings already. */
  function Column(v: Value): string {
    ToJsString(v)
  }

  // ---------------------------------------------------------------------------
  // The family loop
  // ---------------------------------------------------------------------------

  /** The record `Family.upsert` receives: the row's fields as parsed, not Joi's trimmed value. */
  function FamilyOf(row: FamilyRow): Family {
    Family(Column(row.familyName), Column(row.productLine), Column(row.brand), Column(row.status))
  }

  /** The row is valid and the database takes it. */
  predicate FamilyAccepted(row: FamilyRow, validate: FamilyValidator, faults: Faults) {
    validate(row).isValid && faults.family(Column(row.familyCode), FamilyOf(row)).None?
  }

  /** What the row writes: its record under its code when accepted, nothing otherwise. */
  function FamilyWrite(row: FamilyRow, validate: FamilyValidator, faults: Faults): map<string, Family> {
    if FamilyAccepted(row, validate, faults) then map[Column(row.familyCode) := FamilyOf(row)] else map[]
  }

  /** The entry a failing family row adds, with the validation errors or the upsert's message. */
  function FamilyFailureOf(row: FamilyRow, validate: FamilyValidator, faults: Faults): FailureEntry {
    var validation := validate(row);
    var reason :=
      if !validation.isValid then JoinedErrors(validation)
      else
        var fault := faults.family(Column(row.familyCode), FamilyOf(row));
        if fault.Some? then fault.value else "";
    FamilyFailure(row.rowNumber, row.familyCode, reason)
  }

  /** Lines 37-100: one pass of the family loop. */
  function FamilyStep(families: map<string, Family>, t: Tally, row: FamilyRow,
                      validate: FamilyValidator, faults: Faults)
    : (r: (map<string, Family>, Tally))
    ensures r.1.processed == t.processed + 1
  {
    var t1 := Started(t);
    var validation := validate(row);
    if !validation.isValid then
      (families, Failed(t1, FamilyFailure(row.rowNumber, row.familyCode, JoinedErrors(validation))))
    else
      var upsert := FamilyUpsert(families, Column(row.familyCode), FamilyOf(row), faults);
      match upsert.0
      case Threw(message) => (families, Failed(t1, FamilyFailure(row.rowNumber, row.familyCode, message)))
      case Written(created) => (upsert.1, Stored(t1, created))
  }

  /**
   * What one family row does: an accepted row is written under its code and
   * counts as inserted exactly when the code was new; any other row leaves
   * the store alone and adds one failure entry.
   */
  lemma FamilyStepEffect(families: map<string, Family>, t: Tally, row: FamilyRow,
                         validate: FamilyValidator, faults: Faults)
    ensures var r := FamilyStep(families, t, row, validate, faults);
            && (Balanced(t) ==> Balanced(r.1))
            && r.0 == families + FamilyWrite(row, validate, faults)
            && r.1.inserted == t.inserted +
                 (if FamilyAccepted(row, validate, faults) && Column(row.familyCode) !in families then 1 else 0)
            && r.1.failures == t.failures +
                 (if FamilyAccepted(row, validate, faults) then [] else [FamilyFailureOf(row, validate, faults)])
  {
    var r := FamilyStep(families, t, row, validate, faults);
    if !FamilyAccepted(row, validate, faults) {
      MapUnionEmpty(families);
    } else {
      assert r.0 == families[Column(row.familyCode) := FamilyOf(row)];
    }
  }

  /** Lines 36-101, after the first `n` rows: the store and the counters the family loop has built. */
  function FamilyRun(families: map<string, Family>, rows: seq<FamilyRow>, n: nat,
                     validate: FamilyValidator, faults: Faults)
    : (r: (map<string, Family>, Tally))
    requires n <= |rows|
    ensures r.1.processed == n
  {
    if n == 0 then (families, Fresh)
    else
      var before := FamilyRun(families, rows, n - 1, validate, faults);
      FamilyStep(before.0, before.1, rows[n - 1], validate, faults)
  }

  /** After any number of rows, every processed row was inserted, updated or failed, and listed once if it failed. */
  lemma {:induction false} FamilyRunBalanced(families: map<string, Family>, rows: seq<FamilyRow>, n: nat,
                                             validate: FamilyValidator, faults: Faults)
    requires n <= |rows|
    ensures Balanced(FamilyRun(families, rows, n, validate, faults).1)
  {
    if n > 0 {
      FamilyRunBalanced(families, rows, n - 1, validate, faults);
      var before := FamilyRun(families, rows, n - 1, validate, faults);
      FamilyStepEffect(before.0, before.1, rows[n - 1], validate, faults);
    }
  }

  /** Lines 36-101: the family loop over all of `rows`, from the store `families`. */
  function FamilyPhase(families: map<string, Family>, rows: seq<FamilyRow>,
                       validate: FamilyValidator, faults: Faults): (r: (map<string, Family>, Tally))
    ensures r.1.processed == |rows|
  {
    FamilyRun(families, rows, |rows|, validate, faults)
  }

  /** The records the first `n` rows write, a later row with the same code replacing an earlier one. */
  function FamilyWrites(rows: seq<FamilyRow>, n: nat, validate: FamilyValidator, faults: Faults)
    : map<string, Family>
    requires n <= |rows|
  {
    if n == 0 then map[]
    else FamilyWrites(rows, n - 1, validate, faults) + FamilyWrite(rows[n - 1], validate, faults)
  }

  lemma MapUnionAssoc<K, V>(a: map<K, V>, b: map<K, V>, c: map<K, V>)
    ensures a + b + c == a + (b + c)
  {
  }

  lemma MapUnionEmpty<K, V>(a: map<K, V>)
    ensures a + map[] == a
  {
  }

  /** After `n` rows the store is the old store overwritten by the accepted rows, the last one winning. */
  lemma {:induction false} FamilyRunStore(families: map<string, Family>, rows: seq<FamilyRow>, n: nat,
                                          validate: FamilyValidator, faults: Faults)
    requires n <= |rows|
    ensures FamilyRun(families, rows, n, validate, faults).0 == families + FamilyWrites(rows, n, validate, faults)
  {
    if n == 0 {
      MapUnionEmpty(families);
    } else {
      FamilyRunStore(families, rows, n - 1, validate, faults);
      var before := FamilyRun(families, rows, n - 1, validate, faults);
      FamilyStepEffect(before.0, before.1, rows[n - 1], validate, faults);
      var w, v := FamilyWrites(rows, n - 1, validate, faults), FamilyWrite(rows[n - 1], validate, faults);
      MapUnionAssoc(families, w, v);
    }
  }

  /** Every accepted row among the first `n` has its code among the codes they write. */
  lemma {:induction false} AcceptedFamiliesWritten(rows: seq<FamilyRow>, n: nat, validate: FamilyValidator,
                                                   faults: Faults, i: nat)
    requires i < n <= |rows| && FamilyAccepted(rows[i], validate, faults)
    ensures Column(rows[i].familyCode) in FamilyWrites(rows, n, validate, faults)
  {
    if i < n - 1 {
      AcceptedFamiliesWritten(rows, n - 1, validate, faults, i);
    }
  }

  /** Running the same family rows again leaves the store as the first run left it. */
  lemma FamilyRerunKeepsStore(families: map<string, Family>, rows: seq<FamilyRow>,
                              validate: FamilyValidator, faults: Faults)
    ensures var once := FamilyPhase(families, rows, validate, faults).0;
            FamilyPhase(once, rows, validate, faults).0 == once
  {
    var once := FamilyPhase(families, rows, validate, faults).0;
    FamilyRunStore(families, rows, |rows|, validate, faults);
    FamilyRunStore(once, rows, |rows|, validate, faults);
    var w := FamilyWrites(rows, |rows|, validate, faults);
    assert once + w == once;
  }

  /** When every accepted row's code among the first `n` is already stored, those rows insert nothing. */
  lemma {:induction false} FamilyNoInsertWhenStored(families: map<string, Family>, rows: seq<FamilyRow>, n: nat,
                                                    validate: FamilyValidator, faults: Faults)
    requires n <= |rows|
    requires forall i :: 0 <= i < n && FamilyAccepted(rows[i], validate, faults) ==>
               Column(rows[i].familyCode) in families
    ensures FamilyRun(families, rows, n, validate, faults).1.inserted == 0
  {
    if n > 0 {
      FamilyNoInsertWhenStored(families, rows, n - 1, validate, faults);
      FamilyRunStore(families, rows, n - 1, validate, faults);
      var before := FamilyRun(families, rows, n - 1, validate, faults);
      FamilyStepEffect(before.0, before.1, rows[n - 1], validate, faults);
      if FamilyAccepted(rows[n - 1], validate, faults) {
        assert Column(rows[n - 1].familyCode) in families;
      }
    }
  }

  /** A second run of the same family rows inserts nothing: every code it writes is already there. */
  lemma FamilyRerunInsertsNothing(families: map<string, Family>, rows: seq<FamilyRow>,
                                  validate: FamilyValidator, faults: Faults)
    ensures FamilyPhase(FamilyPhase(families, rows, validate, faults).0, rows, validate, faults).1.inserted == 0
  {
    var once := FamilyPhase(families, rows, validate, faults).0;
    FamilyRunStore(families, rows, |rows|, validate, faults);
    forall i | 0 <= i < |rows| && FamilyAccepted(rows[i], validate, faults)
      ensures Column(rows[i].familyCode) in once
    {
      AcceptedFamiliesWritten(rows, |rows|, validate, faults, i);
    }
    FamilyNoInsertWhenStored(once, rows, |rows|, validate, faults);
  }

  /**
   * Families written earlier in the same import are visible to its
   * products: every accepted family row's code is stored when the family
   * loop ends, even when it was not stored before.
   */
  lemma ImportedFamiliesVisible(families: map<string, Family>, rows: seq<FamilyRow>,
                                validate: FamilyValidator, faults: Faults, i: nat)
    requires i < |rows| && FamilyAccepted(rows[i], validate, faults)
    ensures Column(rows[i].familyCode) in FamilyPhase(families, rows, validate, faults).0
  {
    FamilyRunStore(families, rows, |rows|, validate, faults);
    AcceptedFamiliesWritten(rows, |rows|, validate, faults, i);
  }

  // ---------------------------------------------------------------------------
  // The product loop
  // ---------------------------------------------------------------------------

  /** The record `Product.upsert` receives: the row's fields as parsed. */
  function ProductOf(row: ProductRow): Product {
    Product(Column(row.name), Column(row.familyCode), Column(row.eanUpc), row.vehicleType)
  }

  /** The row is valid, the database takes it and its family is stored. */
  predicate ProductAccepted(families: map<string, Family>, row: ProductRow, validate: ProductValidator,
                            faults: Faults) {
    && validate(row).isValid
    && faults.product(Column(row.sku), ProductOf(row)).None?
    && Column(row.familyCode) in families
  }

  function ProductWrite(families: map<string, Family>, row: ProductRow, validate: ProductValidator,
                        faults: Faults): map<string, Product> {
    if ProductAccepted(families, row, validate, faults) then map[Column(row.sku) := ProductOf(row)] else map[]
  }

  /**
   * The entry a failing product row adds: the validation errors, the
   * database's refusal, or the foreign-key error for a missing family.
   */
  function ProductFailureOf(families: map<string, Family>, row: ProductRow, validate: ProductValidator,
                            faults: Faults): FailureEntry {
    var validation := validate(row);
    var reason :=
      if !validation.isValid then JoinedErrors(validation)
      else
        var fault := faults.product(Column(row.sku), ProductOf(row));
        if fault.Some? then fault.value else faults.missingFamily(Column(row.familyCode));
    ProductFailure(row.rowNumber, row.sku, reason)
  }

  /** Lines 123-186: one pass of the product loop. */
  function ProductStep(families: map<string, Family>, products: map<string, Product>, t: Tally,
                       row: ProductRow, validate: ProductValidator, faults: Faults)
    : (r: (map<string, Product>, Tally))
    ensures r.1.processed == t.processed + 1
  {
    var t1 := Started(t);
    var validation := validate(row);
    if !validation.isValid then
      (products, Failed(t1, ProductFailure(row.rowNumber, row.sku, JoinedErrors(validation))))
    else
      var upsert := ProductUpsert(families, products, Column(row.sku), ProductOf(row), faults);
      match upsert.0
      case Threw(message) => (products, Failed(t1, ProductFailure(row.rowNumber, row.sku, message)))
      case Written(created) => (upsert.1, Stored(t1, created))
  }

  /**
   * What one product row does: an accepted row is written under its SKU and
   * counts as inserted exactly when the SKU was new; any other row leaves
   * the products alone and adds one failure entry.
   */
  lemma ProductStepEffect(families: map<string, Family>, products: map<string, Product>, t: Tally,
                          row: ProductRow, validate: ProductValidator, faults: Faults)
    ensures var r := ProductStep(families, products, t, row, validate, faults);
            && (Balanced(t) ==> Balanced(r.1))
            && r.0 == products + ProductWrite(families, row, validate, faults)
            && r.1.inserted == t.inserted +
                 (if ProductAccepted(families, row, validate, faults) && Column(row.sku) !in products then 1 else 0)
            && r.1.failures == t.failures +
                 (if ProductAccepted(families, row, validate, faults) then []
                  else [ProductFailureOf(families, row, validate, faults)])
  {
    var r := ProductStep(families, products, t, row, validate, faults);
    if !ProductAccepted(families, row, validate, faults) {
      MapUnionEmpty(products);
    } else {
      assert r.0 == products[Column(row.sku) := ProductOf(row)];
    }
  }

  /** Lines 122-187, after the first `n` rows, against the families stored by then. */
  function ProductRun(families: map<string, Family>, products: map<string, Product>,
                      rows: seq<ProductRow>, n: nat, validate: ProductValidator, faults: Faults)
    : (r: (map<string, Product>, Tally))
    requires n <= |rows|
    ensures r.1.processed == n
  {
    if n == 0 then (products, Fresh)
    else
      var before := ProductRun(families, products, rows, n - 1, validate, faults);
      ProductStep(families, before.0, before.1, rows[n - 1], validate, faults)
  }

  /** After any number of rows, every processed row was inserted, updated or failed, and listed once if it failed. */
  lemma {:induction false} ProductRunBalanced(families: map<string, Family>, products: map<string, Product>,
                                              rows: seq<ProductRow>, n: nat, validate: ProductValidator,
                                              faults: Faults)
    requires n <= |rows|
    ensures Balanced(ProductRun(families, products, rows, n, validate, faults).1)
  {
    if n > 0 {
      ProductRunBalanced(families, products, rows, n - 1, validate, faults);
      var before := ProductRun(families, products, rows, n - 1, validate, faults);
      ProductStepEffect(families, before.0, before.1, rows[n - 1], validate, faults);
    }
  }

  /** Lines 122-187: the product loop over all of `rows`. */
  function ProductPhase(families: map<string, Family>, products: map<string, Product>,
                        rows: seq<ProductRow>, validate: ProductValidator, faults: Faults)
    : (r: (map<string, Product>, Tally))
    ensures r.1.processed == |rows|
  {
    ProductRun(families, products, rows, |rows|, validate, faults)
  }

  function ProductWrites(families: map<string, Family>, rows: seq<ProductRow>, n: nat,
                         validate: ProductValidator, faults: Faults): map<string, Product>
    requires n <= |rows|
  {
    if n == 0 then map[]
    else ProductWrites(families, rows, n - 1, validate, faults) + ProductWrite(families, rows[n - 1], validate, faults)
  }

  /** After `n` rows the products are the old ones overwritten by the accepted rows, the last one winning. */
  lemma {:induction false} ProductRunStore(families: map<string, Family>, products: map<string, Product>,
                                           rows: seq<ProductRow>, n: nat, validate: ProductValidator,
                                           faults: Faults)
    requires n <= |rows|
    ensures ProductRun(families, products, rows, n, validate, faults).0
            == products + ProductWrites(families, rows, n, validate, faults)
  {
    if n == 0 {
      MapUnionEmpty(products);
    } else {
      ProductRunStore(families, products, rows, n - 1, validate, faults);
      var before := ProductRun(families, products, rows, n - 1, validate, faults);
      ProductStepEffect(families, before.0, before.1, rows[n - 1], validate, faults);
      var w := ProductWrites(families, rows, n - 1, validate, faults);
      var v := ProductWrite(families, rows[n - 1], validate, faults);
      MapUnionAssoc(products, w, v);
    }
  }

  /** Every product the first `n` rows write names a stored family. */
  lemma {:induction false} ProductWritesHaveFamilies(families: map<string, Family>, rows: seq<ProductRow>, n: nat,
                                                     validate: ProductValidator, faults: Faults)
    requires n <= |rows|
    ensures NoOrphans(families, ProductWrites(families, rows, n, validate, faults))
  {
    if n > 0 {
      ProductWritesHaveFamilies(families, rows, n - 1, validate, faults);
    }
  }

  /** The product loop never stores an orphan product. */
  lemma ProductPhaseKeepsNoOrphans(families: map<string, Family>, products: map<string, Product>,
                                   rows: seq<ProductRow>, validate: ProductValidator, faults: Faults)
    requires NoOrphans(families, products)
    ensures NoOrphans(families, ProductPhase(families, products, rows, validate, faults).0)
  {
    ProductRunStore(families, products, rows, |rows|, validate, faults);
    ProductWritesHaveFamilies(families, rows, |rows|, validate, faults);
  }

  /** Every accepted row among the first `n` has its SKU among the SKUs they write. */
  lemma {:induction false} AcceptedProductsWritten(families: map<string, Family>, rows: seq<ProductRow>, n: nat,
                                                   validate: ProductValidator, faults: Faults, i: nat)
    requires i < n <= |rows| && ProductAccepted(families, rows[i], validate, faults)
    ensures Column(rows[i].sku) in ProductWrites(families, rows, n, validate, faults)
  {
    if i < n - 1 {
      AcceptedProductsWritten(families, rows, n - 1, validate, faults, i);
    }
  }

  /** Running the same product rows again, against the same families, leaves the products as the first run left them. */
  lemma ProductRerunKeepsStore(families: map<string, Family>, products: map<string, Product>,
                               rows: seq<ProductRow>, validate: ProductValidator, faults: Faults)
    ensures var once := ProductPhase(families, products, rows, validate, faults).0;
            ProductPhase(families, once, rows, validate, faults).0 == once
  {
    var once := ProductPhase(families, products, rows, validate, faults).0;
    ProductRunStore(families, products, rows, |rows|, validate, faults);
    ProductRunStore(families, once, rows, |rows|, validate, faults);
    var w := ProductWrites(families, rows, |rows|, validate, faults);
    MapUnionAssoc(products, w, w);
    assert w + w == w;
  }

  /** When every accepted row's SKU among the first `n` is already stored, those rows insert nothing. */
  lemma {:induction false} ProductNoInsertWhenStored(families: map<string, Family>, products: map<string, Product>,
                                                     rows: seq<ProductRow>, n: nat, validate: ProductValidator,
                                                     faults: Faults)
    requires n <= |rows|
    requires forall i :: 0 <= i < n && ProductAccepted(families, rows[i], validate, faults) ==>
               Column(rows[i].sku) in products
    ensures ProductRun(families, products, rows, n, validate, faults).1.inserted == 0
  {
    if n > 0 {
      ProductNoInsertWhenStored(families, products, rows, n - 1, validate, faults);
      ProductRunStore(families, products, rows, n - 1, validate, faults);
      var before := ProductRun(families, products, rows, n - 1, validate, faults);
      ProductStepEffect(families, before.0, before.1, rows[n - 1], validate, faults);
      if ProductAccepted(families, rows[n - 1], validate, faults) {
        assert Column(rows[n - 1].sku) in products;
      }
    }
  }

  /** A second run of the same product rows inserts nothing: every SKU it writes is already there. */
  lemma ProductRerunInsertsNothing(families: map<string, Family>, products: map<string, Product>,
                                   rows: seq<ProductRow>, validate: ProductValidator, faults: Faults)
    ensures var once := ProductPhase(families, products, rows, validate, faults).0;
            ProductPhase(families, once, rows, validate, faults).1.inserted == 0
  {
    var once := ProductPhase(families, products, rows, validate, faults).0;
    ProductRunStore(families, products, rows, |rows|, validate, faults);
    forall i | 0 <= i < |rows| && ProductAccepted(families, rows[i], validate, faults)
      ensures Column(rows[i].sku) in once
    {
      AcceptedProductsWritten(families, rows, |rows|, validate, faults, i);
    }
    ProductNoInsertWhenStored(families, once, rows, |rows|, validate, faults);
  }

  // ---------------------------------------------------------------------------
  // The failure lists follow the rows
  // ---------------------------------------------------------------------------

  /** `xs` can be obtained from `ys` by deleting elements: same order, nothing new. */
  predicate IsSubsequence<T(==)>(xs: seq<T>, ys: seq<T>)
    decreases |ys|
  {
    if xs == [] then true
    else if ys == [] then false
    else if xs[|xs| - 1] == ys[|ys| - 1] then IsSubsequence(xs[..|xs| - 1], ys[..|ys| - 1])
    else IsSubsequence(xs, ys[..|ys| - 1])
  }

  lemma {:induction false} SubsequenceAppendRight<T>(xs: seq<T>, ys: seq<T>, y: T)
    requires IsSubsequence(xs, ys)
    ensures IsSubsequence(xs, ys + [y])
    decreases |ys|, 1
  {
    if xs != [] {
      assert (ys + [y])[..|ys|] == ys;
      if xs[|xs| - 1] == y {
        SubsequenceDropLast(xs, ys);
      }
    }
  }

  lemma {:induction false} SubsequenceDropLast<T>(xs: seq<T>, ys: seq<T>)
    requires xs != [] && IsSubsequence(xs, ys)
    ensures IsSubsequence(xs[..|xs| - 1], ys)
    decreases |ys|, 0
  {
    var ys' := ys[..|ys| - 1];
    assert ys' + [ys[|ys| - 1]] == ys;
    if xs[|xs| - 1] == ys[|ys| - 1] {
      SubsequenceAppendRight(xs[..|xs| - 1], ys', ys[|ys| - 1]);
    } else {
      SubsequenceDropLast(xs, ys');
      SubsequenceAppendRight(xs[..|xs| - 1], ys', ys[|ys| - 1]);
    }
  }

  lemma SubsequenceAppendBoth<T>(xs: seq<T>, ys: seq<T>, y: T)
    requires IsSubsequence(xs, ys)
    ensures IsSubsequence(xs + [y], ys + [y])
  {
    assert (xs + [y])[..|xs|] == xs;
    assert (ys + [y])[..|ys|] == ys;
  }

  /** What identifies a row in a failure entry: its row number and its key. */
  datatype Tag = Tag(rowNumber: Value, key: Value)

  function FailureTags(failures: seq<FailureEntry>): (r: seq<Tag>)
    ensures |r| == |failures|
    ensures forall k :: 0 <= k < |failures| ==> r[k] == Tag(failures[k].rowNumber, Key(failures[k]))
  {
    seq(|failures|, k requires 0 <= k < |failures| => Tag(failures[k].rowNumber, Key(failures[k])))
  }

  /** The tags of the first `n` family rows. */
  function FamilyRowTags(rows: seq<FamilyRow>, n: nat): (r: seq<Tag>)
    requires n <= |rows|
    ensures |r| == n
    ensures forall k :: 0 <= k < n ==> r[k] == Tag(rows[k].rowNumber, rows[k].familyCode)
  {
    seq(n, k requires 0 <= k < n <= |rows| => Tag(rows[k].rowNumber, rows[k].familyCode))
  }

  /** The tags of the first `n` product rows. */
  function ProductRowTags(rows: seq<ProductRow>, n: nat): (r: seq<Tag>)
    requires n <= |rows|
    ensures |r| == n
    ensures forall k :: 0 <= k < n ==> r[k] == Tag(rows[k].rowNumber, rows[k].sku)
  {
    seq(n, k requires 0 <= k < n <= |rows| => Tag(rows[k].rowNumber, rows[k].sku))
  }

  /** Adding no entry, or one entry tagged `y`, keeps the failure tags a subsequence when `y` joins the rows' tags. */
  lemma FailuresExtend(before: seq<FailureEntry>, added: seq<FailureEntry>, ys: seq<Tag>, y: Tag)
    requires IsSubsequence(FailureTags(before), ys)
    requires added == [] || (|added| == 1 && Tag(added[0].rowNumber, Key(added[0])) == y)
    ensures IsSubsequence(FailureTags(before + added), ys + [y])
  {
    var xs := FailureTags(before);
    if added == [] {
      assert before + added == before;
      SubsequenceAppendRight(xs, ys, y);
    } else {
      assert FailureTags(before + added) == xs + [y];
      SubsequenceAppendBoth(xs, ys, y);
    }
  }

  /** After `n` family rows the failures appear in input order, each with its row's number and code. */
  lemma FamilyRowTagsGrow(rows: seq<FamilyRow>, n: nat)
    requires 0 < n <= |rows|
    ensures FamilyRowTags(rows, n) == FamilyRowTags(rows, n - 1) + [Tag(rows[n - 1].rowNumber, rows[n - 1].familyCode)]
  {
  }

  lemma ProductRowTagsGrow(rows: seq<ProductRow>, n: nat)
    requires 0 < n <= |rows|
    ensures ProductRowTags(rows, n) == ProductRowTags(rows, n - 1) + [Tag(rows[n - 1].rowNumber, rows[n - 1].sku)]
  {
  }

  lemma {:induction false} FamilyFailuresFollowRows(families: map<string, Family>, rows: seq<FamilyRow>, n: nat,
                                                    validate: FamilyValidator, faults: Faults)
    requires n <= |rows|
    ensures IsSubsequence(FailureTags(FamilyRun(families, rows, n, validate, faults).1.failures),
                          FamilyRowTags(rows, n))
  {
    if n > 0 {
      var last := rows[n - 1];
      var phase := FamilyRun(families, rows, n - 1, validate, faults);
      FamilyFailuresFollowRows(families, rows, n - 1, validate, faults);
      FamilyStepEffect(phase.0, phase.1, last, validate, faults);
      var added := if FamilyAccepted(last, validate, faults) then [] else [FamilyFailureOf(last, validate, faults)];
      FamilyRowTagsGrow(rows, n);
      FailuresExtend(phase.1.failures, added, FamilyRowTags(rows, n - 1), Tag(last.rowNumber, last.familyCode));
    }
  }

  /** After `n` product rows the failures appear in input order, each with its row's number and SKU. */
  lemma {:induction false} ProductFailuresFollowRows(families: map<string, Family>, products: map<string, Product>,
                                                     rows: seq<ProductRow>, n: nat, validate: ProductValidator,
                                                     faults: Faults)
    requires n <= |rows|
    ensures IsSubsequence(FailureTags(ProductRun(families, products, rows, n, validate, faults).1.failures),
                          ProductRowTags(rows, n))
  {
    if n > 0 {
      var last := rows[n - 1];
      var phase := ProductRun(families, products, rows, n - 1, validate, faults);
      ProductFailuresFollowRows(families, products, rows, n - 1, validate, faults);
      ProductStepEffect(families, phase.0, phase.1, last, validate, faults);
      var added := if ProductAccepted(families, last, validate, faults) then []
                   else [ProductFailureOf(families, last, validate, faults)];
      ProductRowTagsGrow(rows, n);
      FailuresExtend(phase.1.failures, added, ProductRowTags(rows, n - 1), Tag(last.rowNumber, last.sku));
    }
  }

  // ---------------------------------------------------------------------------
  // The two loops
  // ---------------------------------------------------------------------------

  /** Lines 37-100 in place: one family row is validated and, when valid, upserted. */
  method ImportFamilyRow(store: Store, t: Tally, row: FamilyRow, validate: FamilyValidator, faults: Faults)
    returns (tally: Tally)
    modifies store
    ensures (store.families, tally) == FamilyStep(old(store.families), t, row, validate, faults)
    ensures store.products == old(store.products)
    ensures old(store.Valid()) ==> store.Valid()
  {
    tally := Started(t);
    var validation := validate(row);
    if !validation.isValid {
      tally := Failed(tally, FamilyFailure(row.rowNumber, row.familyCode, JoinedErrors(validation)));
    } else {
      var outcome := store.UpsertFamily(Column(row.familyCode), FamilyOf(row), faults);
      if outcome.Threw? {
        tally := Failed(tally, FamilyFailure(row.rowNumber, row.familyCode, outcome.message));
      } else {
        tally := Stored(tally, outcome.created);
      }
    }
  }

  /** Lines 36-101 in place: the family rows go into the store one by one. */
  method ImportFamilies(store: Store, rows: seq<FamilyRow>, validate: FamilyValidator, faults: Faults)
    returns (tally: Tally)
    modifies store
    ensures (store.families, tally) == FamilyPhase(old(store.families), rows, validate, faults)
    ensures store.products == old(store.products)
    ensures old(store.Valid()) ==> store.Valid()
  {
    tally := Fresh;
    var i := 0;
    while i < |rows|
      invariant 0 <= i <= |rows|
      invariant (store.families, tally) == FamilyRun(old(store.families), rows, i, validate, faults)
      invariant store.products == old(store.products)
      invariant old(store.Valid()) ==> store.Valid()
    {
      tally := ImportFamilyRow(store, tally, rows[i], validate, faults);
      i := i + 1;
    }
  }

  /** Lines 123-186 in place: one product row is validated and, when valid, upserted. */
  method ImportProductRow(store: Store, t: Tally, row: ProductRow, validate: ProductValidator, faults: Faults)
    returns (tally: Tally)
    modifies store
    ensures (store.products, tally) == ProductStep(store.families, old(store.products), t, row, validate, faults)
    ensures store.families == old(store.families)
    ensures old(store.Valid()) ==> store.Valid()
  {
    tally := Started(t);
    var validation := validate(row);
    if !validation.isValid {
      tally := Failed(tally, ProductFailure(row.rowNumber, row.sku, JoinedErrors(validation)));
    } else {
      var outcome := store.UpsertProduct(Column(row.sku), ProductOf(row), faults);
      if outcome.Threw? {
        tally := Failed(tally, ProductFailure(row.rowNumber, row.sku, outcome.message));
      } else {
        tally := Stored(tally, outcome.created);
      }
    }
  }

  /** Lines 122-187 in place: the product rows go into the store one by one. */
  method ImportProducts(store: Store, rows: seq<ProductRow>, validate: ProductValidator, faults: Faults)
    returns (tally: Tally)
    modifies store
    ensures (store.products, tally) == ProductPhase(store.families, old(store.products), rows, validate, faults)
    ensures store.families == old(store.families)
    ensures old(store.Valid()) ==> store.Valid()
  {
    tally := Fresh;
    var j := 0;
    while j < |rows|
      invariant 0 <= j <= |rows|
      invariant (store.products, tally) == ProductRun(store.families, old(store.products), rows, j, validate, faults)
      invariant store.families == old(store.families)
      invariant old(store.Valid()) ==> store.Valid()
    {
      tally := ImportProductRow(store, tally, rows[j], validate, faults);
      j := j + 1;
    }
  }

  // ---------------------------------------------------------------------------
  // The whole import
  // ---------------------------------------------------------------------------

  function StatsOf(families: Tally, products: Tally): ImportStats {
    ImportStats(families.processed, families.inserted, families.updated, families.failed,
                products.processed, products.inserted, products.updated, products.failed)
  }

  /**
   * Lines 206-231: export the family failures, then the product failures,
   * and return the counters with the two paths; an export that throws is
   * rethrown (lines 232-241) and nothing is returned.
   */
  function Finish(families: Tally, products: Tally, write: Writer): (r: Result<ImportResult, string>)
    ensures r.Success? ==> r.value.stats == StatsOf(families, products)
    ensures r.Success? ==> (r.value.failureFiles.families.None? <==> families.failures == [])
    ensures r.Success? ==> (r.value.failureFiles.products.None? <==> products.failures == [])
    ensures r.Failure? <==>
              ExportFamilyFailures(families.failures, write).Failure?
              || ExportProductFailures(products.failures, write).Failure?
    ensures r.Failure? ==> var familyExport := ExportFamilyFailures(families.failures, write);
              r.error == (if familyExport.Failure? then familyExport.error
                          else ExportProductFailures(products.failures, write).error)
    ensures r.Success? ==> && r.value.failureFiles.families == ExportFamilyFailures(families.failures, write).value
                           && r.value.failureFiles.products == ExportProductFailures(products.failures, write).value
  {
    match ExportFamilyFailures(families.failures, write)
    case Failure(message) => Failure(message)
    case Success(familyFile) =>
      match ExportProductFailures(products.failures, write)
      case Failure(message) => Failure(message)
      case Success(productFile) => Success(ImportResult(StatsOf(families, products), FailureFiles(familyFile, productFile)))
  }

  /**
   * The counters of a completed import: each loop processed all its rows,
   * and each processed row was inserted, updated or failed.
   */
  lemma ImportStatsBalanced(families: map<string, Family>, products: map<string, Product>,
                            familyRows: seq<FamilyRow>, productRows: seq<ProductRow>,
                            faults: Faults, write: Writer)
    ensures var f := FamilyPhase(families, familyRows, ValidateFamily, faults);
            var p := ProductPhase(f.0, products, productRows, ValidateProduct, faults);
            var r := Finish(f.1, p.1, write);
            r.Success? ==>
              && r.value.stats.familiesProcessed == |familyRows|
              && r.value.stats.familiesProcessed ==
                   r.value.stats.familiesInserted + r.value.stats.familiesUpdated + r.value.stats.familiesFailed
              && r.value.stats.productsProcessed == |productRows|
              && r.value.stats.productsProcessed ==
                   r.value.stats.productsInserted + r.value.stats.productsUpdated + r.value.stats.productsFailed
  {
    var f := FamilyPhase(families, familyRows, ValidateFamily, faults);
    FamilyRunBalanced(families, familyRows, |familyRows|, ValidateFamily, faults);
    ProductRunBalanced(f.0, products, productRows, |productRows|, ValidateProduct, faults);
  }

  /**
   * Importing the same two files again, with the database answering as
   * before, changes neither table and inserts nothing: every written row
   * counts as an update.
   */
  lemma ImportRerunChangesNothing(families: map<string, Family>, products: map<string, Product>,
                                  familyRows: seq<FamilyRow>, productRows: seq<ProductRow>, faults: Faults)
    ensures var f1 := FamilyPhase(families, familyRows, ValidateFamily, faults);
            var p1 := ProductPhase(f1.0, products, productRows, ValidateProduct, faults);
            var f2 := FamilyPhase(f1.0, familyRows, ValidateFamily, faults);
            var p2 := ProductPhase(f2.0, p1.0, productRows, ValidateProduct, faults);
            && f2.0 == f1.0 && p2.0 == p1.0
            && f2.1.inserted == 0 && p2.1.inserted == 0
  {
    var f1 := FamilyPhase(families, familyRows, ValidateFamily, faults);
    FamilyRerunKeepsStore(families, familyRows, ValidateFamily, faults);
    FamilyRerunInsertsNothing(families, familyRows, ValidateFamily, faults);
    ProductRerunKeepsStore(f1.0, products, productRows, ValidateProduct, faults);
    ProductRerunInsertsNothing(f1.0, products, productRows, ValidateProduct, faults);
  }

  /** A family row that fails validation is recorded with every schema message, joined by "--". */
  lemma InvalidFamilyReason(row: FamilyRow, faults: Faults)
    requires !ValidateFamily(row).isValid
    ensures FamilyFailureOf(row, ValidateFamily, faults).reason == Join(FamilyErrors(row), "--")
  {
  }

  /** A product row that fails validation is recorded with every schema message, joined by "--". */
  lemma InvalidProductReason(families: map<string, Family>, row: ProductRow, faults: Faults)
    requires !ValidateProduct(row).isValid
    ensures ProductFailureOf(families, row, ValidateProduct, faults).reason == Join(ProductErrors(row), "--")
  {
  }

  /**
   * `processImport`: the family loop, then the product loop against the
   * families stored by then, then the exports. The store ends as the two
   * loops leave it whether or not an export throws, and never gains an
   * orphan product.
   */
  method ProcessImport(store: Store, familyRows: seq<FamilyRow>, productRows: seq<ProductRow>,
                       faults: Faults, write: Writer)
    returns (r: Result<ImportResult, string>)
    modifies store
    ensures store.families == FamilyPhase(old(store.families), familyRows, ValidateFamily, faults).0
    ensures store.products ==
              ProductPhase(store.families, old(store.products), productRows, ValidateProduct, faults).0
    ensures r == Finish(FamilyPhase(old(store.families), familyRows, ValidateFamily, faults).1,
                        ProductPhase(store.families, old(store.products), productRows, ValidateProduct, faults).1,
                        write)
    ensures old(store.Valid()) ==> store.Valid()
  {
    var familyTally := ImportFamilies(store, familyRows, ValidateFamily, faults);
    var productTally := ImportProducts(store, productRows, ValidateProduct, faults);
    var familyFile := ExportFamilyFailures(familyTally.failures, write);
    if familyFile.Failure? {
      return Failure(familyFile.error);
    }
    var productFile := ExportProductFailures(productTally.failures, write);
    if productFile.Failure? {
      return Failure(productFile.error);
    }
    r := Success(ImportResult(StatsOf(familyTally, productTally), FailureFiles(familyFile.value, productFile.value)));
  }
}
