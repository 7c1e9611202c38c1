/**
 * The store `processImport` writes to: the `families` table keyed by
 * `familyCode` and the `products` table keyed by `sku`, with the upsert of
 * src/models/Family.js and src/models/Product.js. An upsert writes the
 * record and says whether its key was new, or throws. Why a record is
 * refused (column constraints, a dropped connection) belongs to the
 * database and is given as `Faults`; the one refusal the model spells out
 * is the foreign key from a product to its family (src/models/Product.js:76-90).
 */
module Catalog {
  import opened Common
  import opened Values

  datatype Family = Family(familyName: string, productLine: string, brand: string, status: string)

  datatype Product = Product(name: string, familyCode: string, eanUpc: string, vehicleType: Value)

  /** What an `upsert` call gives back: `[record, created]`, or the message of the error it throws. */
  datatype Upserted = Written(created: bool) | Threw(message: string)

  /**
   * The database's own refusals: a message when it rejects a family or a
   * product record, and the message of the foreign-key error for a family
   * code that is not in the families table.
   */
  datatype Faults = Faults(
    family: (string, Family) -> Option<string>,
    product: (string, Product) -> Option<string>,
    missingFamily: string -> string)

  /**
   * `Family.upsert`: a refused record throws and leaves the table as it
   * was; otherwise the record is stored under its code, every other code is
   * untouched, and `created` says whether the code was new.
   */
  function FamilyUpsert(families: map<string, Family>, code: string, family: Family, faults: Faults)
    : (r: (Upserted, map<string, Family>))
    ensures r.0.Threw? <==> faults.family(code, family).Some?
    ensures r.0.Threw? ==> r.0.message == faults.family(code, family).value && r.1 == families
    ensures r.0.Written? ==> r.1.Keys == families.Keys + {code} && r.1[code] == family
    ensures r.0.Written? ==> forall c :: c in families && c != code ==> r.1[c] == families[c]
    ensures r.0.Written? ==> (r.0.created <==> code !in families)
  {
    match faults.family(code, family)
    case Some(message) => (Threw(message), families)
    case None => (Written(code !in families), families[code := family])
  }

  /**
   * `Product.upsert`: a refused record throws; a product whose family code
   * is not a stored family throws the foreign-key error; otherwise the
   * record is stored under its SKU and `created` says whether the SKU was new.
   */
  function ProductUpsert(families: map<string, Family>, products: map<string, Product>,
                         sku: string, product: Product, faults: Faults)
    : (r: (Upserted, map<string, Product>))
    ensures r.0.Written? <==> faults.product(sku, product).None? && product.familyCode in families
    ensures faults.product(sku, product).Some? ==> r.0 == Threw(faults.product(sku, product).value)
    ensures faults.product(sku, product).None? && product.familyCode !in families ==>
              r.0 == Threw(faults.missingFamily(product.familyCode))
    ensures r.0.Threw? ==> r.1 == products
    ensures r.0.Written? ==> r.1.Keys == products.Keys + {sku} && r.1[sku] == product
    ensures r.0.Written? ==> forall s :: s in products && s != sku ==> r.1[s] == products[s]
    ensures r.0.Written? ==> (r.0.created <==> sku !in products)
  {
    match faults.product(sku, product)
    case Some(message) => (Threw(message), products)
    case None =>
      if product.familyCode !in families then (Threw(faults.missingFamily(product.familyCode)), products)
      else (Written(sku !in products), products[sku := product])
  }

  /** No orphan products: every stored product names a stored family. */
  predicate NoOrphans(families: map<string, Family>, products: map<string, Product>) {
    forall sku :: sku in products ==> products[sku].familyCode in families
  }

  /** A family upsert never removes a family, so it keeps every product's family in place. */
  lemma FamilyUpsertKeepsNoOrphans(families: map<string, Family>, products: map<string, Product>,
                                   code: string, family: Family, faults: Faults)
    requires NoOrphans(families, products)
    ensures NoOrphans(FamilyUpsert(families, code, family, faults).1, products)
  {
  }

  /** A product upsert only ever stores a product whose family is stored. */
  lemma ProductUpsertKeepsNoOrphans(families: map<string, Family>, products: map<string, Product>,
                                    sku: string, product: Product, faults: Faults)
    requires NoOrphans(families, products)
    ensures NoOrphans(families, ProductUpsert(families, products, sku, product, faults).1)
  {
  }

  /** Upserting the same family twice: the second call finds the code and changes nothing. */
  lemma FamilyUpsertIdempotent(families: map<string, Family>, code: string, family: Family, faults: Faults)
    requires FamilyUpsert(families, code, family, faults).0.Written?
    ensures var once := FamilyUpsert(families, code, family, faults).1;
            FamilyUpsert(once, code, family, faults) == (Written(false), once)
  {
    var once := FamilyUpsert(families, code, family, faults).1;
    assert once[code := family] == once;
  }

  /** The two tables, updated in place by the upserts. */
  class Store {
    var families: map<string, Family>
    var products: map<string, Product>

    ghost predicate Valid()
      reads this
    {
      NoOrphans(families, products)
    }

    constructor ()
      ensures families == map[] && products == map[]
      ensures Valid()
    {
      families := map[];
      products := map[];
    }

    method UpsertFamily(code: string, family: Family, faults: Faults) returns (r: Upserted)
      modifies this
      ensures (r, families) == FamilyUpsert(old(families), code, family, faults)
      ensures products == old(products)
      ensures old(Valid()) ==> Valid()
    {
      if Valid() {
        FamilyUpsertKeepsNoOrphans(families, products, code, family, faults);
      }
      var outcome := FamilyUpsert(families, code, family, faults);
      r := outcome.0;
      families := outcome.1;
    }

    method UpsertProduct(sku: string, product: Product, faults: Faults) returns (r: Upserted)
      modifies this
      ensures (r, products) == ProductUpsert(families, old(products), sku, product, faults)
      ensures families == old(families)
      ensures old(Valid()) ==> Valid()
    {
      if Valid() {
        ProductUpsertKeepsNoOrphans(families, products, sku, product, faults);
      }
      var outcome := ProductUpsert(families, products, sku, product, faults);
      r := outcome.0;
      products := outcome.1;
    }
  }
}
