/** The product catalog: add appends a product under a fresh id, update
    merges a partial record into the products with an id, delete drops them;
    every change is written back to the stored entry, so this object's list
    and the entry it last wrote hold the same products. */
module ProductStore {
  import opened InvoiceTypes
  import opened Records

  function ProductId(p: Product): string {
    p.id
  }

  /** A product without its id, as the catalog form submits it. */
  datatype ProductInput = ProductInput(
    description: string,
    hsnCode: string,
    rate: real,
    unit: string,
    taxRate: real)

  /** `{ ...product, id }` */
  function NewProduct(input: ProductInput, id: string): (p: Product)
    ensures p.id == id
    ensures p.description == input.description && p.hsnCode == input.hsnCode
    ensures p.rate == input.rate && p.unit == input.unit && p.taxRate == input.taxRate
  {
    Product(id, input.description, input.hsnCode, input.rate, input.unit, input.taxRate)
  }

  /** A partial product: each field present or absent, the id included. */
  datatype ProductPatch = ProductPatch(
    id: Option<string>,
    description: Option<string>,
    hsnCode: Option<string>,
    rate: Option<real>,
    unit: Option<string>,
    taxRate: Option<real>)

  const NoChange := ProductPatch(None, None, None, None, None, None)

  function Pick<T>(current: T, update: Option<T>): T {
    if update.Some? then update.value else current
  }

  /** `{ ...p, ...updates }`: every field the patch has wins. */
  function Merge(p: Product, u: ProductPatch): (r: Product)
    ensures u.id.Some? ==> r.id == u.id.value
    ensures u.id.None? ==> r.id == p.id
    ensures u.description.Some? ==> r.description == u.description.value
    ensures u.description.None? ==> r.description == p.description
    ensures u.hsnCode.Some? ==> r.hsnCode == u.hsnCode.value
    ensures u.hsnCode.None? ==> r.hsnCode == p.hsnCode
    ensures u.rate.Some? ==> r.rate == u.rate.value
    ensures u.rate.None? ==> r.rate == p.rate
    ensures u.unit.Some? ==> r.unit == u.unit.value
    ensures u.unit.None? ==> r.unit == p.unit
    ensures u.taxRate.Some? ==> r.taxRate == u.taxRate.value
    ensures u.taxRate.None? ==> r.taxRate == p.taxRate
  {
    Product(
      Pick(p.id, u.id),
      Pick(p.description, u.description),
      Pick(p.hsnCode, u.hsnCode),
      Pick(p.rate, u.rate),
      Pick(p.unit, u.unit),
      Pick(p.taxRate, u.taxRate))
  }

  /** An empty patch changes nothing, and applying a patch twice is applying it once. */
  lemma MergeLaws(p: Product, u: ProductPatch)
    ensures Merge(p, NoChange) == p
    ensures Merge(Merge(p, u), u) == Merge(p, u)
  {
  }

  /** `products.map(p => p.id === id ? { ...p, ...updates } : p)` */
  function UpdateById(ps: seq<Product>, id: string, u: ProductPatch): (r: seq<Product>)
    ensures |r| == |ps|
    ensures forall i :: 0 <= i < |ps| && ps[i].id == id ==> r[i] == Merge(ps[i], u)
    ensures forall i :: 0 <= i < |ps| && ps[i].id != id ==> r[i] == ps[i]
  {
    if |ps| == 0 then []
    else
      var rest := UpdateById(ps[1..], id, u);
      [if ps[0].id == id then Merge(ps[0], u) else ps[0]] + rest
  }

  /** Updating an id no product has leaves the catalog as it was. */
  lemma UpdateAbsentId(ps: seq<Product>, id: string, u: ProductPatch)
    requires !HasId(ps, ProductId, id)
    ensures UpdateById(ps, id, u) == ps
  {
    var r := UpdateById(ps, id, u);
    forall i | 0 <= i < |ps|
      ensures r[i] == ps[i]
    {
      assert ProductId(ps[i]) != id;
    }
  }

  /** An update that keeps the id is invisible to a delete of that id. */
  lemma {:induction false} DeleteAfterUpdate(ps: seq<Product>, id: string, u: ProductPatch)
    requires u.id.None? || u.id == Some(id)
    ensures RemoveId(UpdateById(ps, id, u), ProductId, id) == RemoveId(ps, ProductId, id)
    decreases |ps|
  {
    if |ps| > 0 {
      var head := if ps[0].id == id then Merge(ps[0], u) else ps[0];
      var rest := UpdateById(ps[1..], id, u);
      assert UpdateById(ps, id, u) == [head] + rest;
      RemoveIdAppend([head], rest, ProductId, id);
      RemoveIdAppend([ps[0]], ps[1..], ProductId, id);
      assert [ps[0]] + ps[1..] == ps;
      assert [head][1..] == [] && [ps[0]][1..] == [];
      DeleteAfterUpdate(ps[1..], id, u);
    }
  }

  /** Adding a product under a fresh id and deleting that id gives back the catalog. */
  lemma DeleteUndoesAdd(ps: seq<Product>, input: ProductInput, id: string)
    requires !HasId(ps, ProductId, id)
    ensures RemoveId(ps + [NewProduct(input, id)], ProductId, id) == ps
  {
    RemoveIdAppend(ps, [NewProduct(input, id)], ProductId, id);
    assert [NewProduct(input, id)][1..] == [];
  }

  class ProductStore {
    var products: seq<Product>
    ghost var storage: Stored<Product>

    /** This object's list is the list its stored entry reads back as. */
    ghost predicate Valid()
      reads this
    {
      Reload(storage) == products
    }

    /** The initial load: the stored list when it parses, else empty. */
    constructor Load(stored: Stored<Product>)
      ensures Valid()
      ensures storage == stored && products == Reload(stored)
    {
      products := Reload(stored);
      storage := stored;
    }

    /** `saveProducts`: replace the list in memory and in storage. */
    method SaveProducts(newProducts: seq<Product>)
      modifies this
      ensures Valid()
      ensures products == newProducts && storage == Written(newProducts)
    {
      products := newProducts;
      storage := Written(newProducts);
    }

    /** `addProduct`: append the product under the fresh id. */
    method AddProduct(input: ProductInput, id: string)
      requires Valid() && !HasId(products, ProductId, id)
      modifies this
      ensures Valid() && storage == Written(products)
      ensures products == old(products) + [NewProduct(input, id)]
      ensures RemoveId(products, ProductId, id) == old(products)
    {
      var newProduct := NewProduct(input, id);
      DeleteUndoesAdd(products, input, id);
      SaveProducts(products + [newProduct]);
    }

    /** `updateProduct`: merge the patch into every product with the id. */
    method UpdateProduct(id: string, updates: ProductPatch)
      requires Valid()
      modifies this
      ensures Valid() && storage == Written(products)
      ensures products == UpdateById(old(products), id, updates)
      ensures !HasId(old(products), ProductId, id) ==> products == old(products)
    {
      var newProducts := UpdateById(products, id, updates);
      if !HasId(products, ProductId, id) {
        UpdateAbsentId(products, id, updates);
      }
      SaveProducts(newProducts);
    }

    /** `deleteProduct`: drop every product with the id, keep the rest in order. */
    method DeleteProduct(id: string)
      requires Valid()
      modifies this
      ensures Valid() && storage == Written(products)
      ensures products == RemoveId(old(products), ProductId, id)
      ensures !HasId(products, ProductId, id)
    {
      var newProducts := RemoveId(products, ProductId, id);
      SaveProducts(newProducts);
    }
  }
}
