/** The supplier-products view: the seeded supply list, the case-insensitive
    search box, the "new product" form with its default vendor name, and the
    per-row delete button. */
module SupplierProductsView {
  import opened Common

  datatype SupplierProduct = SupplierProduct(
    id: string,
    supplierId: Option<string>,
    supplierName: string,
    drawingNo: string,
    model: string,
    specs: Option<string>,
    supplyRatio: int)

  /** The five inputs of the "new product" form (the price is not modelled);
      `supplierName` is `None` when never typed in. The form has no input for
      the supplier id or the specification. */
  datatype ProductForm = ProductForm(
    supplierName: Option<string>,
    drawingNo: string,
    model: string,
    supplyRatio: int)

  /** Seed product `i` of `generateInitialProducts`. */
  function SeedProduct(i: nat): SupplierProduct {
    var n := (i % 32) + 1;
    SupplierProduct(
      "SP" + Pad3(i + 1),
      Some("SUP" + Pad3(n)),
      if i % 2 == 0 then "正奇机械 " + NatToString(n) + " 公司" else "Alpha Elec " + NatToString(n) + " Ltd",
      "DWG-" + NatToString(200 + i),
      "M-" + NatToString(i + 10),
      Some(if i % 3 == 0 then "标准级" else "高精度"),
      if i % 2 == 0 then 60 else 40)
  }

  function SeedProducts(): (ps: seq<SupplierProduct>)
  {
    seq(45, i requires 0 <= i < 45 => SeedProduct(i))
  }

  /** The seed has 45 products; product `i` belongs to supplier
      SUP + pad3((i % 32) + 1) and has supply ratio 60 when i is even and 40
      when odd; product ids are distinct. */
  lemma SeedProductsShape()
    ensures |SeedProducts()| == 45
    ensures forall i :: 0 <= i < 45 ==>
              && SeedProducts()[i].supplierId == Some("SUP" + Pad3((i % 32) + 1))
              && SeedProducts()[i].supplyRatio == (if i % 2 == 0 then 60 else 40)
    ensures forall i, j :: 0 <= i < j < 45 ==> SeedProducts()[i].id != SeedProducts()[j].id
  {
    var ps := SeedProducts();
    forall i, j | 0 <= i < j < 45 ensures ps[i].id != ps[j].id {
      if ps[i].id == ps[j].id {
        PrefixedPad3Injective("SP", i + 1, j + 1);
      }
    }
  }

  /** `formData.supplierName || 'Manual Entry Vendor'`: both a missing and an
      empty name fall back to the default. */
  function SupplierNameOrDefault(name: Option<string>): (r: string)
    ensures r == "Manual Entry Vendor" <==> name == None || name == Some("") || name == Some("Manual Entry Vendor")
    ensures name.Some? && name.value != "" ==> r == name.value
  {
    match name
    case Some(v) => if v == "" then "Manual Entry Vendor" else v
    case None => "Manual Entry Vendor"
  }

  /** The product `handleAdd` appends: the spread form plus the id and the
      defaulted name, so the supplier id and the specification stay unset. */
  function NewProduct(ps: seq<SupplierProduct>, form: ProductForm): SupplierProduct {
    SupplierProduct(
      "SP" + Pad3(|ps| + 1),
      None,
      SupplierNameOrDefault(form.supplierName),
      form.drawingNo,
      form.model,
      None,
      form.supplyRatio)
  }

  /** A row matches when the lower-cased term occurs in the lower-cased
      supplier name, drawing number or model. */
  predicate Matches(p: SupplierProduct, term: string) {
    var t := Lower(term);
    Contains(Lower(p.supplierName), t) || Contains(Lower(p.drawingNo), t) || Contains(Lower(p.model), t)
  }

  /** `filteredProducts`. */
  function Filtered(ps: seq<SupplierProduct>, term: string): seq<SupplierProduct> {
    Filter(ps, (p: SupplierProduct) => Matches(p, term))
  }

  /** The filter keeps exactly the matching rows, in order; an empty term
      keeps all; and a term differing only in letter case selects the same
      rows. */
  lemma FilteredSpec(ps: seq<SupplierProduct>, term: string)
    ensures IsSubsequence(Filtered(ps, term), ps)
    ensures forall k :: 0 <= k < |Filtered(ps, term)| ==> Matches(Filtered(ps, term)[k], term)
    ensures forall k :: 0 <= k < |ps| && Matches(ps[k], term) ==> ps[k] in Filtered(ps, term)
    ensures term == "" ==> Filtered(ps, term) == ps
    ensures Filtered(ps, Lower(term)) == Filtered(ps, term)
  {
    FilterIsSubsequence(ps, (p: SupplierProduct) => Matches(p, term));
    if term == "" {
      forall k | 0 <= k < |ps| ensures Matches(ps[k], term) {
        ContainsEmpty(Lower(ps[k].supplierName));
      }
      FilterKeepsAll(ps, (p: SupplierProduct) => Matches(p, term));
    }
    LowerIdempotent(term);
    FilterAgreeing(ps, (p: SupplierProduct) => Matches(p, Lower(term)), (p: SupplierProduct) => Matches(p, term));
  }

  /** A case-sensitive hit in any of the three fields is found by the search. */
  lemma ExactHitIsFound(p: SupplierProduct, term: string)
    requires Contains(p.supplierName, term) || Contains(p.drawingNo, term) || Contains(p.model, term)
    ensures Matches(p, term)
  {
    if Contains(p.supplierName, term) {
      ContainsLower(p.supplierName, term);
    } else if Contains(p.drawingNo, term) {
      ContainsLower(p.drawingNo, term);
    } else {
      ContainsLower(p.model, term);
    }
  }

  /** The header shows the number of filtered rows. */
  function HeaderCount(ps: seq<SupplierProduct>, term: string): nat {
    |Filtered(ps, term)|
  }

  /** The "no matching records" row. */
  predicate ShowsEmptyState(ps: seq<SupplierProduct>, term: string) {
    !(|Filtered(ps, term)| > 0)
  }

  /** The empty-state row is shown exactly when the header count is 0, which
      happens only when no row matches. */
  lemma EmptyStateIffNoMatch(ps: seq<SupplierProduct>, term: string)
    ensures ShowsEmptyState(ps, term) <==> HeaderCount(ps, term) == 0
    ensures ShowsEmptyState(ps, term) <==> forall k :: 0 <= k < |ps| ==> !Matches(ps[k], term)
  {
    if !ShowsEmptyState(ps, term) {
      var r := Filtered(ps, term);
      assert r[0] in ps && Matches(r[0], term);
    }
  }

  function WithoutId(ps: seq<SupplierProduct>, id: string): seq<SupplierProduct> {
    Filter(ps, (p: SupplierProduct) => p.id != id)
  }

  /** Deleting keeps exactly the products with another id, in order. */
  lemma DeleteRemovesExactly(ps: seq<SupplierProduct>, id: string)
    ensures forall k :: 0 <= k < |WithoutId(ps, id)| ==> WithoutId(ps, id)[k].id != id
    ensures forall k :: 0 <= k < |ps| && ps[k].id != id ==> ps[k] in WithoutId(ps, id)
    ensures IsSubsequence(WithoutId(ps, id), ps)
  {
    FilterIsSubsequence(ps, (p: SupplierProduct) => p.id != id);
  }

  /** The `products` state of the view. */
  class ProductStore {
    var products: seq<SupplierProduct>

    constructor ()
      ensures products == SeedProducts()
    {
      products := SeedProducts();
    }

    /** `handleAdd`: append the form's product with id `"SP" + pad3(length + 1)`,
        the defaulted vendor name, the typed drawing number, model and ratio,
        and neither a supplier id nor a specification. */
    method Add(form: ProductForm)
      modifies this
      ensures products == old(products) + [NewProduct(old(products), form)]
      ensures var p := products[|old(products)|];
                && p.id == "SP" + Pad3(|old(products)| + 1)
                && p.supplierName == SupplierNameOrDefault(form.supplierName)
                && p.drawingNo == form.drawingNo && p.model == form.model && p.supplyRatio == form.supplyRatio
                && p.supplierId == None && p.specs == None
    {
      products := products + [NewProduct(products, form)];
    }

    /** The trash button of a row. */
    method Delete(id: string)
      modifies this
      ensures products == WithoutId(old(products), id)
    {
      products := WithoutId(products, id);
    }
  }
}
