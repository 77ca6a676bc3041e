/**
 * The product catalog model of the shop front end: the full list of products
 * and the one product chosen for detailed display.
 */
module Models {
  import opened Types

  /** `k` is the earliest position of `items` whose product has identifier `id`. */
  ghost predicate IsFirstMatch(items: seq<Product>, id: string, k: int)
  {
    0 <= k < |items| && items[k].id == id &&
    forall j :: 0 <= j < k ==> items[j].id != id
  }

  /**
   * The lookup that `getProduct` performs, as a reference definition: the first
   * product whose identifier is `id`, or `None` when there is none.
   */
  function Find(items: seq<Product>, id: string): (r: Option<Product>)
    ensures r.None? <==> forall i :: 0 <= i < |items| ==> items[i].id != id
    ensures r.Some? ==> r.value.id == id && r.value in items
  {
    if items == [] then None
    else if items[0].id == id then Some(items[0])
    else
      assert forall i :: 1 <= i < |items| ==> items[i] == items[1..][i - 1];
      Find(items[1..], id)
  }

  /** `Find` returns the product at the earliest matching position, so the first match wins on duplicates. */
  lemma {:induction false} FindEarliest(items: seq<Product>, id: string, k: int)
    requires IsFirstMatch(items, id, k)
    ensures Find(items, id) == Some(items[k])
  {
    if k > 0 {
      assert IsFirstMatch(items[1..], id, k - 1);
      FindEarliest(items[1..], id, k - 1);
    }
  }

  /** A product whose identifier occurs exactly once in the list is what a lookup by that identifier finds. */
  lemma FindUnique(items: seq<Product>, k: int)
    requires 0 <= k < |items|
    requires forall j :: 0 <= j < |items| && j != k ==> items[j].id != items[k].id
    ensures Find(items, items[k].id) == Some(items[k])
  {
    FindEarliest(items, items[k].id, k);
  }

  /** The catalog: every product shown by the shop, and the product chosen for detailed display. */
  class ProductCatalog {
    /** All products of the catalog, in the order they were given. */
    var items: seq<Product>
    /** The product chosen for detailed display, if any. */
    var preview: Option<Product>

    /** A new catalog holds no products and no preview. */
    constructor ()
      ensures items == [] && preview == None
    {
      items := [];
      preview := None;
    }

    /**
     * Stores a copy of the caller's array: the catalog keeps the elements the
     * array holds now, whatever later happens to the array. The preview stays.
     */
    method SetItems(a: array<Product>)
      modifies this
      ensures items == old(a[..])
      ensures preview == old(preview)
    {
      items := a[..];
    }

    /** The stored products, unchanged by the call. */
    method GetItems() returns (r: seq<Product>)
      ensures r == items
    {
      r := items;
    }

    /**
     * Linear search for the first product with identifier `id`; `None` when no
     * product has it, the empty catalog included. Changes nothing.
     */
    method GetProduct(id: string) returns (r: Option<Product>)
      ensures r.None? <==> forall i :: 0 <= i < |items| ==> items[i].id != id
      ensures r.Some? ==> exists k :: IsFirstMatch(items, id, k) && r.value == items[k]
      ensures r == Find(items, id)
    {
      var i := 0;
      while i < |items|
        invariant 0 <= i <= |items|
        invariant forall j :: 0 <= j < i ==> items[j].id != id
      {
        if items[i].id == id {
          assert IsFirstMatch(items, id, i);
          FindEarliest(items, id, i);
          return Some(items[i]);
        }
        i := i + 1;
      }
      return None;
    }

    /** Chooses `product` for detailed display, whether or not it is among the items; the items stay. */
    method SetPreview(product: Product)
      modifies this
      ensures preview == Some(product)
      ensures items == old(items)
    {
      preview := Some(product);
    }

    /** The product chosen for detailed display, `None` if none was ever chosen. Changes nothing. */
    method GetPreview() returns (r: Option<Product>)
      ensures r == preview
    {
      r := preview;
    }
  }

  /** Before any setter is called, the catalog reports no products and no preview. */
  method NewCatalogIsEmpty(id: string) returns (s: seq<Product>, p: Option<Product>, found: Option<Product>)
    ensures s == [] && p == None && found == None
  {
    var c := new ProductCatalog();
    s := c.GetItems();
    p := c.GetPreview();
    found := c.GetProduct(id);
  }

  /** Reading the items back after storing them gives the same products in the same order. */
  method SetItemsThenGetItems(a: array<Product>) returns (s: seq<Product>)
    ensures |s| == a.Length
    ensures forall i :: 0 <= i < a.Length ==> s[i] == a[i]
  {
    var c := new ProductCatalog();
    c.SetItems(a);
    s := c.GetItems();
  }

  /** Overwriting a slot of the caller's array after `SetItems` leaves the stored items as they were. */
  method SetItemsCopies(c: ProductCatalog, a: array<Product>, i: int, q: Product) returns (s: seq<Product>)
    requires 0 <= i < a.Length
    modifies c, a
    ensures a[i] == q
    ensures s == old(a[..])
    ensures c.preview == old(c.preview)
  {
    c.SetItems(a);
    a[i] := q;
    s := c.GetItems();
  }

  /** The preview reads back as set, even for a product that is not among the items, and the items stay. */
  method SetPreviewThenGetPreview(c: ProductCatalog, p: Product) returns (r: Option<Product>)
    modifies c
    ensures r == Some(p)
    ensures c.items == old(c.items)
  {
    c.SetPreview(p);
    r := c.GetPreview();
  }

  /**
   * A catalog of two products "a" and "b": looking up "b" finds b, looking up
   * "c" finds nothing, and b can then be chosen for display.
   */
  method TwoProductScenario(da: Details, db: Details) returns (foundB: Option<Product>, foundC: Option<Product>, shown: Option<Product>)
    ensures foundB == Some(Product("b", db))
    ensures foundC == None
    ensures shown == Some(Product("b", db))
  {
    var a := new Product[2](i => if i == 0 then Product("a", da) else Product("b", db));
    var c := new ProductCatalog();
    c.SetItems(a);
    assert c.items[1].id == "b" && c.items[0].id == "a";
    foundB := c.GetProduct("b");
    foundC := c.GetProduct("c");
    c.SetPreview(foundB.value);
    shown := c.GetPreview();
  }
}
