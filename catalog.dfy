/**
 * The static store catalogue of server.js: gender -> category -> products,
 * and the product lookup used when a product button is tapped.
 */
module Catalog {
  import opened Wrappers

  datatype Gender = Men | Women
  datatype Category = Perfumes | Deodorants | BodySprays
  datatype Product = Product(id: nat, name: string, price: nat)

  /** The id of each category button, which is also its key in the catalogue. */
  function CategoryKey(c: Category): string {
    match c
    case Perfumes => "perfumes"
    case Deodorants => "deodorants"
    case BodySprays => "body sprays"
  }

  /** The category whose key is `id`, if any: the `validCats.includes(category)` test. */
  function CategoryOf(id: string): (r: Option<Category>)
    ensures r.Some? ==> CategoryKey(r.value) == id
    ensures r.None? ==> forall c: Category :: CategoryKey(c) != id
  {
    if id == "perfumes" then Some(Perfumes)
    else if id == "deodorants" then Some(Deodorants)
    else if id == "body sprays" then Some(BodySprays)
    else None
  }

  /** `PRODUCT_DATA[gender][category]`: every gender has every category, three products each. */
  function ProductData(g: Gender, c: Category): seq<Product> {
    match g
    case Men =>
      (match c
       case Perfumes => [Product(1, "XYZ Cologne", 50), Product(2, "Sporty Fresh", 45), Product(3, "Classic Wood", 55)]
       case Deodorants => [Product(4, "Cool Breeze Deo", 20), Product(5, "FreshSport Deo", 25), Product(6, "Musk Shield Deo", 30)]
       case BodySprays => [Product(7, "Ocean Body Spray", 18), Product(8, "Citrus Mist", 22), Product(9, "Rock Solid", 25)])
    case Women =>
      (match c
       case Perfumes => [Product(10, "Floral Dream", 60), Product(11, "Citrus Bloom", 55), Product(12, "Vanilla Essence", 65)]
       case Deodorants => [Product(13, "Gentle Rose Deo", 28), Product(14, "Lavender Fresh Deo", 27), Product(15, "Pure Blossom Deo", 30)]
       case BodySprays => [Product(16, "Summer Splash", 20), Product(17, "Sweet Magnolia", 24), Product(18, "Soft Cloud", 26)])
  }

  /** `PRODUCT_DATA[gender]?.[category]`: the product list, or None when either key is missing. */
  function Items(gender: Option<Gender>, category: Option<Category>): (r: Option<seq<Product>>)
    ensures r.Some? <==> gender.Some? && category.Some?
  {
    if gender.Some? && category.Some? then Some(ProductData(gender.value, category.value)) else None
  }

  /** The outcome of findProductById: null (no list), undefined (no product with that id) or a product. */
  datatype Lookup = NoList | NotFound | Found(product: Product)

  /** The position of the first product with that id, or |items| when there is none. */
  function FirstIndexOf(items: seq<Product>, id: int): (k: nat)
    ensures k <= |items|
    ensures k < |items| ==> items[k].id == id
    ensures forall j :: 0 <= j < k ==> items[j].id != id
  {
    if items == [] then 0
    else if items[0].id == id then 0
    else 1 + FirstIndexOf(items[1..], id)
  }

  /** `items.find(p => p.id === id)`: the first product with that id. */
  function FindIn(items: seq<Product>, id: int): (r: Lookup)
    ensures !r.NoList?
    ensures r.NotFound? <==> forall i :: 0 <= i < |items| ==> items[i].id != id
    ensures r.Found? ==> exists i :: 0 <= i < |items| && items[i] == r.product && r.product.id == id &&
                                     forall j :: 0 <= j < i ==> items[j].id != id
  {
    var k := FirstIndexOf(items, id);
    if k < |items| then Found(items[k]) else NotFound
  }

  /** `findProductById(gender, category, id)`. */
  function FindProductById(gender: Option<Gender>, category: Option<Category>, id: int): (r: Lookup)
    ensures r.NoList? <==> Items(gender, category).None?
    ensures r.Found? ==> r.product in Items(gender, category).value && r.product.id == id
    ensures r.NotFound? ==> forall p :: p in Items(gender, category).value ==> p.id != id
  {
    match Items(gender, category)
    case None => NoList
    case Some(items) => FindIn(items, id)
  }

  /** Every catalogue list has three products, and no id occurs twice in the whole catalogue. */
  lemma CatalogShape(g: Gender, c: Category, g': Gender, c': Category, i: nat, j: nat)
    requires i < |ProductData(g, c)| && j < |ProductData(g', c')|
    ensures |ProductData(g, c)| == 3
    ensures ProductData(g, c)[i].id == ProductData(g', c')[j].id ==> g == g' && c == c' && i == j
  {
  }

}
