/** The product record and the constraints its create and update requests
    must meet before they reach the product store. */
module ProductEntity {
  import opened Common

  /** A stored product; `price` is in integer cents. */
  datatype Product = Product(
    id: string,
    name: string,
    description: string,
    price: int,
    stock: int,
    category: string,
    createdAt: string,
    updatedAt: string)

  datatype CreateProductDto = CreateProductDto(
    name: string,
    description: string,
    price: int,
    stock: int,
    category: string)

  /** A partial update: an absent field is left as it is. */
  datatype UpdateProductDto = UpdateProductDto(
    name: Option<string>,
    description: Option<string>,
    price: Option<int>,
    stock: Option<int>,
    category: Option<string>)

  const NameTooShort := "Product name must be at least 3 characters long"
  const NameTooLong := "Product name must not exceed 100 characters"
  const DescriptionTooShort := "Description must be at least 10 characters long"
  const PriceNegative := "Price must be a positive number"
  const StockNegative := "Stock must be a positive number"
  const CategoryTooShort := "Category must be at least 2 characters long"

  // One function per validated property; each lists the messages of the
  // constraints the value breaks.

  function NameViolations(name: string): seq<string> {
    (if |name| < 3 then [NameTooShort] else []) + (if |name| > 100 then [NameTooLong] else [])
  }

  function DescriptionViolations(description: string): seq<string> {
    if |description| < 10 then [DescriptionTooShort] else []
  }

  function PriceViolations(price: int): seq<string> {
    if price < 0 then [PriceNegative] else []
  }

  function StockViolations(stock: int): seq<string> {
    if stock < 0 then [StockNegative] else []
  }

  function CategoryViolations(category: string): seq<string> {
    if |category| < 2 then [CategoryTooShort] else []
  }

  /** Every message the validator reports for a create request. */
  function CreateViolations(d: CreateProductDto): (r: seq<string>)
    ensures NameTooShort in r <==> |d.name| < 3
    ensures NameTooLong in r <==> |d.name| > 100
    ensures DescriptionTooShort in r <==> |d.description| < 10
    ensures PriceNegative in r <==> d.price < 0
    ensures StockNegative in r <==> d.stock < 0
    ensures CategoryTooShort in r <==> |d.category| < 2
    ensures r == [] <==>
      3 <= |d.name| <= 100 && |d.description| >= 10 && d.price >= 0 && d.stock >= 0 && |d.category| >= 2
  {
    NameViolations(d.name) + DescriptionViolations(d.description) + PriceViolations(d.price)
      + StockViolations(d.stock) + CategoryViolations(d.category)
  }

  function OptionalViolations<T>(v: Option<T>, check: T -> seq<string>): seq<string> {
    if v.Some? then check(v.value) else []
  }

  /** Every message the validator reports for an update request: each field
      that is present is checked as in a create request. */
  function UpdateViolations(d: UpdateProductDto): (r: seq<string>)
    ensures r == [] <==>
      && (d.name.Some? ==> 3 <= |d.name.value| <= 100)
      && (d.description.Some? ==> |d.description.value| >= 10)
      && (d.price.Some? ==> d.price.value >= 0)
      && (d.stock.Some? ==> d.stock.value >= 0)
      && (d.category.Some? ==> |d.category.value| >= 2)
    ensures d == UpdateProductDto(None, None, None, None, None) ==> r == []
  {
    OptionalViolations(d.name, NameViolations) + OptionalViolations(d.description, DescriptionViolations)
      + OptionalViolations(d.price, PriceViolations) + OptionalViolations(d.stock, StockViolations)
      + OptionalViolations(d.category, CategoryViolations)
  }

  /** The update that supplies every field of a create request. */
  function FullUpdate(d: CreateProductDto): UpdateProductDto {
    UpdateProductDto(Some(d.name), Some(d.description), Some(d.price), Some(d.stock), Some(d.category))
  }

  /** A field present in an update obeys the same bound as in a create. */
  lemma UpdateBoundsMatchCreate(d: CreateProductDto)
    ensures UpdateViolations(FullUpdate(d)) == CreateViolations(d)
  {
  }

  /** The product's fields seen as a create request. */
  function AsCreateDto(p: Product): CreateProductDto {
    CreateProductDto(p.name, p.description, p.price, p.stock, p.category)
  }

  /** A product whose fields meet the create constraints. */
  ghost predicate WithinBounds(p: Product) {
    CreateViolations(AsCreateDto(p)) == []
  }

  /** `{...product, ...dto, updatedAt: now}`: the supplied fields overwrite,
      the others and the id and creation time stay. */
  function Merge(p: Product, d: UpdateProductDto, now: string): (r: Product)
    ensures r.id == p.id && r.createdAt == p.createdAt && r.updatedAt == now
    ensures r.name == (if d.name.Some? then d.name.value else p.name)
    ensures r.description == (if d.description.Some? then d.description.value else p.description)
    ensures r.price == (if d.price.Some? then d.price.value else p.price)
    ensures r.stock == (if d.stock.Some? then d.stock.value else p.stock)
    ensures r.category == (if d.category.Some? then d.category.value else p.category)
    ensures WithinBounds(p) && UpdateViolations(d) == [] ==> WithinBounds(r)
  {
    Product(p.id, d.name.GetOr(p.name), d.description.GetOr(p.description), d.price.GetOr(p.price),
            d.stock.GetOr(p.stock), d.category.GetOr(p.category), p.createdAt, now)
  }

  /** Applying the same update twice is the same as applying it once. */
  lemma MergeIdempotent(p: Product, d: UpdateProductDto, now: string)
    ensures Merge(Merge(p, d, now), d, now) == Merge(p, d, now)
  {
  }
}
