/** The product store: an in-memory table of products in insertion order,
    with ids drawn from a counter that only grows. */
module ProductService {
  import opened Common
  import opened ProductEntity

  /** Ids of a product sequence, position by position. */
  function IdsOf(ps: seq<Product>): (r: seq<string>)
    ensures |r| == |ps| && forall k :: 0 <= k < |ps| ==> r[k] == ps[k].id
  {
    seq(|ps|, k requires 0 <= k < |ps| => ps[k].id)
  }

  ghost predicate DistinctIds(ps: seq<Product>) {
    forall i, j :: 0 <= i < j < |ps| ==> ps[i].id != ps[j].id
  }

  function ProductId(p: Product): string { p.id }

  /** `findIndex(p => p.id === id)`. */
  function IndexOfId(ps: seq<Product>, id: string): int {
    IndexWhere(ps, ProductId, id)
  }

  /** `find(p => p.id === id)`: the first product holding `id`, if any. */
  function FirstWithId(ps: seq<Product>, id: string): (r: Option<Product>)
    ensures r.None? <==> forall k :: 0 <= k < |ps| ==> ps[k].id != id
    ensures r.Some? ==> r.value.id == id && r.value == ps[IndexOfId(ps, id)]
  {
    var i := IndexOfId(ps, id);
    if i == -1 then None else Some(ps[i])
  }

  /** `filter(p => ids.includes(p.id))`: the stored products whose id is
      listed, each at most once. */
  function FilterByIds(ps: seq<Product>, ids: seq<string>): (r: seq<Product>)
    ensures forall p :: p in r <==> p in ps && p.id in ids
    ensures multiset(r) <= multiset(ps)
  {
    if ps == [] then []
    else
      assert ps == [ps[0]] + ps[1..];
      (if ps[0].id in ids then [ps[0]] else []) + FilterByIds(ps[1..], ids)
  }

  /** Filtering keeps store order: it distributes over concatenation. */
  lemma {:induction false} FilterAppend(a: seq<Product>, b: seq<Product>, ids: seq<string>)
    ensures FilterByIds(a + b, ids) == FilterByIds(a, ids) + FilterByIds(b, ids)
  {
    if a == [] {
      assert a + b == b;
    } else {
      assert (a + b)[0] == a[0];
      assert (a + b)[1..] == a[1..] + b;
      FilterAppend(a[1..], b, ids);
    }
  }

  /** A table with distinct ids filters to a table with distinct ids. */
  lemma {:induction false} FilterDistinct(ps: seq<Product>, ids: seq<string>)
    requires DistinctIds(ps)
    ensures DistinctIds(FilterByIds(ps, ids))
  {
    if ps != [] {
      var rest := FilterByIds(ps[1..], ids);
      FilterDistinct(ps[1..], ids);
      forall q | q in rest ensures q.id != ps[0].id {
        var k :| 0 <= k < |ps[1..]| && ps[1..][k] == q;
        assert ps[k + 1] == q;
      }
    }
  }

  /** `find` on a non-empty table: the head if it matches, else the tail's. */
  lemma FirstWithIdCons(ps: seq<Product>, id: string)
    requires ps != []
    ensures FirstWithId(ps, id) == if ps[0].id == id then Some(ps[0]) else FirstWithId(ps[1..], id)
  {
    if ps[0].id != id {
      var j := IndexWhere(ps[1..], ProductId, id);
      if j != -1 {
        assert ps[1..][j] == ps[j + 1];
      }
    }
  }

  /** Looking up an id that was asked for in the filtered table finds what
      the whole table would give. */
  lemma {:induction false} FirstWithIdInFilter(ps: seq<Product>, ids: seq<string>, id: string)
    requires id in ids
    ensures FirstWithId(FilterByIds(ps, ids), id) == FirstWithId(ps, id)
  {
    if ps != [] {
      var r := FilterByIds(ps, ids);
      var rest := FilterByIds(ps[1..], ids);
      FirstWithIdCons(ps, id);
      if ps[0].id in ids {
        assert r == [ps[0]] + rest;
        assert r[1..] == rest;
        FirstWithIdCons(r, id);
      } else {
        assert r == rest;
      }
      if ps[0].id != id {
        FirstWithIdInFilter(ps[1..], ids, id);
      }
    }
  }

  /** On a table with distinct ids, the lookup returns no more products than
      there are distinct requested ids. */
  lemma FilterCount(ps: seq<Product>, ids: seq<string>)
    requires DistinctIds(ps)
    ensures |FilterByIds(ps, ids)| <= |Elements(ids)|
  {
    var r := FilterByIds(ps, ids);
    FilterDistinct(ps, ids);
    FoundIds(r, ids);
    CardElements(IdsOf(r));
    SubsetCard(Elements(IdsOf(r)), Elements(ids));
  }

  /** On a table with distinct ids, the lookup returns exactly as many
      products as were asked for iff no id is asked twice and every asked id
      is stored. */
  lemma FilterCountExact(ps: seq<Product>, ids: seq<string>)
    requires DistinctIds(ps)
    ensures |FilterByIds(ps, ids)| == |ids| <==>
      NoDuplicates(ids) && forall k :: 0 <= k < |ids| ==> ids[k] in IdsOf(ps)
  {
    if |FilterByIds(ps, ids)| == |ids| {
      ExactCountIsDistinctAndStored(ps, ids);
    }
    if NoDuplicates(ids) && forall k :: 0 <= k < |ids| ==> ids[k] in IdsOf(ps) {
      DistinctAndStoredIsExactCount(ps, ids);
    }
  }

  lemma ExactCountIsDistinctAndStored(ps: seq<Product>, ids: seq<string>)
    requires DistinctIds(ps)
    requires |FilterByIds(ps, ids)| == |ids|
    ensures NoDuplicates(ids)
    ensures forall k :: 0 <= k < |ids| ==> ids[k] in IdsOf(ps)
  {
    var r := FilterByIds(ps, ids);
    FilterDistinct(ps, ids);
    FoundIds(r, ids);
    CardElements(IdsOf(r));
    CardElements(ids);
    SubsetCard(Elements(IdsOf(r)), Elements(ids));
    forall k | 0 <= k < |ids| ensures ids[k] in IdsOf(ps) {
      assert ids[k] in Elements(IdsOf(r));
      var j :| 0 <= j < |r| && IdsOf(r)[j] == ids[k];
      assert r[j] in ps;
      var m :| 0 <= m < |ps| && ps[m] == r[j];
      assert IdsOf(ps)[m] == ids[k];
    }
  }

  lemma DistinctAndStoredIsExactCount(ps: seq<Product>, ids: seq<string>)
    requires DistinctIds(ps)
    requires NoDuplicates(ids)
    requires forall k :: 0 <= k < |ids| ==> ids[k] in IdsOf(ps)
    ensures |FilterByIds(ps, ids)| == |ids|
  {
    var r := FilterByIds(ps, ids);
    FilterDistinct(ps, ids);
    FoundIds(r, ids);
    forall x | x in Elements(ids) ensures x in Elements(IdsOf(r)) {
      var k :| 0 <= k < |ids| && ids[k] == x;
      var m :| 0 <= m < |ps| && IdsOf(ps)[m] == x;
      assert ps[m] in r;
      var j :| 0 <= j < |r| && r[j] == ps[m];
      assert IdsOf(r)[j] == x;
    }
    assert Elements(IdsOf(r)) == Elements(ids);
    CardElements(IdsOf(r));
    CardElements(ids);
  }

  /** The ids of a filtered table are among the requested ones; with distinct
      ids there are as many as products. */
  lemma FoundIds(r: seq<Product>, ids: seq<string>)
    requires forall p :: p in r ==> p.id in ids
    requires DistinctIds(r)
    ensures Elements(IdsOf(r)) <= Elements(ids)
    ensures NoDuplicates(IdsOf(r))
  {
    forall x | x in Elements(IdsOf(r)) ensures x in Elements(ids) {
      var j :| 0 <= j < |r| && IdsOf(r)[j] == x;
      assert r[j] in r;
    }
  }

  /** The product service of the system. */
  class AppService {
    var products: seq<Product>
    var idCounter: nat
    /** Every id this store has ever handed out, including removed ones. */
    ghost var issued: set<string>

    ghost predicate Valid()
      reads this
    {
      && 1 <= idCounter
      && DistinctIds(products)
      && (forall k :: 0 <= k < |products| ==> products[k].id in issued)
      && (forall s :: s in issued ==> IssuedBefore(s, idCounter))
    }

    constructor ()
      ensures Valid()
      ensures products == [] && idCounter == 1 && issued == {}
    {
      products := [];
      idCounter := 1;
      issued := {};
    }

    /** Adds a product under the next id and returns it. */
    method Create(dto: CreateProductDto, now: string) returns (p: Product)
      requires Valid()
      modifies this
      ensures Valid()
      ensures p == Product(Decimal(old(idCounter)), dto.name, dto.description, dto.price, dto.stock,
                           dto.category, now, now)
      ensures idCounter == old(idCounter) + 1
      ensures products == old(products) + [p]
      ensures p.id !in old(issued) && issued == old(issued) + {p.id}
      ensures CreateViolations(dto) == [] ==> WithinBounds(p)
    {
      FreshId(issued, idCounter);
      p := Product(Decimal(idCounter), dto.name, dto.description, dto.price, dto.stock,
                   dto.category, now, now);
      idCounter := idCounter + 1;
      products := products + [p];
      issued := issued + {p.id};
    }

    /** The stored products, in insertion order. */
    function FindAll(): (r: seq<Product>)
      reads this
      ensures |r| == |products| && forall k :: 0 <= k < |r| ==> r[k] == products[k]
    {
      products
    }

    /** The product with the given id, or none. */
    function FindOne(id: string): (r: Option<Product>)
      reads this
      ensures r.None? <==> forall k :: 0 <= k < |products| ==> products[k].id != id
      ensures r.Some? ==> r.value.id == id && r.value == products[IndexOfId(products, id)]
      ensures Valid() && r.Some? ==>
        forall k :: 0 <= k < |products| && products[k].id == id ==> products[k] == r.value
    {
      FirstWithId(products, id)
    }

    /** Merges `dto` into the product with the given id and returns the
        result, or returns none and changes nothing. */
    method Update(id: string, dto: UpdateProductDto, now: string) returns (r: Option<Product>)
      requires Valid()
      modifies this
      ensures Valid()
      ensures idCounter == old(idCounter) && issued == old(issued)
      ensures var i := IndexOfId(old(products), id);
        if i == -1 then
          r.None? && products == old(products)
        else
          && r == Some(Merge(old(products)[i], dto, now))
          && products == old(products)[i := r.value]
    {
      var i := IndexOfId(products, id);
      if i == -1 {
        return None;
      }
      var merged := Merge(products[i], dto, now);
      products := products[i := merged];
      r := Some(merged);
    }

    /** Deletes the product with the given id; says whether there was one. */
    method Remove(id: string) returns (removed: bool)
      requires Valid()
      modifies this
      ensures Valid()
      ensures idCounter == old(idCounter) && issued == old(issued)
      ensures var i := IndexOfId(old(products), id);
        && removed == (i != -1)
        && products == if i == -1 then old(products) else old(products)[..i] + old(products)[i + 1..]
      ensures forall k :: 0 <= k < |products| ==> products[k].id != id
    {
      var i := IndexOfId(products, id);
      if i == -1 {
        return false;
      }
      products := products[..i] + products[i + 1..];
      removed := true;
    }

    /** The stored products whose id is listed, in store order. */
    function FindByIds(ids: seq<string>): (r: seq<Product>)
      reads this
      ensures r == FilterByIds(products, ids)
      ensures forall p :: p in r <==> p in products && p.id in ids
      ensures Valid() ==> DistinctIds(r) && |r| <= |Elements(ids)|
    {
      assert Valid() ==> DistinctIds(FilterByIds(products, ids)) && |FilterByIds(products, ids)| <= |Elements(ids)| by {
        if Valid() {
          FilterDistinct(products, ids);
          FilterCount(products, ids);
        }
      }
      FilterByIds(products, ids)
    }
  }
}
