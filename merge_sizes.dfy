/**
 * The one-shot migration that folds sibling products, one per size, into a
 * single product with a list of size variants: for each group, fetch the
 * first variant, fetch every variant, insert the merged row, then delete the
 * variant rows. Nothing is rolled back when a step fails.
 */
module MergeProductSizes {
  import opened Wrappers
  import opened Lists
  import opened Catalog

  /** A listed variant. Its `price` is part of the script's data but is never read. */
  datatype Variant = Variant(id: string, size: string, price: real)

  datatype Group = Group(baseName: string, baseId: string, variants: seq<Variant>)

  const ProductGroups: seq<Group> := [
    Group("Antique Brass Horse Box", "antique-brass-horse-box", [
      Variant("antique-brass-horse-box-small", "Small", 1550.0),
      Variant("antique-brass-horse-box-big", "Big", 2250.0)]),
    Group("Wooden Hanging Planter", "wooden-hanging-planter", [
      Variant("wooden-hanging-planter-small", "Small", 2050.0),
      Variant("wooden-hanging-planter-big", "Big", 2490.0)])
  ]

  /** Every group names at least one variant (the script reads `variants[0]`). */
  predicate WellFormed(groups: seq<Group>) {
    forall i :: 0 <= i < |groups| ==> |groups[i].variants| > 0
  }

  lemma ProductGroupsWellFormed()
    ensures WellFormed(ProductGroups)
  {
  }

  predicate IsFetched(rows: Rows, refused: set<Request>, v: Variant) {
    Fetched(rows, refused, v.id).Some?
  }

  /** `{ size: variant.size, price: vData.price, in_stock: vData.in_stock }` */
  function Detail(rows: Rows, refused: set<Request>, v: Variant): (d: SizeVariant)
    requires IsFetched(rows, refused, v)
    ensures d.size == v.size && d.price == rows[v.id].fields.price && d.inStock == rows[v.id].fields.inStock
  {
    SizeVariant(v.size, rows[v.id].fields.price, rows[v.id].fields.inStock)
  }

  /** The `variantDetails` list built by the inner loop over `vs`. */
  function VariantDetails(rows: Rows, refused: set<Request>, vs: seq<Variant>): (ds: seq<SizeVariant>)
    ensures |ds| <= |vs|
  {
    if vs == [] then []
    else
      var front := VariantDetails(rows, refused, vs[..|vs| - 1]);
      var v := vs[|vs| - 1];
      if IsFetched(rows, refused, v) then front + [Detail(rows, refused, v)] else front
  }

  /** The details are those of the variants whose fetch succeeds, in the group's order. */
  lemma {:induction false} DetailsOfFetchedVariants(rows: Rows, refused: set<Request>, vs: seq<Variant>)
    ensures var fetched := Filter(vs, v => IsFetched(rows, refused, v));
      var ds := VariantDetails(rows, refused, vs);
      |ds| == |fetched| &&
      forall k :: 0 <= k < |ds| ==> IsFetched(rows, refused, fetched[k]) && ds[k] == Detail(rows, refused, fetched[k])
  {
    if vs != [] {
      var front := vs[..|vs| - 1];
      var v := vs[|vs| - 1];
      DetailsOfFetchedVariants(rows, refused, front);
      assert vs == front + [v];
      FilterAppend(front, [v], v => IsFetched(rows, refused, v));
    }
  }

  /** When the first variant can be fetched, the detail list is not empty. */
  lemma FirstFetchedGivesDetails(rows: Rows, refused: set<Request>, vs: seq<Variant>)
    requires |vs| > 0 && IsFetched(rows, refused, vs[0])
    ensures |VariantDetails(rows, refused, vs)| > 0
  {
  }

  /** `Math.min(...details.map(v => v.price))` on a non-empty list. */
  function MinPrice(ds: seq<SizeVariant>): (m: real)
    requires |ds| > 0
    ensures forall k :: 0 <= k < |ds| ==> m <= ds[k].price
    ensures exists k :: 0 <= k < |ds| && ds[k].price == m
  {
    if |ds| == 1 then ds[0].price
    else
      var rest := MinPrice(ds[1..]);
      if ds[0].price <= rest then ds[0].price else rest
  }

  /** The merged row: the first variant's row with the group's id and title,
      the lowest price, the size list, and no created_at. */
  function MergedRow(first: Product, g: Group, ds: seq<SizeVariant>): (p: Product)
    requires |ds| > 0
    ensures p.id == g.baseId && p.fields.title == Some(g.baseName)
    ensures p.hasSizes && p.sizeVariants == ds && p.createdAt.None?
    ensures p.fields.price == MinPrice(ds)
    ensures p.fields.(title := first.fields.title, price := first.fields.price) == first.fields
  {
    first.(id := g.baseId,
           fields := first.fields.(title := Some(g.baseName), price := MinPrice(ds)),
           hasSizes := true,
           sizeVariants := ds,
           createdAt := None)
  }

  function Ids(vs: seq<Variant>): (ids: seq<string>)
    ensures |ids| == |vs| && forall i :: 0 <= i < |vs| ==> ids[i] == vs[i].id
  {
    seq(|vs|, i requires 0 <= i < |vs| => vs[i].id)
  }

  /** One delete request per id, in order; a refused one does not stop the rest. */
  function DeleteAll(rows: Rows, refused: set<Request>, ids: seq<string>): (r: Rows)
    ensures r.Keys <= rows.Keys
    ensures forall k :: k in r ==> r[k] == rows[k]
  {
    if ids == [] then rows
    else Deleted(DeleteAll(rows, refused, ids[..|ids| - 1]), refused, ids[|ids| - 1])
  }

  /** After the deletes, a row is gone exactly when its id was listed and its delete was not refused. */
  lemma {:induction false} DeleteAllRemovesListed(rows: Rows, refused: set<Request>, ids: seq<string>)
    ensures var r := DeleteAll(rows, refused, ids);
      forall k :: (k in r <==> k in rows && (k !in ids || DeleteRow(k) in refused)) && (k in r ==> r[k] == rows[k])
  {
    if ids != [] {
      var front := ids[..|ids| - 1];
      DeleteAllRemovesListed(rows, refused, front);
      assert ids == front + [ids[|ids| - 1]];
    }
  }

  /** The effect of one iteration of the outer loop on the table. */
  function MergeGroup(rows: Rows, refused: set<Request>, g: Group): (r: Rows)
    requires |g.variants| > 0
    ensures Fetched(rows, refused, g.variants[0].id).None? ==> r == rows
    ensures forall k :: k in r && k != g.baseId ==> k in rows && r[k] == rows[k]
  {
    match Fetched(rows, refused, g.variants[0].id)
    case None => rows
    case Some(first) =>
      var ds := VariantDetails(rows, refused, g.variants);
      FirstFetchedGivesDetails(rows, refused, g.variants);
      var row := MergedRow(first, g, ds);
      if InsertAccepted(rows, refused, row.id) then DeleteAll(rows[row.id := row], refused, Ids(g.variants))
      else rows
  }

  /** The whole script: the groups in order. */
  function MergeAll(rows: Rows, refused: set<Request>, groups: seq<Group>): (r: Rows)
    requires WellFormed(groups)
    ensures forall k :: k in r && (forall i :: 0 <= i < |groups| ==> groups[i].baseId != k) ==>
      k in rows && r[k] == rows[k]
  {
    if groups == [] then rows
    else MergeGroup(MergeAll(rows, refused, groups[..|groups| - 1]), refused, groups[|groups| - 1])
  }

  /** A failed insert deletes nothing: the table is left exactly as it was. */
  lemma InsertFailureDeletesNothing(rows: Rows, refused: set<Request>, g: Group)
    requires |g.variants| > 0 && Fetched(rows, refused, g.variants[0].id).Some?
    requires !InsertAccepted(rows, refused, g.baseId)
    ensures MergeGroup(rows, refused, g) == rows
  {
  }

  /** After a successful insert the merged row is added and every listed variant id,
      fetched or not, has its delete attempted. */
  lemma MergedGroupEffect(rows: Rows, refused: set<Request>, g: Group)
    requires |g.variants| > 0 && Fetched(rows, refused, g.variants[0].id).Some?
    requires InsertAccepted(rows, refused, g.baseId)
    ensures var first := rows[g.variants[0].id];
      var ds := VariantDetails(rows, refused, g.variants);
      var r := MergeGroup(rows, refused, g);
      var ids := Ids(g.variants);
      && |ds| > 0
      && (forall k :: k != g.baseId ==>
            (k in r <==> k in rows && (k !in ids || DeleteRow(k) in refused)) && (k in r ==> r[k] == rows[k]))
      && (g.baseId !in ids || DeleteRow(g.baseId) in refused ==>
            g.baseId in r && r[g.baseId] == MergedRow(first, g, ds))
  {
    var first := rows[g.variants[0].id];
    var ds := VariantDetails(rows, refused, g.variants);
    FirstFetchedGivesDetails(rows, refused, g.variants);
    DeleteAllRemovesListed(rows[g.baseId := MergedRow(first, g, ds)], refused, Ids(g.variants));
  }

  /** Running two lists of groups one after the other is running their concatenation:
      each group starts from whatever the earlier ones left, failed or not. */
  lemma {:induction false} MergeAllAppend(rows: Rows, refused: set<Request>, a: seq<Group>, b: seq<Group>)
    requires WellFormed(a) && WellFormed(b)
    ensures WellFormed(a + b)
    ensures MergeAll(rows, refused, a + b) == MergeAll(MergeAll(rows, refused, a), refused, b)
  {
    if b == [] {
      assert a + b == a;
    } else {
      var front := b[..|b| - 1];
      MergeAllAppend(rows, refused, a, front);
      assert (a + b)[..|a + b| - 1] == a + front;
    }
  }

  /** The inner loop of mergeProducts: one select per variant, in order, keeping
      the size, price and stock of each one found. */
  method CollectDetails(db: ProductTable, variants: seq<Variant>) returns (details: seq<SizeVariant>)
    ensures details == VariantDetails(db.rows, db.refused, variants)
  {
    details := [];
    var vi := 0;
    while vi < |variants|
      invariant 0 <= vi <= |variants|
      invariant details == VariantDetails(db.rows, db.refused, variants[..vi])
    {
      var variant := variants[vi];
      var vData := db.Select(variant.id);
      if vData.Some? {
        details := details + [SizeVariant(variant.size, vData.value.fields.price, vData.value.fields.inStock)];
      }
      assert variants[..vi + 1][..vi] == variants[..vi];
      vi := vi + 1;
    }
    assert variants[..vi] == variants;
  }

  /** The delete loop: one delete request per variant id, in order; a refused one
      does not stop the rest. */
  method DeleteVariants(db: ProductTable, variants: seq<Variant>)
    modifies db`rows
    ensures db.rows == DeleteAll(old(db.rows), db.refused, Ids(variants))
  {
    var di := 0;
    while di < |variants|
      invariant 0 <= di <= |variants|
      invariant db.rows == DeleteAll(old(db.rows), db.refused, Ids(variants)[..di])
    {
      var _ := db.Delete(variants[di].id);
      assert Ids(variants)[..di + 1][..di] == Ids(variants)[..di];
      di := di + 1;
    }
    assert Ids(variants)[..di] == Ids(variants);
  }

  /** One iteration of the outer loop of mergeProducts. */
  method MergeOneGroup(db: ProductTable, group: Group)
    requires |group.variants| > 0
    modifies db`rows
    ensures db.rows == MergeGroup(old(db.rows), db.refused, group)
  {
    var firstVariant := db.Select(group.variants[0].id);
    if firstVariant.Some? {
      var details := CollectDetails(db, group.variants);
      FirstFetchedGivesDetails(db.rows, db.refused, group.variants);
      var newProduct := MergedRow(firstVariant.value, group, details);
      var inserted := db.Insert(newProduct);
      if inserted {
        DeleteVariants(db, group.variants);
      }
    }
  }

  /** mergeProducts, against the products table. */
  method MergeProducts(db: ProductTable, groups: seq<Group>)
    requires WellFormed(groups)
    modifies db
    ensures db.rows == MergeAll(old(db.rows), db.refused, groups)
  {
    var gi := 0;
    while gi < |groups|
      invariant 0 <= gi <= |groups|
      invariant db.rows == MergeAll(old(db.rows), db.refused, groups[..gi])
    {
      assert groups[..gi + 1][..gi] == groups[..gi];
      MergeOneGroup(db, groups[gi]);
      gi := gi + 1;
    }
    assert groups[..gi] == groups;
  }
}
