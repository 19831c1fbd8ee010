/**
 * The `products` table of the hosted database, as both the server actions and
 * the size-merge script see it: rows keyed by id, and a store that may answer
 * any single request with an error.
 */
module Catalog {
  import opened Wrappers

  /** One entry of a merged product's `size_variants` column. */
  datatype SizeVariant = SizeVariant(size: string, price: real, inStock: bool)

  /** The columns saveProduct writes. */
  datatype ProductFields = ProductFields(
    title: Option<string>,
    categoryId: Option<string>,
    price: real,
    originalPrice: real,
    imageUrl: string,
    images: seq<string>,
    features: seq<string>,
    description: Option<string>,
    inStock: bool,
    fastDelivery: bool,
    rating: real,
    reviews: int)

  /** A row; createdAt == None means the row was written without the column, so the store fills its default. */
  datatype Product = Product(
    id: string,
    fields: ProductFields,
    hasSizes: bool,
    sizeVariants: seq<SizeVariant>,
    createdAt: Option<string>)

  type Rows = map<string, Product>

  /** The requests a client sends, each naming the row it filters on. */
  datatype Request = SelectRow(id: string) | InsertRow(id: string) | UpdateRow(id: string) | DeleteRow(id: string)

  /** `.select().eq("id", id).single()`: an error when the row is missing or the request is refused. */
  function Fetched(rows: Rows, refused: set<Request>, id: string): (r: Option<Product>)
    ensures r.Some? <==> id in rows && SelectRow(id) !in refused
    ensures r.Some? ==> r.value == rows[id]
  {
    if id in rows && SelectRow(id) !in refused then Some(rows[id]) else None
  }

  /** An insert fails on a primary-key conflict or when the store refuses it. */
  predicate InsertAccepted(rows: Rows, refused: set<Request>, id: string) {
    id !in rows && InsertRow(id) !in refused
  }

  function Inserted(rows: Rows, refused: set<Request>, p: Product): (r: Rows)
    ensures InsertAccepted(rows, refused, p.id) ==> p.id in r && r[p.id] == p
    ensures !InsertAccepted(rows, refused, p.id) ==> r == rows
    ensures r.Keys == rows.Keys || r.Keys == rows.Keys + {p.id}
    ensures forall k :: k in rows ==> k in r && r[k] == rows[k]
  {
    if InsertAccepted(rows, refused, p.id) then rows[p.id := p] else rows
  }

  /** `.update(fields).eq("id", id)`: overwrites the written columns of the matching row, if any. */
  function Updated(rows: Rows, refused: set<Request>, id: string, f: ProductFields): (r: Rows)
    ensures r.Keys == rows.Keys
    ensures forall k :: k in rows && k != id ==> r[k] == rows[k]
    ensures id in rows && UpdateRow(id) !in refused ==> r[id] == rows[id].(fields := f)
    ensures UpdateRow(id) in refused ==> r == rows
  {
    if id in rows && UpdateRow(id) !in refused then rows[id := rows[id].(fields := f)] else rows
  }

  /** `.delete().eq("id", id)`: removes the matching row, if any; a missing row is not an error. */
  function Deleted(rows: Rows, refused: set<Request>, id: string): (r: Rows)
    ensures DeleteRow(id) !in refused ==> id !in r && r.Keys == rows.Keys - {id}
    ensures DeleteRow(id) in refused ==> r == rows
    ensures forall k :: k in r ==> k in rows && r[k] == rows[k]
  {
    if DeleteRow(id) in refused then rows else rows - {id}
  }

  /** The products table. `refused` is the set of requests the store answers with an error. */
  class ProductTable {
    var rows: Rows
    const refused: set<Request>

    constructor (rows: Rows, refused: set<Request>)
      ensures this.rows == rows && this.refused == refused
    {
      this.rows := rows;
      this.refused := refused;
    }

    method Select(id: string) returns (r: Option<Product>)
      ensures r == Fetched(rows, refused, id)
    {
      if id in rows && SelectRow(id) !in refused {
        r := Some(rows[id]);
      } else {
        r := None;
      }
    }

    method Insert(p: Product) returns (ok: bool)
      modifies this`rows
      ensures ok == InsertAccepted(old(rows), refused, p.id)
      ensures rows == Inserted(old(rows), refused, p)
    {
      ok := p.id !in rows && InsertRow(p.id) !in refused;
      if ok {
        rows := rows[p.id := p];
      }
    }

    method Update(id: string, f: ProductFields) returns (ok: bool)
      modifies this`rows
      ensures ok == (UpdateRow(id) !in refused)
      ensures rows == Updated(old(rows), refused, id, f)
    {
      ok := UpdateRow(id) !in refused;
      if ok && id in rows {
        rows := rows[id := rows[id].(fields := f)];
      }
    }

    method Delete(id: string) returns (ok: bool)
      modifies this`rows
      ensures ok == (DeleteRow(id) !in refused)
      ensures rows == Deleted(old(rows), refused, id)
    {
      ok := DeleteRow(id) !in refused;
      if ok {
        rows := rows - {id};
      }
    }
  }

  /** An upper bound on the length of every key. */
  ghost function MaxKeyLength(keys: set<string>): (m: nat)
    ensures forall k :: k in keys ==> |k| <= m
    decreases keys
  {
    if keys == {} then 0
    else
      var k :| k in keys;
      var rest := MaxKeyLength(keys - {k});
      if |k| > rest then |k| else rest
  }

  /** A finite table always leaves some id unused, so a fresh id can always be drawn. */
  lemma FreshKeyExists(keys: set<string>)
    ensures exists k :: k !in keys
  {
    var k := seq(MaxKeyLength(keys) + 1, i => 'x');
    assert k !in keys;
  }
}
