/**
 * The seed script: upsert a fixed list of categories, keyed by id, one
 * request per category; a failed upsert is reported and the loop goes on.
 */
module SeedCategories {

  /** A row of the categories table as the seed writes it. */
  datatype SeedCategory = SeedCategory(id: string, name: string, description: string, icon: string, idx: int)

  const Categories: seq<SeedCategory> := [
    SeedCategory("brass-dhoopdani", "Brass Dhoopdani (Incense Holders)",
                 "Traditional brass incense holders and dhoopdani", "\U{1F534}", 0),
    SeedCategory("brass-products", "Brass Products",
                 "Traditional brass boxes, vessels, and storage containers", "\U{1F7E1}", 1),
    SeedCategory("iron-lamps", "Iron Lamps",
                 "Traditional iron lamps and lighting fixtures", "\U{1F7E2}", 2),
    SeedCategory("paintings", "Paintings",
                 "Traditional handcrafted paintings", "\U{1F3A8}", 3),
    SeedCategory("wooden-products", "Wooden Products",
                 "Traditional Wooden Products", "\U{1F7E4}", 4)
  ]

  type CategoryRows = map<string, SeedCategory>

  predicate UniqueIds(cs: seq<SeedCategory>) {
    forall i, j :: 0 <= i < j < |cs| ==> cs[i].id != cs[j].id
  }

  /** The fixed list has distinct ids and each record's idx is its position. */
  lemma CategoriesWellFormed()
    ensures UniqueIds(Categories)
    ensures forall i :: 0 <= i < |Categories| ==> Categories[i].idx == i
  {
  }

  /** `upsert(c, { onConflict: "id" })`; `refused` holds the ids whose upsert the store rejects. */
  function Upserted(rows: CategoryRows, refused: set<string>, c: SeedCategory): (r: CategoryRows)
    ensures c.id !in refused ==> c.id in r && r[c.id] == c
    ensures c.id in refused ==> r == rows
    ensures r.Keys == rows.Keys || r.Keys == rows.Keys + {c.id}
    ensures forall k :: k in rows && k != c.id ==> r[k] == rows[k]
  {
    if c.id in refused then rows else rows[c.id := c]
  }

  /** The loop, one upsert per listed category, in order. */
  function SeedAll(rows: CategoryRows, refused: set<string>, cs: seq<SeedCategory>): (r: CategoryRows)
    ensures rows.Keys <= r.Keys
    ensures forall k :: k in r ==> k in rows || exists i :: 0 <= i < |cs| && cs[i].id == k
  {
    if cs == [] then rows
    else Upserted(SeedAll(rows, refused, cs[..|cs| - 1]), refused, cs[|cs| - 1])
  }

  /** The rows the listed categories overwrite: the last accepted record per id. */
  function Overrides(refused: set<string>, cs: seq<SeedCategory>): (m: CategoryRows)
    ensures forall k :: k in m ==> k !in refused && m[k].id == k
  {
    if cs == [] then map[]
    else
      var front := Overrides(refused, cs[..|cs| - 1]);
      var c := cs[|cs| - 1];
      if c.id in refused then front else front[c.id := c]
  }

  /** Seeding overwrites exactly the accepted ids and leaves every other row alone. */
  lemma {:induction false} SeedAllIsOverride(rows: CategoryRows, refused: set<string>, cs: seq<SeedCategory>)
    ensures SeedAll(rows, refused, cs) == rows + Overrides(refused, cs)
  {
    if cs != [] {
      var front := cs[..|cs| - 1];
      var c := cs[|cs| - 1];
      SeedAllIsOverride(rows, refused, front);
      var o := Overrides(refused, front);
      if c.id !in refused {
        var lhs := (rows + o)[c.id := c];
        var rhs := rows + o[c.id := c];
        assert lhs.Keys == rhs.Keys;
        assert forall k :: k in lhs ==> lhs[k] == rhs[k];
      }
    }
  }

  /** Running the seed again changes nothing. */
  lemma SeedIsIdempotent(rows: CategoryRows, refused: set<string>, cs: seq<SeedCategory>)
    ensures SeedAll(SeedAll(rows, refused, cs), refused, cs) == SeedAll(rows, refused, cs)
  {
    SeedAllIsOverride(rows, refused, cs);
    SeedAllIsOverride(SeedAll(rows, refused, cs), refused, cs);
    var o := Overrides(refused, cs);
    assert (rows + o) + o == rows + o;
  }

  /** With distinct ids: every accepted category is stored exactly as listed, every
      refused one leaves its row as it was, and unlisted ids are untouched. */
  lemma {:induction false} SeedStoresListed(rows: CategoryRows, refused: set<string>, cs: seq<SeedCategory>)
    requires UniqueIds(cs)
    ensures var r := SeedAll(rows, refused, cs);
      && (forall i :: 0 <= i < |cs| && cs[i].id !in refused ==> cs[i].id in r && r[cs[i].id] == cs[i])
      && (forall k :: k in refused || (forall i :: 0 <= i < |cs| ==> cs[i].id != k) ==>
            (k in r <==> k in rows) && (k in r ==> r[k] == rows[k]))
  {
    if cs != [] {
      var front := cs[..|cs| - 1];
      var c := cs[|cs| - 1];
      assert UniqueIds(front);
      SeedStoresListed(rows, refused, front);
      var r := SeedAll(rows, refused, cs);
      assert r == Upserted(SeedAll(rows, refused, front), refused, c);
      forall i | 0 <= i < |cs| && cs[i].id !in refused
        ensures cs[i].id in r && r[cs[i].id] == cs[i]
      {
        if i < |cs| - 1 {
          assert front[i] == cs[i] && cs[i].id != c.id;
        }
      }
      forall k | k in refused || (forall i :: 0 <= i < |cs| ==> cs[i].id != k)
        ensures (k in r <==> k in rows) && (k in r ==> r[k] == rows[k])
      {
        assert k in refused || (forall i :: 0 <= i < |front| ==> front[i].id != k);
      }
    }
  }

  /** The categories table. */
  class CategoryTable {
    var rows: CategoryRows
    const refused: set<string>

    constructor (rows: CategoryRows, refused: set<string>)
      ensures this.rows == rows && this.refused == refused
    {
      this.rows := rows;
      this.refused := refused;
    }

    method Upsert(c: SeedCategory) returns (ok: bool)
      modifies this`rows
      ensures ok == (c.id !in refused)
      ensures rows == Upserted(old(rows), refused, c)
    {
      ok := c.id !in refused;
      if ok {
        rows := rows[c.id := c];
      }
    }
  }

  /** seedCategories; the result lists, in order, the ids whose upsert failed. */
  method Seed(db: CategoryTable, cs: seq<SeedCategory>) returns (failed: seq<string>)
    modifies db
    ensures db.rows == SeedAll(old(db.rows), db.refused, cs)
    ensures forall k :: k in failed <==> k in db.refused && exists i :: 0 <= i < |cs| && cs[i].id == k
  {
    failed := [];
    for i := 0 to |cs|
      invariant db.rows == SeedAll(old(db.rows), db.refused, cs[..i])
      invariant forall k :: k in failed <==> k in db.refused && exists j :: 0 <= j < i && cs[j].id == k
    {
      var ok := db.Upsert(cs[i]);
      if !ok {
        failed := failed + [cs[i].id];
      }
      assert cs[..i + 1][..i] == cs[..i];
    }
    assert cs[..|cs|] == cs;
  }
}
