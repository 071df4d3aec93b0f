/** Callers of the store, written against the contracts alone: what two
    wrappers for one name see of each other's deletions, that other names
    are not affected, and a short session on a collection created on first
    use. */
module Scenarios {
  import opened Values
  import opened QueryMatcher
  import opened Documents
  import opened Store

  /** `deleteOne` through one wrapper is seen through another wrapper for
      the same name: both refer to the shared array. */
  method DeleteOneIsShared(db: FileDatabase, name: string, q: Query, rx: RegexEngine)
    returns (deleted: bool, seen: seq<Document>)
    requires db.Valid() && name in db.collections
    modifies db, db.collections[name]
    ensures deleted <==> FirstMatch(old(db.collections[name].docs), q, rx).Some?
    ensures deleted ==> seen == RemoveAt(old(db.collections[name].docs), FirstMatch(old(db.collections[name].docs), q, rx).value)
    ensures !deleted ==> seen == old(db.collections[name].docs)
  {
    var first := db.Collection(name);
    var second := db.Collection(name);
    deleted := first.DeleteOne(q, rx);
    seen := second.Find(map[], rx);
    SelectEmptyQuery(second.data.docs, rx);
  }

  /** Distinct names own distinct arrays, so `deleteOne` through a wrapper
      for one name leaves every other name's documents as they were. */
  method DeleteOneIsLocal(db: FileDatabase, name: string, other: string, q: Query, rx: RegexEngine)
    returns (deleted: bool, untouched: seq<Document>)
    requires db.Valid() && name in db.collections && other in db.collections && name != other
    modifies db, db.collections[name]
    ensures db.collections == old(db.collections)
    ensures deleted <==> FirstMatch(old(db.collections[name].docs), q, rx).Some?
    ensures deleted ==> db.collections[name].docs == RemoveAt(old(db.collections[name].docs), FirstMatch(old(db.collections[name].docs), q, rx).value)
    ensures untouched == old(db.collections[other].docs)
  {
    var first := db.Collection(name);
    deleted := first.DeleteOne(q, rx);
    var second := db.Collection(other);
    untouched := second.Find(map[], rx);
    SelectEmptyQuery(second.data.docs, rx);
  }

  /** `deleteMany` through one wrapper does not reach the shared array: the
      wrapper itself holds only the non-matching documents afterwards, but
      a wrapper obtained later still finds every stored document. */
  method DeleteManyIsPrivate(db: FileDatabase, name: string, q: Query, rx: RegexEngine)
    returns (removed: nat, kept: seq<Document>, seen: seq<Document>)
    requires db.Valid() && name in db.collections
    modifies db
    ensures removed == |Select(old(db.collections[name].docs), q, rx)|
    ensures kept == Reject(old(db.collections[name].docs), q, rx)
    ensures seen == old(db.collections[name].docs)
  {
    var first := db.Collection(name);
    removed := first.DeleteMany(q, rx);
    kept := first.Find(map[], rx);
    SelectEmptyQuery(first.data.docs, rx);
    var later := db.Collection(name);
    seen := later.Find(map[], rx);
    SelectEmptyQuery(later.data.docs, rx);
  }

  const AtLeast150: Query := map["price" := Obj(map["$gte" := Num(150)])]
  const NamedDrillA: Query := map["name" := Str("Drill A")]

  /** The two queries of the drill session, on the two documents alone. */
  lemma DrillQueries(a: Document, b: Document, rx: RegexEngine)
    requires Get(a, "price") == Num(100) && Get(a, "name") == Str("Drill A")
    requires Get(b, "price") == Num(200)
    ensures Select([a, b], AtLeast150, rx) == [b]
    ensures FirstMatch([a, b], NamedDrillA, rx) == Some(0)
    ensures RemoveAt([a, b], 0) == [b]
  {
    LowerBound(a, "price", Num(150), rx);
    LowerBound(b, "price", Num(150), rx);
    assert !Matches(a, AtLeast150, rx) by {
      assert "price" in AtLeast150;
    }
    assert Matches(b, AtLeast150, rx);
    assert [a, b][1..] == [b];
    assert [b][1..] == [];
    LiteralClause(a, "name", Str("Drill A"), rx);
    assert Matches(a, NamedDrillA, rx);
  }

  /** A document inserted as `{ name, price }` keeps both fields. */
  lemma InsertedDrill(name: string, price: int, id: string, now: string)
    ensures Get(NewDocument(map["name" := Str(name), "price" := Num(price)], id, now), "name") == Str(name)
    ensures Get(NewDocument(map["name" := Str(name), "price" := Num(price)], id, now), "price") == Num(price)
  {
    var doc := map["name" := Str(name), "price" := Num(price)];
    assert "name" in doc && "price" in doc;
  }

  /** Two drills priced 100 and 200 inserted into `collection('drills')`,
      a name the store is not seeded with: `{ price: { $gte: 150 } }` finds
      only the second, the collection counts two, deleting the first by
      name succeeds and leaves one. */
  method DrillSession(fixtures: Fixtures, idA: string, idB: string, now: string, rx: RegexEngine)
    returns (expensive: seq<Document>, countBefore: nat, deleted: bool, countAfter: nat)
    ensures |expensive| == 1 && Get(expensive[0], "name") == Str("Drill B")
    ensures countBefore == 2 && deleted && countAfter == 1
  {
    var db := new FileDatabase(fixtures);
    assert "drills" !in db.collections;
    var drills := db.Collection("drills");
    var a := drills.InsertOne(map["name" := Str("Drill A"), "price" := Num(100)], idA, now);
    var b := drills.InsertOne(map["name" := Str("Drill B"), "price" := Num(200)], idB, now);
    assert drills.data.docs == [a, b];
    InsertedDrill("Drill A", 100, idA, now);
    InsertedDrill("Drill B", 200, idB, now);
    DrillQueries(a, b, rx);

    expensive := drills.Find(AtLeast150, rx);
    SelectEmptyQuery([a, b], rx);
    countBefore := drills.CountDocuments(map[], rx);
    deleted := drills.DeleteOne(NamedDrillA, rx);
    SelectEmptyQuery([b], rx);
    countAfter := drills.CountDocuments(map[], rx);
  }
}
