/** The document store itself: `FileDatabase`, a registry from collection
    name to a mutable array of documents, and `Collection`, the wrapper
    `collection(name)` hands out around that array. Every call to
    `collection(name)` returns a new wrapper, but all wrappers for one name
    share one array, so what one wrapper changes in place the others see. */
module Store {
  import opened Values
  import opened QueryMatcher
  import opened Documents

  /** The array stored under one collection name. */
  class Backing {
    var docs: seq<Document>

    constructor (docs: seq<Document>)
      ensures this.docs == docs
    {
      this.docs := docs;
    }
  }

  /** The wrapper around a collection's array. `data` is the wrapper's own
      reference: `deleteMany` rebinds it to a new array, the other
      operations change the array it refers to. */
  class Collection {
    var data: Backing
    const name: string

    constructor (data: Backing, name: string)
      ensures this.data == data && this.name == name
    {
      this.data := data;
      this.name := name;
    }

    /** `find(query)`: exactly the stored documents that match, in stored
        order. */
    function Find(q: Query, rx: RegexEngine): (r: seq<Document>)
      reads this, data
      ensures forall d :: d in r <==> d in data.docs && Matches(d, q, rx)
      ensures r == Select(data.docs, q, rx)
    {
      Select(data.docs, q, rx)
    }

    /** `findOne(query)`: the first element of `find(query)`, or null. */
    function FindOne(q: Query, rx: RegexEngine): (r: Option<Document>)
      reads this, data
      ensures r == if Find(q, rx) == [] then None else Some(Find(q, rx)[0])
      ensures r.Some? ==> r.value in data.docs && Matches(r.value, q, rx)
    {
      FindOneIsFirstOfSelect(data.docs, q, rx);
      Documents.FindOne(data.docs, q, rx)
    }

    /** `findById(id)`: `findOne({ _id: id })`. */
    function FindById(id: string): (r: Option<Document>)
      reads this, data
      ensures forall rx: RegexEngine :: r == FindOne(IdQuery(id), rx)
      ensures r.Some? ==> r.value in data.docs && Get(r.value, "_id") == Str(id)
    {
      assert forall rx: RegexEngine :: Documents.FindById(data.docs, id) == Documents.FindOne(data.docs, IdQuery(id), rx) by {
        forall rx: RegexEngine {
          FindByIdAnyEngine(data.docs, id, rx);
        }
      }
      Documents.FindById(data.docs, id)
    }

    /** `countDocuments(query)`: the length of `find(query)`; with the
        documents that do not match it makes up the whole array. */
    function CountDocuments(q: Query, rx: RegexEngine): (r: nat)
      reads this, data
      ensures r == |Find(q, rx)|
      ensures r + |Reject(data.docs, q, rx)| == |data.docs|
    {
      SelectRejectPartition(data.docs, q, rx);
      |Select(data.docs, q, rx)|
    }

    /** `insertOne(document)`: appends the stamped document to the shared
        array and returns it. The fresh id and the time are supplied by the
        caller. */
    method InsertOne(document: Document, freshId: string, now: string) returns (inserted: Document)
      modifies data
      ensures inserted == NewDocument(document, freshId, now)
      ensures data.docs == old(data.docs) + [inserted]
    {
      inserted := NewDocument(document, freshId, now);
      data.docs := data.docs + [inserted];
    }

    /** `insertMany(documents)`: `insertOne` on each document in argument
        order, one fresh id and one time per document. */
    method InsertMany(documents: seq<Document>, freshIds: seq<string>, nows: seq<string>)
      returns (inserted: seq<Document>)
      requires |freshIds| == |documents| && |nows| == |documents|
      modifies data
      ensures |inserted| == |documents|
      ensures forall i :: 0 <= i < |documents| ==> inserted[i] == NewDocument(documents[i], freshIds[i], nows[i])
      ensures data.docs == old(data.docs) + inserted
    {
      inserted := [];
      var i := 0;
      while i < |documents|
        invariant 0 <= i <= |documents|
        invariant |inserted| == i
        invariant forall j :: 0 <= j < i ==> inserted[j] == NewDocument(documents[j], freshIds[j], nows[j])
        invariant data.docs == old(data.docs) + inserted
      {
        var d := InsertOne(documents[i], freshIds[i], nows[i]);
        inserted := inserted + [d];
        i := i + 1;
      }
    }

    /** `updateOne(query, update)`: merges the patch into the first match
        only, in place; false and no change when nothing matches. */
    method UpdateOne(q: Query, patch: Document, now: string, rx: RegexEngine) returns (updated: bool)
      modifies data
      ensures updated <==> FirstMatch(old(data.docs), q, rx).Some?
      ensures !updated ==> data.docs == old(data.docs)
      ensures updated ==>
        var i := FirstMatch(old(data.docs), q, rx).value;
        data.docs == old(data.docs)[i := Merge(old(data.docs)[i], patch, now)]
    {
      var index := FirstMatch(data.docs, q, rx);
      if index.None? {
        return false;
      }
      data.docs := data.docs[index.value := Merge(data.docs[index.value], patch, now)];
      return true;
    }

    /** `updateMany(query, update)`: one pass over the array merging the
        patch into every match and counting them. */
    method UpdateMany(q: Query, patch: Document, now: string, rx: RegexEngine) returns (count: nat)
      modifies data
      ensures data.docs == UpdateAll(old(data.docs), q, patch, now, rx)
      ensures count == |Select(old(data.docs), q, rx)|
    {
      ghost var before := data.docs;
      count := 0;
      var index := 0;
      while index < |data.docs|
        invariant |data.docs| == |before|
        invariant 0 <= index <= |before|
        invariant forall j :: 0 <= j < index ==> data.docs[j] == UpdateIfMatch(before[j], q, patch, now, rx)
        invariant forall j :: index <= j < |before| ==> data.docs[j] == before[j]
        invariant count == |Select(before[..index], q, rx)|
      {
        var item := data.docs[index];
        SelectPrefixStep(before, index, q, rx);
        if Matches(item, q, rx) {
          data.docs := data.docs[index := Merge(item, patch, now)];
          count := count + 1;
        }
        index := index + 1;
      }
      assert before[..index] == before;
      assert data.docs == UpdateAll(before, q, patch, now, rx);
    }

    /** `deleteOne(query)`: splices the first match out of the shared array;
        false and no change when nothing matches. */
    method DeleteOne(q: Query, rx: RegexEngine) returns (deleted: bool)
      modifies data
      ensures deleted <==> FirstMatch(old(data.docs), q, rx).Some?
      ensures !deleted ==> data.docs == old(data.docs)
      ensures deleted ==> data.docs == RemoveAt(old(data.docs), FirstMatch(old(data.docs), q, rx).value)
    {
      var index := FirstMatch(data.docs, q, rx);
      if index.None? {
        return false;
      }
      data.docs := RemoveAt(data.docs, index.value);
      return true;
    }

    /** `deleteMany(query)`: rebinds this wrapper to a new array holding the
        documents that do not match, and returns how many fewer there are.
        The shared array is left as it was. */
    method DeleteMany(q: Query, rx: RegexEngine) returns (removed: nat)
      modifies this
      ensures fresh(data) && data.docs == Reject(old(data.docs), q, rx)
      ensures removed == |Select(old(data.docs), q, rx)|
      ensures old(data).docs == old(data.docs)
    {
      var initialLength := |data.docs|;
      SelectRejectPartition(data.docs, q, rx);
      data := new Backing(Reject(data.docs, q, rx));
      removed := initialLength - |data.docs|;
    }
  }

  /** The fixture contents the store starts with; the documents themselves
      are not part of this model. */
  datatype Fixtures = Fixtures(
    users: seq<Document>, tools: seq<Document>, orders: seq<Document>,
    reviews: seq<Document>, bookings: seq<Document>, categories: seq<Document>,
    brands: seq<Document>, news: seq<Document>, faqs: seq<Document>)

  /** The names the store is created with, in the order it seeds them. */
  const SeedOrder: seq<string> :=
    ["users", "tools", "orders", "reviews", "bookings", "categories", "brands", "news", "faqs", "contacts"]

  /** What the store seeds under each name; `contacts` starts empty. */
  function FixtureFor(fixtures: Fixtures, name: string): seq<Document>
  {
    if name == "users" then fixtures.users
    else if name == "tools" then fixtures.tools
    else if name == "orders" then fixtures.orders
    else if name == "reviews" then fixtures.reviews
    else if name == "bookings" then fixtures.bookings
    else if name == "categories" then fixtures.categories
    else if name == "brands" then fixtures.brands
    else if name == "news" then fixtures.news
    else if name == "faqs" then fixtures.faqs
    else []
  }

  class FileDatabase {
    var collections: map<string, Backing>

    /** Distinct names own distinct arrays. */
    ghost predicate Valid()
      reads this
    {
      forall a, b :: a in collections && b in collections && a != b ==> collections[a] != collections[b]
    }

    /** The store starts with the seeded collections, each holding its
        fixture documents in an array of its own. */
    constructor (fixtures: Fixtures)
      ensures Valid()
      ensures collections.Keys == set n | n in SeedOrder
      ensures forall n :: n in collections ==> fresh(collections[n]) && collections[n].docs == FixtureFor(fixtures, n)
    {
      collections := map[];
      new;
      var i := 0;
      while i < |SeedOrder|
        invariant 0 <= i <= |SeedOrder|
        invariant Valid()
        invariant collections.Keys == set n | n in SeedOrder[..i]
        invariant forall n :: n in collections ==> fresh(collections[n]) && collections[n].docs == FixtureFor(fixtures, n)
      {
        var name := SeedOrder[i];
        var seeded := new Backing(FixtureFor(fixtures, name));
        assert SeedOrder[..i + 1] == SeedOrder[..i] + [name];
        collections := collections[name := seeded];
        i := i + 1;
      }
      assert SeedOrder[..i] == SeedOrder;
    }

    /** `collection(name)`: a new wrapper around the array stored under
        `name`, which is created empty on first use. */
    method Collection(name: string) returns (c: Collection)
      requires Valid()
      modifies this
      ensures Valid()
      ensures fresh(c) && c.name == name
      ensures name in collections && c.data == collections[name]
      ensures name in old(collections) ==> collections == old(collections)
      ensures name !in old(collections) ==>
        fresh(c.data) && c.data.docs == [] && collections == old(collections)[name := c.data]
    {
      if name !in collections {
        var created := new Backing([]);
        collections := collections[name := created];
      }
      c := new Collection(collections[name], name);
    }
  }
}
