/** What the collection operations compute, stated on the sequence of
    documents a collection holds: filtering (`find`, and the filter that
    `deleteMany` keeps), the first-match search (`findIndex`, used by
    `findOne`, `updateOne` and `deleteOne`), the documents built by
    `insertOne` and by the update merge, and removal at an index
    (`splice`). */
module Documents {
  import opened Values
  import opened QueryMatcher

  /** `data.filter(item => matchesQuery(item, query))`. */
  function Select(docs: seq<Document>, q: Query, rx: RegexEngine): (r: seq<Document>)
    ensures |r| <= |docs|
    ensures forall d :: d in r ==> d in docs && Matches(d, q, rx)
    ensures forall i :: 0 <= i < |docs| && Matches(docs[i], q, rx) ==> docs[i] in r
    decreases |docs|
  {
    if docs == [] then []
    else if Matches(docs[0], q, rx) then [docs[0]] + Select(docs[1..], q, rx)
    else Select(docs[1..], q, rx)
  }

  /** `data.filter(item => !matchesQuery(item, query))`. */
  function Reject(docs: seq<Document>, q: Query, rx: RegexEngine): (r: seq<Document>)
    ensures |r| <= |docs|
    ensures forall d :: d in r ==> d in docs && !Matches(d, q, rx)
    ensures forall i :: 0 <= i < |docs| && !Matches(docs[i], q, rx) ==> docs[i] in r
    decreases |docs|
  {
    if docs == [] then []
    else if Matches(docs[0], q, rx) then Reject(docs[1..], q, rx)
    else [docs[0]] + Reject(docs[1..], q, rx)
  }

  /** `data.findIndex(item => matchesQuery(item, query))`, with None for -1. */
  function FirstMatch(docs: seq<Document>, q: Query, rx: RegexEngine): (r: Option<nat>)
    ensures r.Some? ==> r.value < |docs| && Matches(docs[r.value], q, rx)
    ensures r.Some? ==> forall j :: 0 <= j < r.value ==> !Matches(docs[j], q, rx)
    ensures r.None? ==> forall j :: 0 <= j < |docs| ==> !Matches(docs[j], q, rx)
    decreases |docs|
  {
    if docs == [] then None
    else if Matches(docs[0], q, rx) then Some(0)
    else
      match FirstMatch(docs[1..], q, rx)
      case None => None
      case Some(i) => Some(i + 1)
  }

  /** `find(query)[0] || null`: documents are objects, so the `|| null`
      only turns "no first element" into null. */
  function FindOne(docs: seq<Document>, q: Query, rx: RegexEngine): (r: Option<Document>)
    ensures r.Some? <==> exists i :: 0 <= i < |docs| && Matches(docs[i], q, rx)
    ensures r.Some? ==> r.value in docs && Matches(r.value, q, rx)
  {
    match FirstMatch(docs, q, rx)
    case None => None
    case Some(i) => Some(docs[i])
  }

  /** The query `{ _id: id }`. */
  function IdQuery(id: string): Query
  {
    map["_id" := Str(id)]
  }

  /** A document matches `{ _id: id }` iff its `_id` is the string `id`;
      the engine plays no part. */
  lemma IdQueryMatches(d: Document, id: string, rx: RegexEngine)
    ensures Matches(d, IdQuery(id), rx) <==> Get(d, "_id") == Str(id)
  {
    var q := IdQuery(id);
    assert q.Keys == {"_id"} && q["_id"] == Str(id);
    LiteralClause(d, "_id", Str(id), rx);
  }

  /** A literal-only query never consults the regular expression engine;
      `findById` therefore needs none, and this one stands in for it. */
  const NoEngine: RegexEngine := (pattern, flags, subject) => false

  /** `findOne({ _id: id })`. */
  function FindById(docs: seq<Document>, id: string): (r: Option<Document>)
    ensures r.Some? ==> r.value in docs && Get(r.value, "_id") == Str(id)
  {
    match FindOne(docs, IdQuery(id), NoEngine)
    case None => None
    case Some(d) =>
      IdQueryMatches(d, id, NoEngine);
      Some(d)
  }

  /** `{ _id: uuidv4(), ...document, createdAt: now, updatedAt: now }`: the
      caller's `_id` wins over the fresh one, and the timestamps win over
      the caller's. */
  function NewDocument(doc: Document, freshId: string, now: string): (r: Document)
    ensures r.Keys == doc.Keys + {"_id", "createdAt", "updatedAt"}
    ensures r["_id"] == if "_id" in doc then doc["_id"] else Str(freshId)
    ensures r["createdAt"] == Str(now) && r["updatedAt"] == Str(now)
    ensures forall k :: k in doc && k != "createdAt" && k != "updatedAt" ==> r[k] == doc[k]
  {
    map["_id" := Str(freshId)] + doc + map["createdAt" := Str(now), "updatedAt" := Str(now)]
  }

  /** `{ ...item, ...update, updatedAt: now }`: a shallow merge in which the
      patch may overwrite any field, `_id` and `createdAt` included. */
  function Merge(item: Document, patch: Document, now: string): (r: Document)
    ensures r.Keys == item.Keys + patch.Keys + {"updatedAt"}
    ensures r["updatedAt"] == Str(now)
    ensures forall k :: k in patch && k != "updatedAt" ==> r[k] == patch[k]
    ensures forall k :: k in item && k !in patch && k != "updatedAt" ==> r[k] == item[k]
  {
    item + patch + map["updatedAt" := Str(now)]
  }

  /** One step of `updateMany`: a matching document merged with the patch,
      any other document as it was. */
  function UpdateIfMatch(item: Document, q: Query, patch: Document, now: string, rx: RegexEngine): (r: Document)
    ensures item.Keys <= r.Keys
    ensures Matches(item, q, rx) ==> patch.Keys <= r.Keys && "updatedAt" in r && r["updatedAt"] == Str(now)
    ensures Matches(item, q, rx) ==> r == Merge(item, patch, now)
    ensures !Matches(item, q, rx) ==> r == item
  {
    if Matches(item, q, rx) then Merge(item, patch, now) else item
  }

  /** The array `updateMany` leaves behind: every matching document merged
      with the patch, every other one as it was, the length unchanged. */
  function UpdateAll(docs: seq<Document>, q: Query, patch: Document, now: string, rx: RegexEngine): (r: seq<Document>)
    ensures |r| == |docs|
    ensures forall i :: 0 <= i < |docs| ==> r[i] == UpdateIfMatch(docs[i], q, patch, now, rx)
    decreases |docs|
  {
    if docs == [] then []
    else [UpdateIfMatch(docs[0], q, patch, now, rx)] + UpdateAll(docs[1..], q, patch, now, rx)
  }

  /** `data.splice(index, 1)`: the document at `index` goes, later ones move
      down by one. */
  function RemoveAt(docs: seq<Document>, index: nat): (r: seq<Document>)
    requires index < |docs|
    ensures |r| == |docs| - 1
    ensures forall j :: 0 <= j < index ==> r[j] == docs[j]
    ensures forall j :: index <= j < |r| ==> r[j] == docs[j + 1]
  {
    docs[..index] + docs[index + 1..]
  }

  // ---------------------------------------------------------------------
  // Properties of the filters

  /** Filtering keeps stored order: it distributes over concatenation. */
  lemma {:induction false} SelectAppend(a: seq<Document>, b: seq<Document>, q: Query, rx: RegexEngine)
    ensures Select(a + b, q, rx) == Select(a, q, rx) + Select(b, q, rx)
    decreases |a|
  {
    if a == [] {
      assert a + b == b;
    } else {
      assert (a + b)[0] == a[0] && (a + b)[1..] == a[1..] + b;
      SelectAppend(a[1..], b, q, rx);
    }
  }

  /** Extending a prefix by one document extends its filter by that
      document exactly when it matches. */
  lemma SelectPrefixStep(docs: seq<Document>, index: nat, q: Query, rx: RegexEngine)
    requires index < |docs|
    ensures |Select(docs[..index + 1], q, rx)| ==
      |Select(docs[..index], q, rx)| + if Matches(docs[index], q, rx) then 1 else 0
  {
    assert docs[..index + 1] == docs[..index] + [docs[index]];
    SelectAppend(docs[..index], [docs[index]], q, rx);
  }

  /** Rejecting keeps stored order too. */
  lemma {:induction false} RejectAppend(a: seq<Document>, b: seq<Document>, q: Query, rx: RegexEngine)
    ensures Reject(a + b, q, rx) == Reject(a, q, rx) + Reject(b, q, rx)
    decreases |a|
  {
    if a == [] {
      assert a + b == b;
    } else {
      assert (a + b)[0] == a[0] && (a + b)[1..] == a[1..] + b;
      RejectAppend(a[1..], b, q, rx);
    }
  }

  /** A sequence whose every document matches is its own filter. */
  lemma {:induction false} SelectAllMatch(docs: seq<Document>, q: Query, rx: RegexEngine)
    requires forall i :: 0 <= i < |docs| ==> Matches(docs[i], q, rx)
    ensures Select(docs, q, rx) == docs
    ensures Reject(docs, q, rx) == []
    decreases |docs|
  {
    if docs != [] {
      SelectAllMatch(docs[1..], q, rx);
    }
  }

  /** A sequence none of whose documents match filters to nothing. */
  lemma {:induction false} SelectNoneMatch(docs: seq<Document>, q: Query, rx: RegexEngine)
    requires forall i :: 0 <= i < |docs| ==> !Matches(docs[i], q, rx)
    ensures Select(docs, q, rx) == []
    ensures Reject(docs, q, rx) == docs
    decreases |docs|
  {
    if docs != [] {
      SelectNoneMatch(docs[1..], q, rx);
    }
  }

  /** `find({})` returns every stored document, in stored order. */
  lemma SelectEmptyQuery(docs: seq<Document>, rx: RegexEngine)
    ensures Select(docs, map[], rx) == docs
  {
    forall i | 0 <= i < |docs| ensures Matches(docs[i], map[], rx) {
      EmptyQueryMatchesAll(docs[i], rx);
    }
    SelectAllMatch(docs, map[], rx);
  }

  /** Every document is either selected or rejected: the counts add up to
      the length, so `deleteMany`'s `initialLength - data.length` is the
      number of matches. */
  lemma {:induction false} SelectRejectPartition(docs: seq<Document>, q: Query, rx: RegexEngine)
    ensures |Select(docs, q, rx)| + |Reject(docs, q, rx)| == |docs|
    decreases |docs|
  {
    if docs != [] {
      SelectRejectPartition(docs[1..], q, rx);
    }
  }

  /** What `deleteMany` keeps contains no match of its query. */
  lemma RejectLeavesNoMatch(docs: seq<Document>, q: Query, rx: RegexEngine)
    ensures Select(Reject(docs, q, rx), q, rx) == []
  {
    var kept := Reject(docs, q, rx);
    forall i | 0 <= i < |kept| ensures !Matches(kept[i], q, rx) {
      assert kept[i] in kept;
    }
    SelectNoneMatch(kept, q, rx);
  }

  /** Filtering by one query and then by a second one on other fields is
      filtering by their union. */
  lemma {:induction false} SelectCompose(docs: seq<Document>, q1: Query, q2: Query, rx: RegexEngine)
    requires q1.Keys !! q2.Keys
    ensures Select(Select(docs, q1, rx), q2, rx) == Select(docs, q1 + q2, rx)
    decreases |docs|
  {
    if docs != [] {
      MatchesConjunction(docs[0], q1, q2, rx);
      SelectCompose(docs[1..], q1, q2, rx);
    }
  }

  /** A query made only of literals gives the same answer whatever the
      regular expression engine. */
  lemma LiteralQueryIgnoresEngine(doc: Document, q: Query, rx1: RegexEngine, rx2: RegexEngine)
    requires forall key :: key in q ==> !IsObject(q[key])
    ensures Matches(doc, q, rx1) <==> Matches(doc, q, rx2)
  {
    assert forall key :: key in q ==> (ClauseHolds(doc, key, q[key], rx1) <==> ClauseHolds(doc, key, q[key], rx2));
  }

  // ---------------------------------------------------------------------
  // findOne, findById

  /** `findOne(q)` is the first element of `find(q)`, or null when that is
      empty. */
  lemma {:induction false} FindOneIsFirstOfSelect(docs: seq<Document>, q: Query, rx: RegexEngine)
    ensures FindOne(docs, q, rx) == if Select(docs, q, rx) == [] then None else Some(Select(docs, q, rx)[0])
    decreases |docs|
  {
    if docs != [] && !Matches(docs[0], q, rx) {
      FindOneIsFirstOfSelect(docs[1..], q, rx);
      assert docs[1..][0..] == docs[1..];
    }
  }

  /** Position `i` holds the first document whose `_id` is the string `id`. */
  ghost predicate FirstWithId(docs: seq<Document>, id: string, i: nat)
    requires i < |docs|
  {
    Get(docs[i], "_id") == Str(id) && forall j :: 0 <= j < i ==> Get(docs[j], "_id") != Str(id)
  }

  /** `findById(id)` is the first stored document whose `_id` is the string
      `id`, and null when there is none. */
  lemma FindByIdIsFirstWithId(docs: seq<Document>, id: string)
    ensures FindById(docs, id).Some? <==> exists i :: 0 <= i < |docs| && Get(docs[i], "_id") == Str(id)
    ensures forall i :: 0 <= i < |docs| && FirstWithId(docs, id, i) ==> FindById(docs, id) == Some(docs[i])
  {
    forall d: Document ensures Matches(d, IdQuery(id), NoEngine) <==> Get(d, "_id") == Str(id) {
      IdQueryMatches(d, id, NoEngine);
    }
    var m := FirstMatch(docs, IdQuery(id), NoEngine);
    if m.Some? {
      forall i | 0 <= i < |docs| && FirstWithId(docs, id, i)
        ensures FindById(docs, id) == Some(docs[i])
      {
        assert m.value == i;
      }
    }
  }

  /** `findById(id)` is `findOne({ _id: id })` under any regular expression
      engine, not only the one it is computed with. */
  lemma FindByIdAnyEngine(docs: seq<Document>, id: string, rx: RegexEngine)
    ensures FindById(docs, id) == FindOne(docs, IdQuery(id), rx)
  {
  }

  // ---------------------------------------------------------------------
  // insertOne, updateOne, deleteOne

  /** Right after `insertOne`, `findById` returns the inserted document when
      no earlier document carries the same `_id`; both of its timestamps
      are the insertion time, equal in the model, which reads the clock
      once. */
  lemma InsertThenFindById(docs: seq<Document>, doc: Document, freshId: string, now: string, id: string)
    requires NewDocument(doc, freshId, now)["_id"] == Str(id)
    requires forall i :: 0 <= i < |docs| ==> Get(docs[i], "_id") != Str(id)
    ensures FindById(docs + [NewDocument(doc, freshId, now)], id) == Some(NewDocument(doc, freshId, now))
    ensures NewDocument(doc, freshId, now)["createdAt"] == NewDocument(doc, freshId, now)["updatedAt"]
  {
    var d := NewDocument(doc, freshId, now);
    var all := docs + [d];
    FindByIdIsFirstWithId(all, id);
    assert all[|docs|] == d;
    assert forall j :: 0 <= j < |docs| ==> all[j] == docs[j];
  }

  /** Documents inserted without an `_id` of their own under pairwise
      distinct fresh ids receive pairwise distinct `_id`s. */
  lemma FreshIdsDistinct(docs: seq<Document>, ids: seq<string>, nows: seq<string>)
    requires |ids| == |docs| == |nows|
    requires forall i :: 0 <= i < |docs| ==> "_id" !in docs[i]
    requires forall i, j :: 0 <= i < j < |ids| ==> ids[i] != ids[j]
    ensures forall i, j :: 0 <= i < j < |docs| ==>
      NewDocument(docs[i], ids[i], nows[i])["_id"] != NewDocument(docs[j], ids[j], nows[j])["_id"]
  {
  }

  /** After `deleteOne` removes the first match, `find` with the same query
      returns what it returned before minus its first element. */
  lemma SelectAfterRemoveFirst(docs: seq<Document>, q: Query, rx: RegexEngine)
    requires FirstMatch(docs, q, rx).Some?
    ensures Select(docs, q, rx) != []
    ensures Select(RemoveAt(docs, FirstMatch(docs, q, rx).value), q, rx) == Select(docs, q, rx)[1..]
  {
    var i := FirstMatch(docs, q, rx).value;
    assert docs == docs[..i] + ([docs[i]] + docs[i + 1..]);
    SelectAppend(docs[..i], [docs[i]] + docs[i + 1..], q, rx);
    SelectAppend([docs[i]], docs[i + 1..], q, rx);
    SelectAppend(docs[..i], docs[i + 1..], q, rx);
    SelectNoneMatch(docs[..i], q, rx);
    assert Select([docs[i]], q, rx) == [docs[i]];
  }

  /** `updateMany({}, patch)` rewrites every document: the count is the
      length of the collection, and every document afterwards carries
      each patched field and the new `updatedAt`. */
  lemma UpdateEverything(docs: seq<Document>, patch: Document, now: string, rx: RegexEngine)
    ensures |Select(docs, map[], rx)| == |docs|
    ensures forall i, k :: 0 <= i < |docs| && k in patch && k != "updatedAt" ==>
      k in UpdateAll(docs, map[], patch, now, rx)[i] && UpdateAll(docs, map[], patch, now, rx)[i][k] == patch[k]
    ensures forall i :: 0 <= i < |docs| ==> UpdateAll(docs, map[], patch, now, rx)[i]["updatedAt"] == Str(now)
  {
    SelectEmptyQuery(docs, rx);
    forall i | 0 <= i < |docs| ensures UpdateAll(docs, map[], patch, now, rx)[i] == Merge(docs[i], patch, now) {
      EmptyQueryMatchesAll(docs[i], rx);
    }
  }
}
