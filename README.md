# In-memory document store of the instrument-rental site

This project models the document store in `src/lib/database.ts` of the rental
storefront. It is a MongoDB-style store that lives only in process memory:

- `FileDatabase` maps collection names to arrays of documents. It seeds ten
  named collections when it is built.
- `collection(name)` creates an empty array for a name it has not seen. On
  every call it returns a new `Collection` wrapper around the shared array.
- `Collection` offers `find`, `findOne`, `findById`, `countDocuments`,
  `insertOne`, `insertMany`, `updateOne`, `updateMany`, `deleteOne` and
  `deleteMany`.
- `matchesQuery` decides whether a document satisfies a query. Each entry of
  a query is either a literal, checked with `===`, or an operator object.
  An operator object applies only the first operator in force: a truthy
  `$regex`, then a truthy `$in`, then a `$gte`, then a `$lte`, each bound
  only when it is not `undefined`.

Files:

- `values.dfy` (module `Values`): JavaScript values, documents as
  `map<string, Value>`, truthiness, `===`, `includes` and `<`.
- `query.dfy` (module `QueryMatcher`): the matcher and its properties.
  These include the operator dispatch order, and the fact that unknown
  operators such as `$or` and `$ne` are ignored.
- `documents.dfy` (module `Documents`): what each collection operation
  computes, stated on a sequence of documents. Filtering, the first-match
  index, the inserted document, the update merge and `splice` are here,
  with lemmas relating them.
- `store.dfy` (module `Store`): the heap model.
  - `Backing` is the shared JavaScript array.
  - `Collection` is the wrapper. Its `data` field is the wrapper's own
    reference, which `DeleteMany` rebinds.
  - `FileDatabase` holds `map<string, Backing>`.
  - The mutating operations are methods with `modifies` clauses.
    `UpdateMany` and `InsertMany` are loops with invariants.
- `scenarios.dfy` (module `Scenarios`): callers written against the
  contracts alone.
  - Two wrappers for one name see each other's `deleteOne`, but not a
    `deleteMany`.
  - A `deleteOne` under one name leaves every other name's array as it
    was.
  - A short session on a collection created on first use.

The parts of the host that the store calls are passed in as parameters:

- `uuidv4()` becomes a `freshId` string.
- `new Date().toISOString()` becomes a `now` string.
- `new RegExp(pattern, flags).test(subject)` becomes a `RegexEngine`
  function value. It also covers the host's conversion of its arguments to
  strings. Every property holds for any engine.

Behaviour of `database.ts` that a MongoDB user might not expect:

- An update patch may overwrite `_id` and `createdAt`. Only `updatedAt` is
  forced, to the current time.
- A top-level `$or: [...]` entry is an array. Arrays take the operator
  branch, which finds no known operator, so the entry constrains nothing.
- `deleteMany` leaves the shared array untouched. It only rebinds the
  wrapper it was called on, so other wrappers still see the deleted
  documents.

## Model

| member | source | states |
|---|---|---|
| `QueryMatcher.Flags` | src/lib/database.ts:636 | the flags passed to the engine are always truthy: exactly `$options` when it is truthy, otherwise `'i'` |
| `QueryMatcher.OperatorHolds` | src/lib/database.ts:635-644 | definition of the operator dispatch; an object with no operator in force, and any array, imposes nothing; its other properties are the lemmas listed below |
| `QueryMatcher.ClauseHolds` | src/lib/database.ts:634-647 | definition of one query entry; an array entry always holds, and a string entry holds iff the field is that string |
| `QueryMatcher.Matches` | src/lib/database.ts:632-650 | definition of the matcher; the empty query matches, and a matching document carries every string literal of the query; its other properties are the lemmas listed below |
| `QueryMatcher.EmptyQueryMatchesAll` | src/lib/database.ts:632-649 | the empty query matches every document |
| `QueryMatcher.MatchesConjunction` | src/lib/database.ts:633-649 | a query split into two key-disjoint parts matches iff both parts match (logical AND) |
| `QueryMatcher.MatchesExtend` | src/lib/database.ts:633-649 | adding an entry for a new field matches iff the old query matches and the new entry holds |
| `QueryMatcher.UnknownOperatorIgnored` | src/lib/database.ts:634-645 | an array or object clause with none of the four operators in force leaves the set of matching documents unchanged |
| `QueryMatcher.OrIsIgnored` | src/lib/database.ts:634-645 | a `$or` array entry is ignored whatever its alternatives |
| `QueryMatcher.NotEqualIsIgnored` | src/lib/database.ts:634-645 | a `{$ne: v}` clause is ignored, so documents whose field equals `v` still match |
| `QueryMatcher.LiteralClause` | src/lib/database.ts:645-647 | a non-object clause holds iff the field equals it; an absent field equals only `undefined` |
| `QueryMatcher.RegexTakesPrecedence` | src/lib/database.ts:635-637 | a truthy `$regex` decides the clause through the engine, ignoring every other operator; flags are `$options`, or `'i'` when it is absent or empty |
| `QueryMatcher.InMembership` | src/lib/database.ts:638-639 | `$in` accepts a field iff the list holds it; an empty list rejects every document |
| `QueryMatcher.LowerBound` | src/lib/database.ts:640-641 | `$gte` rejects only a field strictly below the bound; any defined bound applies, 0 included; a missing field is never rejected |
| `QueryMatcher.LowerBoundShadowsUpper` | src/lib/database.ts:640-644 | in `{$gte, $lte}` only the lower bound is checked |
| `QueryMatcher.UpperBound` | src/lib/database.ts:642-643 | `$lte` rejects only a field strictly above the bound; a missing field is never rejected |
| `Values.LessThanTrichotomy` | src/lib/database.ts:640-643 | on two numbers or two strings, exactly one of `<`, `===`, `>` holds |
| `Values.StrictEqualsPrimitive` | src/lib/database.ts:646 | `===` against a primitive is equality of values |
| `Documents.Select` | src/lib/database.ts:561-563 | the filter is no longer than the array and holds exactly the stored documents that match |
| `Documents.Reject` | src/lib/database.ts:622-624 | the kept array holds exactly the stored documents that do not match |
| `Documents.FirstMatch` | src/lib/database.ts:589 | the index found matches, and no earlier document does; with none found, no document matches |
| `Documents.FindOne` | src/lib/database.ts:565-567 | a document is returned iff some stored document matches, and it is a stored matching one |
| `Documents.FindById` | src/lib/database.ts:569-571 | a returned document is stored and its `_id` is the string `id` |
| `Documents.IdQueryMatches` | src/lib/database.ts:570 | a document matches `{_id: id}` iff its `_id` is the string `id`, whatever the engine |
| `Documents.NewDocument` | src/lib/database.ts:574-579 | the caller's fields are kept; `_id` is the caller's if given, else the fresh id; both timestamps are the insertion time, overriding the caller's |
| `Documents.Merge` | src/lib/database.ts:591-595 | patch fields overwrite, including `_id` and `createdAt`; other fields are kept; `updatedAt` is the update time |
| `Documents.UpdateIfMatch` | src/lib/database.ts:602-609 | one step of the `forEach`: a non-matching document is unchanged; a matching one becomes `Merge(item, patch, now)`, so each patched field takes the patch's value, every other field keeps its old value, and `updatedAt` is the new time |
| `Documents.UpdateAll` | src/lib/database.ts:600-613 | same length; each matching document is merged with the patch and every other one is unchanged |
| `Documents.RemoveAt` | src/lib/database.ts:618 | one shorter; earlier documents stay in place and later ones move down by one |
| `Documents.SelectAppend` | src/lib/database.ts:561-563 | the filter distributes over concatenation, so stored order is kept |
| `Documents.RejectAppend` | src/lib/database.ts:622-624 | the kept array keeps stored order |
| `Documents.SelectEmptyQuery` | src/lib/database.ts:561-563 | `find({})` is the whole array |
| `Documents.SelectRejectPartition` | src/lib/database.ts:622-626 | matches plus non-matches equal the length, so the removed count is the number of matches |
| `Documents.RejectLeavesNoMatch` | src/lib/database.ts:622-626 | no kept document matches the query |
| `Documents.SelectCompose` | src/lib/database.ts:632-649 | filtering by `q1` and then by a key-disjoint `q2` is filtering by their union |
| `Documents.LiteralQueryIgnoresEngine` | src/lib/database.ts:645-647 | a query of literals matches the same documents under any regular expression engine |
| `Documents.FindOneIsFirstOfSelect` | src/lib/database.ts:565-567 | `findOne(q)` is the first element of `find(q)`, or null when that is empty |
| `Documents.FindByIdIsFirstWithId` | src/lib/database.ts:569-571 | `findById(id)` is the first stored document whose `_id` is `id`, and null iff there is none |
| `Documents.FindByIdAnyEngine` | src/lib/database.ts:569-571 | `findById(id)` equals `findOne({_id: id})` under every regular expression engine |
| `Documents.InsertThenFindById` | src/lib/database.ts:573-582 | after an insert whose `_id` is new to the array, `findById` returns the inserted document, and its two timestamps are equal in the model, which reads the clock once |
| `Documents.FreshIdsDistinct` | src/lib/database.ts:575 | documents inserted without `_id` under distinct fresh ids get distinct `_id`s |
| `Documents.SelectAfterRemoveFirst` | src/lib/database.ts:615-620 | after removing the first match, `find(q)` is the old result minus its first element |
| `Documents.UpdateEverything` | src/lib/database.ts:600-613 | `updateMany({}, u)` counts every document, and every document then carries each patched field and the new `updatedAt` |
| `Store.Backing.constructor` | src/lib/database.ts:258 | a new array holds exactly the given documents (the empty array of an unknown name, or a seeded fixture) |
| `Store.Collection.constructor` | src/lib/database.ts:559 | the wrapper refers to the given array under the given name |
| `Store.Collection.Find` | src/lib/database.ts:561-563 | returns exactly the documents of the wrapper's array that match, in stored order |
| `Store.Collection.FindOne` | src/lib/database.ts:565-567 | returns the first element of `Find`, or null; a returned document is stored and matches |
| `Store.Collection.FindById` | src/lib/database.ts:569-571 | equals `FindOne({_id: id})` under every regular expression engine; a returned document has that `_id` |
| `Store.Collection.CountDocuments` | src/lib/database.ts:628-630 | equals the length of `Find`; with the non-matching documents it makes up the array |
| `Store.Collection.InsertOne` | src/lib/database.ts:573-582 | appends exactly the stamped document at the end of the shared array and returns it |
| `Store.Collection.InsertMany` | src/lib/database.ts:584-586 | inserts each document in argument order and returns the stamped documents in that order |
| `Store.Collection.UpdateOne` | src/lib/database.ts:588-598 | with no match: false and no change; otherwise true, and only the first match is replaced by its merge |
| `Store.Collection.UpdateMany` | src/lib/database.ts:600-613 | the array becomes `UpdateAll` of the old one; returns the number of matches |
| `Store.Collection.DeleteOne` | src/lib/database.ts:615-620 | with no match: false and no change; otherwise true, and the first match is spliced out of the shared array |
| `Store.Collection.DeleteMany` | src/lib/database.ts:622-626 | the wrapper now refers to a fresh array of the non-matching documents in order; returns the number of matches; the shared array is unchanged |
| `Store.FileDatabase.constructor` | src/lib/database.ts:237-253 | creates the ten seeded names, each with its fixture documents in an array of its own (`contacts` empty) |
| `Store.FileDatabase.Collection` | src/lib/database.ts:256-261 | returns a fresh wrapper around the array stored under the name; an unknown name gets a new empty array; distinct names keep distinct arrays |
| `Scenarios.DeleteOneIsShared` | src/lib/database.ts:615-620 | `deleteOne` through one wrapper is what a second wrapper for the same name then finds |
| `Scenarios.DeleteOneIsLocal` | src/lib/database.ts:256-261 | `deleteOne` through a wrapper for one name leaves the documents stored under any other name unchanged |
| `Scenarios.DeleteManyIsPrivate` | src/lib/database.ts:622-626 | after `deleteMany` the wrapper holds the non-matching documents, but a wrapper obtained later still finds them all |
| `Scenarios.DrillSession` | src/lib/database.ts:256-630 | on a fresh store, `collection('drills')` starts empty; two drills priced 100 and 200 are inserted: `$gte: 150` finds only the second, the count is 2, deleting the first by name succeeds, and the count is then 1 |

## Left out

- Identifier generation (`uuidv4`) is not modelled: the fresh id is a parameter. Uniqueness of generated ids is therefore an assumption (`FreshIdsDistinct`), not a fact.
- The clock is a parameter read once per call. The source reads it twice in `insertOne` (`createdAt`, `updatedAt`) and once per updated document in `updateMany`, so real timestamps can differ. That `updatedAt` never decreases is not modelled either.
- The regular expression engine is a parameter (`RegexEngine`). So are the host's string conversion of the pattern, the flags and the field. A pattern or flag string that `RegExp` rejects throws in the source; the model's engine is total.
- `QueryMatcher.OperatorHolds`: a `$in` operand that is truthy but not an array reads as containing nothing. In the source, a string operand does a substring test and other kinds throw.
- `Values.LessThan`: `<` is exact for two strings, for numbers, booleans and `null` (compared as numbers), and for any comparison with `undefined` (false). A string compared with a non-string, and arrays or objects, compare as false. The source converts them with JavaScript's coercion rules.
- `Values.StrLess`: strings are compared character by character (Unicode scalar values). JavaScript compares UTF-16 code units, which orders characters above U+FFFF differently.
- `Values.StrictEquals`: arrays and objects compare by reference in JavaScript; values here have no identity, so two composite values are never strictly equal (relevant only to `$in` lists holding arrays or objects).
- Numbers are integers; floating-point fields such as ratings are not modelled.
- Documents are maps, so field order is not modelled. The store never depends on it.
- Reading a field named after an `Object.prototype` member, such as `constructor`, is not modelled: an absent field always reads as `undefined`.
- `find`, `findOne`, `findById`, `insertOne` and `insertMany` return the very objects the array stores (`filter` and `map` copy references), so a caller mutating a returned document changes what every wrapper for that name sees. The model returns values, so this sharing of documents is not expressed.
- The optional `query = {}` defaults become an explicit empty map.
- The fixture documents (`getInitial*`), the TypeScript interfaces and the exported singleton `db` are not modelled. The fixtures enter as a parameter of the `FileDatabase` constructor.
- The page components under `src/pages` and `src/App.tsx` consume the store and are not part of this model.
