/** The query matcher (`Collection.matchesQuery`): whether one document
    satisfies one query. A query maps field names to clause values; a
    clause that is an array or a non-null object is an operator object,
    anything else is a literal that the field must strictly equal. */
module QueryMatcher {
  import opened Values

  type Query = map<string, Value>

  /** `new RegExp(pattern, flags).test(subject)`, including the host's
      conversion of all three arguments to strings. The regular expression
      engine is not part of this model; every property below holds for any
      engine. */
  type RegexEngine = (Value, Value, Value) -> bool

  /** `value.$options || 'i'`. */
  function Flags(clause: Value): (f: Value)
    requires IsObject(clause)
    ensures Truthy(f)
    ensures f == Property(clause, "$options") || f == Str("i")
    ensures Truthy(Property(clause, "$options")) ==> f == Property(clause, "$options")
  {
    var options := Property(clause, "$options");
    if Truthy(options) then options else Str("i")
  }

  /** An operator object applies exactly one operator, the first in force
      in the order `$regex` (truthy), `$in` (truthy), `$gte` (not
      undefined), `$lte` (not undefined); with none of them it imposes
      nothing. A non-array `$in` operand is read as containing nothing. */
  predicate OperatorHolds(clause: Value, field: Value, rx: RegexEngine)
    requires IsObject(clause)
    ensures NoKnownOperator(clause) ==> OperatorHolds(clause, field, rx)
    ensures clause.List? ==> OperatorHolds(clause, field, rx)
  {
    var pattern := Property(clause, "$regex");
    var members := Property(clause, "$in");
    var lower := Property(clause, "$gte");
    var upper := Property(clause, "$lte");
    if Truthy(pattern) then rx(pattern, Flags(clause), field)
    else if Truthy(members) then members.List? && Includes(members.items, field)
    else if !lower.Undefined? then !LessThan(field, lower)
    else if !upper.Undefined? then !LessThan(upper, field)
    else true
  }

  /** One entry of a query, checked against `item[key]`. */
  predicate ClauseHolds(doc: Document, key: string, clause: Value, rx: RegexEngine)
    ensures clause.List? ==> ClauseHolds(doc, key, clause, rx)
    ensures clause.Str? ==> (ClauseHolds(doc, key, clause, rx) <==> Get(doc, key) == clause)
  {
    if IsObject(clause) then OperatorHolds(clause, Get(doc, key), rx)
    else StrictEquals(Get(doc, key), clause)
  }

  /** A document matches a query when it satisfies every entry. */
  predicate Matches(doc: Document, query: Query, rx: RegexEngine)
    ensures query == map[] ==> Matches(doc, query, rx)
    ensures Matches(doc, query, rx) ==>
      forall key :: key in query && query[key].Str? ==> Get(doc, key) == query[key]
  {
    forall key :: key in query ==> ClauseHolds(doc, key, query[key], rx)
  }

  /** True iff the clause value names none of the four known operators in
      a way that makes it apply. */
  predicate NoKnownOperator(clause: Value)
    requires IsObject(clause)
  {
    && !Truthy(Property(clause, "$regex"))
    && !Truthy(Property(clause, "$in"))
    && Property(clause, "$gte").Undefined?
    && Property(clause, "$lte").Undefined?
  }

  /** The empty query matches every document. */
  lemma EmptyQueryMatchesAll(doc: Document, rx: RegexEngine)
    ensures Matches(doc, map[], rx)
  {
  }

  /** Matching is a conjunction: a query split into two key-disjoint parts
      is matched iff both parts are. */
  lemma MatchesConjunction(doc: Document, q1: Query, q2: Query, rx: RegexEngine)
    requires q1.Keys !! q2.Keys
    ensures Matches(doc, q1 + q2, rx) <==> Matches(doc, q1, rx) && Matches(doc, q2, rx)
  {
    if Matches(doc, q1 + q2, rx) {
      forall key | key in q1 ensures ClauseHolds(doc, key, q1[key], rx) {
        assert key !in q2;
        assert (q1 + q2)[key] == q1[key];
      }
      forall key | key in q2 ensures ClauseHolds(doc, key, q2[key], rx) {
        assert (q1 + q2)[key] == q2[key];
      }
    }
    if Matches(doc, q1, rx) && Matches(doc, q2, rx) {
      forall key | key in q1 + q2 ensures ClauseHolds(doc, key, (q1 + q2)[key], rx) {
        if key in q2 {
          assert (q1 + q2)[key] == q2[key];
        } else {
          assert (q1 + q2)[key] == q1[key];
        }
      }
    }
  }

  /** Adding an entry for a field `key` that `q` does not mention: the result
      matches iff `q` matches and the new entry holds. */
  lemma MatchesExtend(doc: Document, q: Query, key: string, clause: Value, rx: RegexEngine)
    requires key !in q
    ensures Matches(doc, q[key := clause], rx) <==> Matches(doc, q, rx) && ClauseHolds(doc, key, clause, rx)
  {
    var q' := q[key := clause];
    if Matches(doc, q', rx) {
      forall k | k in q ensures ClauseHolds(doc, k, q[k], rx) {
        assert k != key && k in q' && q'[k] == q[k];
      }
      assert key in q' && q'[key] == clause;
    }
    if Matches(doc, q, rx) && ClauseHolds(doc, key, clause, rx) {
      forall k | k in q' ensures ClauseHolds(doc, k, q'[k], rx) {
        if k != key {
          assert q'[k] == q[k];
        }
      }
    }
  }

  /** An operator object with none of the known operators (`{$ne: v}`,
      `{$exists: true}`, an empty object) constrains nothing: adding it to
      a query does not change which documents match. */
  lemma UnknownOperatorIgnored(doc: Document, q: Query, key: string, clause: Value, rx: RegexEngine)
    requires key !in q && IsObject(clause) && NoKnownOperator(clause)
    ensures Matches(doc, q[key := clause], rx) <==> Matches(doc, q, rx)
  {
    MatchesExtend(doc, q, key, clause, rx);
  }

  /** `$or: [ ... ]` is an array, hence an operator object without any of
      the four operators: it is ignored whatever its alternatives say. */
  lemma OrIsIgnored(doc: Document, q: Query, alternatives: seq<Value>, rx: RegexEngine)
    requires "$or" !in q
    ensures Matches(doc, q["$or" := List(alternatives)], rx) <==> Matches(doc, q, rx)
  {
    UnknownOperatorIgnored(doc, q, "$or", List(alternatives), rx);
  }

  /** `{$ne: v}` is ignored as well, so it does not exclude the documents
      whose field equals `v`. */
  lemma NotEqualIsIgnored(doc: Document, q: Query, key: string, v: Value, rx: RegexEngine)
    requires key !in q
    ensures Matches(doc, q[key := Obj(map["$ne" := v])], rx) <==> Matches(doc, q, rx)
  {
    var clause := Obj(map["$ne" := v]);
    assert NoKnownOperator(clause);
    UnknownOperatorIgnored(doc, q, key, clause, rx);
  }

  /** A literal clause demands `item[key] === value`; against a primitive
      that is plain equality, and an absent field equals only `undefined`. */
  lemma LiteralClause(doc: Document, key: string, v: Value, rx: RegexEngine)
    requires !IsObject(v)
    ensures ClauseHolds(doc, key, v, rx) <==> Get(doc, key) == v
    ensures key !in doc ==> (ClauseHolds(doc, key, v, rx) <==> v == Undefined)
  {
    StrictEqualsPrimitive(Get(doc, key), v);
  }

  /** A truthy `$regex` takes precedence over every other operator in the
      same object, and `$options` defaults to `'i'` when absent or empty. */
  lemma RegexTakesPrecedence(field: Value, clause: Value, rx: RegexEngine)
    requires IsObject(clause) && Truthy(Property(clause, "$regex"))
    ensures OperatorHolds(clause, field, rx) <==>
      rx(Property(clause, "$regex"),
         if Truthy(Property(clause, "$options")) then Property(clause, "$options") else Str("i"),
         field)
  {
  }

  /** `$in` with an array operand accepts a field iff the array holds it;
      an empty array is still truthy, so it rejects every document. */
  lemma InMembership(doc: Document, key: string, members: seq<Value>, rx: RegexEngine)
    ensures ClauseHolds(doc, key, Obj(map["$in" := List(members)]), rx) <==> Includes(members, Get(doc, key))
    ensures members == [] ==> !ClauseHolds(doc, key, Obj(map["$in" := List(members)]), rx)
  {
    var clause := Obj(map["$in" := List(members)]);
    assert Property(clause, "$regex") == Undefined;
    assert Property(clause, "$in") == List(members);
  }

  /** `$gte` rejects a field only when it is strictly below the bound. The
      bound is tested with `!== undefined`, so falsy bounds such as 0 still
      apply; a document without the field is never rejected, because a
      comparison with `undefined` is false. */
  lemma LowerBound(doc: Document, key: string, lower: Value, rx: RegexEngine)
    requires !lower.Undefined?
    ensures ClauseHolds(doc, key, Obj(map["$gte" := lower]), rx) <==> !LessThan(Get(doc, key), lower)
    ensures key !in doc ==> ClauseHolds(doc, key, Obj(map["$gte" := lower]), rx)
  {
    var clause := Obj(map["$gte" := lower]);
    assert Property(clause, "$regex") == Undefined && Property(clause, "$in") == Undefined;
    assert Property(clause, "$gte") == lower;
  }

  /** A range written as one object `{ $gte: lo, $lte: hi }` checks only
      the lower bound: the upper one is never consulted. */
  lemma LowerBoundShadowsUpper(doc: Document, key: string, lower: Value, upper: Value, rx: RegexEngine)
    requires !lower.Undefined?
    ensures ClauseHolds(doc, key, Obj(map["$gte" := lower, "$lte" := upper]), rx) <==>
      ClauseHolds(doc, key, Obj(map["$gte" := lower]), rx)
  {
    var clause := Obj(map["$gte" := lower, "$lte" := upper]);
    assert Property(clause, "$regex") == Undefined && Property(clause, "$in") == Undefined;
    assert Property(clause, "$gte") == lower;
    LowerBound(doc, key, lower, rx);
  }

  /** `$lte` rejects a field only when it is strictly above the bound, and
      lets a document without the field through. */
  lemma UpperBound(doc: Document, key: string, upper: Value, rx: RegexEngine)
    requires !upper.Undefined?
    ensures ClauseHolds(doc, key, Obj(map["$lte" := upper]), rx) <==> !LessThan(upper, Get(doc, key))
    ensures key !in doc ==> ClauseHolds(doc, key, Obj(map["$lte" := upper]), rx)
  {
    var clause := Obj(map["$lte" := upper]);
    assert Property(clause, "$regex") == Undefined && Property(clause, "$in") == Undefined;
    assert Property(clause, "$gte") == Undefined && Property(clause, "$lte") == upper;
  }
}
