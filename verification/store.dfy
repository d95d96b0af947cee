/**
 * The `observations` MongoDB collection and the dataset record, as the two
 * observation models use them. The collection is a sequence of stored
 * documents plus an append-only log of the batches handed to `insert`.
 */
module Store {
  import opened Values
  import opened Frames

  /**
   * MongoDB's test of one top-level filter entry `(key, value)` against a
   * document. Operator expressions, array membership and the like live behind
   * it; a document matches a filter when it passes every entry.
   */
  type EntryTest = (Row, string, Value) -> bool

  predicate Matches(doc: Row, filter: Query, test: EntryTest)
  {
    forall k :: k in filter ==> test(doc, k, filter[k])
  }

  /**
   * The one fact about MongoDB matching the model relies on: a filter entry
   * that gives the generation key a plain string selects exactly the
   * documents whose generation key holds that string.
   */
  ghost predicate IdEquality(test: EntryTest)
  {
    forall doc: Row, s: string {:trigger test(doc, ObservationIdKey, Str(s))} ::
      test(doc, ObservationIdKey, Str(s)) <==> (ObservationIdKey in doc && doc[ObservationIdKey] == Str(s))
  }

  /** The filter `{DATASET_OBSERVATION_ID: id}`. */
  function GenerationFilter(id: string): Query
  {
    map[ObservationIdKey := Str(id)]
  }

  /** The documents a filter selects, in stored order. */
  function Matching(docs: seq<Row>, filter: Query, test: EntryTest): (r: seq<Row>)
    ensures |r| <= |docs|
    ensures forall d :: d in r <==> d in docs && Matches(d, filter, test)
    decreases |docs|
  {
    if docs == [] then []
    else (if Matches(docs[0], filter, test) then [docs[0]] else []) + Matching(docs[1..], filter, test)
  }

  /** The documents a filter leaves alone, in stored order: what `remove` keeps. */
  function Unmatched(docs: seq<Row>, filter: Query, test: EntryTest): (r: seq<Row>)
    ensures |r| <= |docs|
    ensures forall d :: d in r <==> d in docs && !Matches(d, filter, test)
    decreases |docs|
  {
    if docs == [] then []
    else (if Matches(docs[0], filter, test) then [] else [docs[0]]) + Unmatched(docs[1..], filter, test)
  }

  /** `remove` splits the collection: what it removes and what it keeps are together exactly the old documents. */
  lemma {:induction false} RemovePartitions(docs: seq<Row>, filter: Query, test: EntryTest)
    ensures multiset(Matching(docs, filter, test)) + multiset(Unmatched(docs, filter, test)) == multiset(docs)
    decreases |docs|
  {
    if docs != [] {
      RemovePartitions(docs[1..], filter, test);
      assert docs == [docs[0]] + docs[1..];
    }
  }

  /** What `remove` keeps of a concatenation is what it keeps of each part, in order. */
  lemma {:induction false} UnmatchedConcat(a: seq<Row>, b: seq<Row>, filter: Query, test: EntryTest)
    ensures Unmatched(a + b, filter, test) == Unmatched(a, filter, test) + Unmatched(b, filter, test)
    decreases |a|
  {
    if a == [] {
      assert a + b == b;
    } else {
      var head := if Matches(a[0], filter, test) then [] else [a[0]];
      calc {
        Unmatched(a + b, filter, test);
        { assert (a + b)[0] == a[0]; assert (a + b)[1..] == a[1..] + b; }
        head + Unmatched(a[1..] + b, filter, test);
        { UnmatchedConcat(a[1..], b, filter, test); }
        head + (Unmatched(a[1..], filter, test) + Unmatched(b, filter, test));
        (head + Unmatched(a[1..], filter, test)) + Unmatched(b, filter, test);
      }
    }
  }

  /** `remove` with a filter that matches no document keeps every document, in order. */
  lemma {:induction false} UnmatchedNone(docs: seq<Row>, filter: Query, test: EntryTest)
    requires forall d :: d in docs ==> !Matches(d, filter, test)
    ensures Unmatched(docs, filter, test) == docs
    decreases |docs|
  {
    if docs != [] {
      UnmatchedNone(docs[1..], filter, test);
    }
  }

  /** Selecting from a concatenation selects from each part, in order. */
  lemma {:induction false} MatchingConcat(a: seq<Row>, b: seq<Row>, filter: Query, test: EntryTest)
    ensures Matching(a + b, filter, test) == Matching(a, filter, test) + Matching(b, filter, test)
    decreases |a|
  {
    if a == [] {
      assert a + b == b;
    } else {
      var head := if Matches(a[0], filter, test) then [a[0]] else [];
      calc {
        Matching(a + b, filter, test);
        { assert (a + b)[0] == a[0]; assert (a + b)[1..] == a[1..] + b; }
        head + Matching(a[1..] + b, filter, test);
        { MatchingConcat(a[1..], b, filter, test); }
        head + (Matching(a[1..], filter, test) + Matching(b, filter, test));
        (head + Matching(a[1..], filter, test)) + Matching(b, filter, test);
      }
    }
  }

  /** A filter selects every document of a sequence that it all matches. */
  lemma {:induction false} MatchingAll(docs: seq<Row>, filter: Query, test: EntryTest)
    requires forall d :: d in docs ==> Matches(d, filter, test)
    ensures Matching(docs, filter, test) == docs
    decreases |docs|
  {
    if docs != [] {
      MatchingAll(docs[1..], filter, test);
    }
  }

  /** A filter that matches none of the documents selects nothing. */
  lemma {:induction false} MatchingNone(docs: seq<Row>, filter: Query, test: EntryTest)
    requires forall d :: d in docs ==> !Matches(d, filter, test)
    ensures Matching(docs, filter, test) == []
    decreases |docs|
  {
    if docs != [] {
      MatchingNone(docs[1..], filter, test);
    }
  }

  /** After `remove(filter)`, the same filter selects nothing. */
  lemma RemovedNotFound(docs: seq<Row>, filter: Query, test: EntryTest)
    ensures Matching(Unmatched(docs, filter, test), filter, test) == []
  {
    MatchingNone(Unmatched(docs, filter, test), filter, test);
  }

  /** The keys of all the given documents: the columns of the frame built from them. */
  function StoredColumns(docs: seq<Row>): set<string>
  {
    set d, k | d in docs && k in d :: k
  }

  /**
   * A filter that constrains the generation key to `id` selects only documents
   * of generation `id`; the generation filter alone selects all of them.
   */
  lemma GenerationFilterSelects(filter: Query, id: string, test: EntryTest, doc: Row)
    requires IdEquality(test)
    requires ObservationIdKey in filter && filter[ObservationIdKey] == Str(id)
    ensures Matches(doc, filter, test) ==> InGeneration(doc, id)
    ensures filter == GenerationFilter(id) ==> (Matches(doc, filter, test) <==> InGeneration(doc, id))
  {
    assert test(doc, ObservationIdKey, Str(id)) <==> InGeneration(doc, id);
  }

  /**
   * The scope of a delete through a filter that pins the generation key to
   * `id`: every document it takes away is of generation `id`, and every
   * document of another generation stays.
   */
  lemma DeleteScope(docs: seq<Row>, filter: Query, id: string, test: EntryTest)
    requires IdEquality(test)
    requires ObservationIdKey in filter && filter[ObservationIdKey] == Str(id)
    ensures forall d :: d in docs && d !in Unmatched(docs, filter, test) ==> InGeneration(d, id)
    ensures forall d :: d in docs && !InGeneration(d, id) ==> d in Unmatched(docs, filter, test)
  {
    forall d | d in docs
      ensures Matches(d, filter, test) ==> InGeneration(d, id)
    {
      GenerationFilterSelects(filter, id, test, d);
    }
  }

  /** The `observations` collection. */
  class Collection {
    /** The stored documents, in insertion order. */
    var documents: seq<Row>
    /** Every batch handed to `insert`, in call order; nothing is ever taken out of it. */
    var inserts: seq<seq<Row>>

    /** `insert(rows, safe=True)`. */
    method Insert(batch: seq<Row>)
      modifies this
      ensures documents == old(documents) + batch
      ensures inserts == old(inserts) + [batch]
    {
      documents := documents + batch;
      inserts := inserts + [batch];
    }

    /** `remove(filter)`: drops every matching document and keeps the rest in order. */
    method Remove(filter: Query, test: EntryTest)
      modifies this
      ensures documents == Unmatched(old(documents), filter, test)
      ensures inserts == old(inserts)
    {
      documents := Unmatched(documents, filter, test);
    }

    /** `find(filter)`: the matching documents in stored order. */
    function Find(filter: Query, test: EntryTest): seq<Row>
      reads this
    {
      Matching(documents, filter, test)
    }
  }

  /** The `STATE` of a dataset record. */
  datatype DatasetState = Pending | Ready

  /** The dataset record as the observation models read and update it. */
  class Dataset {
    /** `DATASET_OBSERVATION_ID`: the generation marker of the active rows. */
    var observationId: string
    /** `SCHEMA`, `None` while the record has no such entry. */
    var schema: Option<Schema>
    /** `NUM_COLUMNS`. */
    var numColumns: Option<nat>
    /** `NUM_ROWS`. */
    var numRows: Option<nat>
    /** `STATE`. */
    var state: Option<DatasetState>
  }
}
