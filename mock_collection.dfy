/** The in-memory stand-in for a MongoDB collection: an insertion-ordered
    dictionary from document ids to documents, queried by field equality. */
module MockStore {
  import opened Common

  /** A field value. Python booleans compare equal to the numbers 0 and 1, so
      they are numbers here; a missing field reads as Null (Python's None). */
  datatype Value = Null | Num(real) | Str(string)

  /** A document: field name to value. */
  type Doc = map<string, Value>

  /** A query: field/value pairs that must all be equal. */
  type Query = seq<(string, Value)>

  /** One stored document under its key, in insertion order. */
  datatype Entry = Entry(key: string, doc: Doc)

  const IdField: string := "_id"

  /** dict.get: the field's value, or None when the field is missing. */
  function Get(doc: Doc, field: string): Value
  {
    if field in doc then doc[field] else Null
  }

  predicate Matches(doc: Doc, query: Query)
  {
    forall j :: 0 <= j < |query| ==> Get(doc, query[j].0) == query[j].1
  }

  /** The document as find returns it: a copy carrying its key under "_id". */
  function Tagged(e: Entry): Doc
  {
    e.doc[IdField := Str(e.key)]
  }

  predicate DistinctKeys(es: seq<Entry>)
  {
    forall i, j :: 0 <= i < j < |es| ==> es[i].key != es[j].key
  }

  /** Every stored "_id" names the entry's own key. */
  predicate IdsTagged(es: seq<Entry>)
  {
    forall i :: 0 <= i < |es| && IdField in es[i].doc ==> es[i].doc[IdField] == Str(es[i].key)
  }

  /** The index of the first stored document matching the query. */
  function FirstMatch(es: seq<Entry>, query: Query): (r: Option<nat>)
    ensures r.Some? ==> r.value < |es| && Matches(es[r.value].doc, query)
    ensures r.Some? ==> forall j :: 0 <= j < r.value ==> !Matches(es[j].doc, query)
    ensures r.None? ==> forall j :: 0 <= j < |es| ==> !Matches(es[j].doc, query)
  {
    if es == [] then None
    else if Matches(es[0].doc, query) then Some(0)
    else
      match FirstMatch(es[1..], query)
      case None => None
      case Some(i) => Some(i + 1)
  }

  /** The tagged copies of the stored documents that match, in insertion
      order; every document when there is no query. */
  function Matching(es: seq<Entry>, query: Option<Query>): seq<Doc>
  {
    if es == [] then []
    else
      var n := |es| - 1;
      Matching(es[..n], query) + (if query.None? || Matches(es[n].doc, query.value) then [Tagged(es[n])] else [])
  }

  /** dict[key] = doc: replace in place when the key is present, else append. */
  function Put(es: seq<Entry>, key: string, doc: Doc): seq<Entry>
  {
    match KeyIndex(es, key)
    case Some(i) => es[i := Entry(key, doc)]
    case None => es + [Entry(key, doc)]
  }

  function KeyIndex(es: seq<Entry>, key: string): (r: Option<nat>)
    ensures r.Some? ==> r.value < |es| && es[r.value].key == key
    ensures r.None? ==> forall j :: 0 <= j < |es| ==> es[j].key != key
  {
    if es == [] then None
    else if es[0].key == key then Some(0)
    else
      match KeyIndex(es[1..], key)
      case None => None
      case Some(i) => Some(i + 1)
  }

  /** find_one on a store: the first match gets its key written into "_id" in
      place and is returned; nothing matches, nothing changes. */
  function FindOneStep(es: seq<Entry>, query: Query): (seq<Entry>, Option<Doc>)
  {
    match FirstMatch(es, query)
    case None => (es, None)
    case Some(i) => (es[i := Entry(es[i].key, Tagged(es[i]))], Some(Tagged(es[i])))
  }

  /** delete_one on a store: the first match is removed and the count is 1;
      otherwise the count is 0. */
  function DeleteOneStep(es: seq<Entry>, query: Query): (seq<Entry>, nat)
  {
    match FirstMatch(es, query)
    case None => (es, 0)
    case Some(i) => (es[..i] + es[i + 1..], 1)
  }

  /** The equality test shared by find_one, find and delete_one: every query
      pair must equal the document's field, stopping at the first mismatch. */
  method MatchesQuery(doc: Doc, query: Query) returns (matched: bool)
    ensures matched <==> Matches(doc, query)
  {
    matched := true;
    var j := 0;
    while j < |query|
      invariant 0 <= j <= |query|
      invariant forall k :: 0 <= k < j ==> Get(doc, query[k].0) == query[k].1
    {
      var field := query[j].0;
      var value := if field in doc then doc[field] else Null;
      if value != query[j].1 {
        matched := false;
        break;
      }
      j := j + 1;
    }
  }

  class MockCollection {
    var entries: seq<Entry>

    predicate Valid()
      reads this
    {
      DistinctKeys(entries)
    }

    constructor (entries: seq<Entry>)
      requires DistinctKeys(entries)
      ensures Valid() && this.entries == entries
    {
      this.entries := entries;
    }

    method FindOne(query: Query) returns (found: Option<Doc>)
      requires Valid()
      modifies this
      ensures Valid()
      ensures (entries, found) == FindOneStep(old(entries), query)
    {
      var i := 0;
      while i < |entries|
        invariant 0 <= i <= |entries| && entries == old(entries)
        invariant forall j :: 0 <= j < i ==> !Matches(entries[j].doc, query)
      {
        var e := entries[i];
        var matched := MatchesQuery(e.doc, query);
        if matched {
          var tagged := e.doc[IdField := Str(e.key)];
          entries := entries[i := Entry(e.key, tagged)];
          assert FirstMatch(old(entries), query) == Some(i);
          return Some(tagged);
        }
        i := i + 1;
      }
      return None;
    }

    /** insert_one with the generated id passed in: the stored value is the
        document itself (a copy of it in the source). */
    method InsertOne(document: Doc, docId: string) returns (insertedId: string)
      requires Valid()
      modifies this
      ensures Valid()
      ensures entries == Put(old(entries), docId, document) && insertedId == docId
    {
      var idx := KeyIndex(entries, docId);
      if idx.Some? {
        entries := entries[idx.value := Entry(docId, document)];
      } else {
        entries := entries + [Entry(docId, document)];
      }
      insertedId := docId;
    }

    method Find(query: Option<Query>) returns (results: seq<Doc>)
      ensures results == Matching(entries, query)
    {
      results := [];
      var i := 0;
      while i < |entries|
        invariant 0 <= i <= |entries|
        invariant results == Matching(entries[..i], query)
      {
        var e := entries[i];
        assert entries[..i + 1][..i] == entries[..i];
        var keep := true;
        if query.Some? {
          keep := MatchesQuery(e.doc, query.value);
        }
        if keep {
          results := results + [e.doc[IdField := Str(e.key)]];
        }
        i := i + 1;
      }
      assert entries[..|entries|] == entries;
    }

    method DeleteOne(query: Query) returns (deletedCount: nat)
      requires Valid()
      modifies this
      ensures Valid()
      ensures (entries, deletedCount) == DeleteOneStep(old(entries), query)
    {
      var i := 0;
      while i < |entries|
        invariant 0 <= i <= |entries| && entries == old(entries)
        invariant forall j :: 0 <= j < i ==> !Matches(entries[j].doc, query)
      {
        var matched := MatchesQuery(entries[i].doc, query);
        if matched {
          assert FirstMatch(entries, query) == Some(i);
          entries := entries[..i] + entries[i + 1..];
          return 1;
        }
        i := i + 1;
      }
      return 0;
    }
  }

  // ---------------------------------------------------------------------------
  // Properties

  /** find returns the tagged copy of every matching document and nothing
      else, in insertion order. */
  lemma {:induction false} MatchingExactly(es: seq<Entry>, query: Option<Query>)
    ensures forall i :: 0 <= i < |es| && (query.None? || Matches(es[i].doc, query.value)) ==>
              Tagged(es[i]) in Matching(es, query)
    ensures forall d :: d in Matching(es, query) ==>
              exists i :: 0 <= i < |es| && (query.None? || Matches(es[i].doc, query.value)) && d == Tagged(es[i])
    decreases |es|
  {
    if es != [] {
      var n := |es| - 1;
      MatchingExactly(es[..n], query);
      assert forall i :: 0 <= i < n ==> es[..n][i] == es[i];
    }
  }

  /** find(None) returns every stored document, tagged, in order. */
  lemma {:induction false} FindAll(es: seq<Entry>)
    ensures Matching(es, None) == seq(|es|, i requires 0 <= i < |es| => Tagged(es[i]))
    decreases |es|
  {
    if es != [] {
      var n := |es| - 1;
      FindAll(es[..n]);
    }
  }

  /** A document inserted under a new key is found after every earlier match. */
  lemma InsertThenFind(es: seq<Entry>, key: string, doc: Doc, query: Option<Query>)
    requires KeyIndex(es, key).None?
    ensures Matching(Put(es, key, doc), query)
            == Matching(es, query) + (if query.None? || Matches(doc, query.value) then [Tagged(Entry(key, doc))] else [])
  {
    var es' := Put(es, key, doc);
    assert es'[..|es|] == es;
  }

  /** Inserting under a new key keeps the keys distinct and grows the store by one. */
  lemma InsertFresh(es: seq<Entry>, key: string, doc: Doc)
    requires DistinctKeys(es) && KeyIndex(es, key).None?
    ensures DistinctKeys(Put(es, key, doc)) && |Put(es, key, doc)| == |es| + 1
    ensures Put(es, key, doc)[|es|] == Entry(key, doc)
  {
  }

  /** find_one writes the entry's own key, so documents keep naming their own
      key; inserting a document without "_id" and deleting preserve it too. */
  lemma IdsTaggedPreserved(es: seq<Entry>, query: Query, key: string, doc: Doc)
    requires IdsTagged(es)
    ensures IdsTagged(FindOneStep(es, query).0)
    ensures IdsTagged(DeleteOneStep(es, query).0)
    ensures IdField !in doc ==> IdsTagged(Put(es, key, doc))
  {
    match FirstMatch(es, query) {
      case None =>
      case Some(i) =>
        var w := es[..i] + es[i + 1..];
        forall j | 0 <= j < |w| && IdField in w[j].doc ensures w[j].doc[IdField] == Str(w[j].key) {
          assert w[j] == es[if j < i then j else j + 1];
        }
    }
  }

  /** With every stored "_id" naming its own key, a query on "_id" = k can only
      match the document stored under k, and only once find_one has tagged it. */
  lemma QueryByIdMatchesOwner(es: seq<Entry>, query: Query, i: nat, k: string)
    requires IdsTagged(es) && i < |es|
    requires (IdField, Str(k)) in query && Matches(es[i].doc, query)
    ensures es[i].key == k && IdField in es[i].doc
  {
    var j :| 0 <= j < |query| && query[j] == (IdField, Str(k));
    assert Get(es[i].doc, IdField) == Str(k);
  }

  /** delete_one removes at most one entry: with a match it removes the first
      one and every other entry stays, in order; without, nothing changes. */
  lemma DeleteOneEffect(es: seq<Entry>, query: Query)
    requires DistinctKeys(es)
    ensures var (es', count) := DeleteOneStep(es, query);
      && (count == 1 <==> exists i :: 0 <= i < |es| && Matches(es[i].doc, query))
      && |es'| == |es| - count
      && DistinctKeys(es')
      && (count == 1 ==> var i := FirstMatch(es, query).value;
            forall j :: 0 <= j < |es'| ==> es'[j] == es[if j < i then j else j + 1])
  {
    match FirstMatch(es, query) {
      case None =>
      case Some(i) =>
        var w := es[..i] + es[i + 1..];
        assert forall j :: 0 <= j < |w| ==> w[j] == es[if j < i then j else j + 1];
    }
  }

  /** For a query that does not mention "_id", find_one is idempotent: a
      second identical call returns the same document and changes nothing. */
  lemma FindOneTwice(es: seq<Entry>, query: Query)
    requires forall j :: 0 <= j < |query| ==> query[j].0 != IdField
    ensures var (es1, r1) := FindOneStep(es, query);
      var (es2, r2) := FindOneStep(es1, query);
      es2 == es1 && r2 == r1
  {
    var (es1, r1) := FindOneStep(es, query);
    {
      match FirstMatch(es, query) {
        case None =>
        case Some(i) =>
          assert Matches(es1[i].doc, query) by {
            forall j | 0 <= j < |query| ensures Get(es1[i].doc, query[j].0) == query[j].1 {
              assert Get(es[i].doc, query[j].0) == query[j].1;
            }
          }
          forall j | 0 <= j < i ensures !Matches(es1[j].doc, query) {
            assert es1[j] == es[j];
          }
          assert FirstMatch(es1, query) == Some(i);
          assert Tagged(es1[i]) == Tagged(es[i]);
          assert es1[i := Entry(es1[i].key, Tagged(es1[i]))] == es1;
      }
    }
  }
}
