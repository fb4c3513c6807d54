/**
 * The document store behind the API: named collections of documents, each
 * document a map from keys to values. The store's own code is not part of this
 * model; it is given here as the smallest store that inserts a document under a
 * fresh object id and lists the documents of a collection that match an
 * optional equality filter.
 */
module Database {
  import opened Schemas

  /** A stored document, as a map from keys to values. */
  type Doc = map<string, Value>

  /** The key under which the store keeps a document's object id. */
  const ID_KEY: string := "_id"

  predicate HasObjectId(d: Doc)
  {
    ID_KEY in d && d[ID_KEY].ObjectId?
  }

  /** The hex text of a stored document's object id. */
  function IdOf(d: Doc): string
    requires HasObjectId(d)
  {
    d[ID_KEY].hex
  }

  /** What the store writes for `data` inserted under the object id `oid`. */
  function WithId(data: Doc, oid: string): (d: Doc)
    ensures HasObjectId(d) && IdOf(d) == oid
    ensures forall k :: k != ID_KEY ==> (k in d <==> k in data)
    ensures forall k :: k in data && k != ID_KEY ==> d[k] == data[k]
  {
    data[ID_KEY := ObjectId(oid)]
  }

  /**
   * A stored collection: every document carries an object id the store has
   * issued, and no two documents carry the same one.
   */
  predicate WellStored(docs: seq<Doc>, issued: set<string>)
  {
    && (forall d :: d in docs ==> HasObjectId(d) && IdOf(d) in issued)
    && (forall i, j :: 0 <= i < j < |docs| && HasObjectId(docs[i]) && HasObjectId(docs[j]) ==>
          IdOf(docs[i]) != IdOf(docs[j]))
  }

  /** An equality filter: every key of the filter is present with the same value. */
  predicate Matches(d: Doc, filt: Option<Doc>)
  {
    filt.Some? ==> forall k :: k in filt.value ==> k in d && d[k] == filt.value[k]
  }

  /**
   * The documents of `docs` that match `filt`, in stored order: each matching
   * document as often as it is stored, nothing else, and everything when there
   * is no filter.
   */
  function Matching(docs: seq<Doc>, filt: Option<Doc>): (r: seq<Doc>)
    ensures |r| <= |docs|
    ensures forall d :: multiset(r)[d] == if Matches(d, filt) then multiset(docs)[d] else 0
    ensures filt.None? ==> r == docs
  {
    if docs == [] then []
    else
      var rest := Matching(docs[1..], filt);
      assert docs == [docs[0]] + docs[1..];
      if Matches(docs[0], filt) then [docs[0]] + rest else rest
  }

  lemma MatchingIsSubset(docs: seq<Doc>, filt: Option<Doc>)
    ensures forall d :: d in Matching(docs, filt) <==> d in docs && Matches(d, filt)
  {
    forall d
      ensures d in Matching(docs, filt) <==> d in docs && Matches(d, filt)
    {
      assert d in Matching(docs, filt) <==> multiset(Matching(docs, filt))[d] > 0;
      assert d in docs <==> multiset(docs)[d] > 0;
    }
  }

  /** The store: collections by name, and every object id handed out so far. */
  class Store {
    var collections: map<string, seq<Doc>>
    var issued: set<string>

    ghost predicate Valid()
      reads this
    {
      forall c :: c in collections ==> WellStored(collections[c], issued)
    }

    constructor ()
      ensures collections == map[] && issued == {}
      ensures Valid()
    {
      collections := map[];
      issued := {};
    }

    /** A collection that was never written to is empty. */
    function Documents(coll: string): (docs: seq<Doc>)
      reads this
      ensures coll !in collections ==> docs == []
      ensures Valid() ==> WellStored(docs, issued)
    {
      if coll in collections then collections[coll] else []
    }

    /** `get_documents(coll, filt)`: the stored documents of `coll` that match `filt`. */
    function Find(coll: string, filt: Option<Doc>): (r: seq<Doc>)
      reads this
      ensures forall d :: d in r <==> d in Documents(coll) && Matches(d, filt)
      ensures filt.None? ==> r == Documents(coll)
      ensures Valid() ==> forall d :: d in r ==> HasObjectId(d) && IdOf(d) in issued
    {
      MatchingIsSubset(Documents(coll), filt);
      Matching(Documents(coll), filt)
    }

    /**
     * `create_document(coll, data)`: appends `data` to `coll` under the fresh
     * object id `oid` and returns that id as text.
     */
    method CreateDocument(coll: string, data: Doc, oid: string) returns (id: string)
      requires Valid()
      requires oid !in issued
      requires ID_KEY !in data
      modifies this
      ensures Valid()
      ensures id == oid
      ensures issued == old(issued) + {oid}
      ensures collections == old(collections)[coll := old(Documents(coll)) + [WithId(data, oid)]]
    {
      var docs := Documents(coll) + [WithId(data, oid)];
      assert WellStored(docs, issued + {oid});
      collections := collections[coll := docs];
      issued := issued + {oid};
      id := oid;
    }
  }
}
