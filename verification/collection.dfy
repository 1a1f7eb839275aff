/**
 * A document collection as an in-memory table: the documents in natural
 * (insertion) order, each carrying its store-generated `_id`. The single-document
 * operations the repositories use are defined here once, for every kind of
 * document.
 */
module Collection {
  import opened Wrappers
  import opened Values

  /** A stored document: its `_id` and the fields the application wrote. */
  datatype Doc<T> = Doc(id: ObjectId, fields: T)

  /** The `_id` index: no two documents share an identifier. */
  predicate UniqueIds<T>(docs: seq<Doc<T>>) {
    forall i, j :: 0 <= i < j < |docs| ==> docs[i].id != docs[j].id
  }

  predicate HasId<T>(docs: seq<Doc<T>>, id: ObjectId) {
    exists j :: 0 <= j < |docs| && docs[j].id == id
  }

  /** Position of the first document with `_id == id`, the one `findOne`, `updateOne` and `deleteOne` act on. */
  function IndexOf<T>(docs: seq<Doc<T>>, id: ObjectId): (r: Option<nat>)
    ensures r.Some? ==> r.value < |docs| && docs[r.value].id == id
    ensures r.Some? ==> forall j :: 0 <= j < r.value ==> docs[j].id != id
    ensures r.None? <==> !HasId(docs, id)
  {
    if |docs| == 0 then None
    else if docs[0].id == id then Some(0)
    else
      match IndexOf(docs[1..], id)
      case None => None
      case Some(k) => Some(k + 1)
  }

  /** With unique identifiers, the document at position `i` is the one found by its own `_id`. */
  lemma IndexOfOwnId<T>(docs: seq<Doc<T>>, i: nat)
    requires UniqueIds(docs) && i < |docs|
    ensures IndexOf(docs, docs[i].id) == Some(i)
  {
  }

  /** `findOne({_id: id})`. */
  function FindOne<T(==)>(docs: seq<Doc<T>>, id: ObjectId): (r: Option<Doc<T>>)
    ensures r.Some? <==> HasId(docs, id)
    ensures r.Some? ==> r.value in docs && r.value.id == id
  {
    match IndexOf(docs, id)
    case None => None
    case Some(i) => Some(docs[i])
  }

  /**
   * `insertOne`: appends one document; an `_id` that is already taken is a
   * duplicate-key error and nothing is written (None).
   */
  function InsertOne<T>(docs: seq<Doc<T>>, id: ObjectId, fields: T): (r: Option<seq<Doc<T>>>)
    ensures r.None? <==> HasId(docs, id)
    ensures r.Some? ==> |r.value| == |docs| + 1 && r.value[..|docs|] == docs && r.value[|docs|] == Doc(id, fields)
    ensures r.Some? && UniqueIds(docs) ==> UniqueIds(r.value)
  {
    if HasId(docs, id) then None
    else
      var s := docs + [Doc(id, fields)];
      assert s[..|docs|] == docs;
      Some(s)
  }

  /**
   * `updateOne({_id: id}, {$set: fields})`: the first document with that `_id`
   * gets the new fields; when none matches, nothing changes.
   */
  function UpdateOne<T>(docs: seq<Doc<T>>, id: ObjectId, fields: T): (r: seq<Doc<T>>)
    ensures |r| == |docs|
    ensures forall j :: 0 <= j < |docs| ==> r[j].id == docs[j].id
    ensures forall j :: 0 <= j < |docs| && docs[j].id != id ==> r[j] == docs[j]
    ensures UniqueIds(docs) ==> forall j :: 0 <= j < |docs| && docs[j].id == id ==> r[j] == Doc(id, fields)
    ensures !HasId(docs, id) ==> r == docs
    ensures UniqueIds(docs) ==> UniqueIds(r)
  {
    match IndexOf(docs, id)
    case None => docs
    case Some(i) => docs[i := Doc(id, fields)]
  }

  /**
   * `deleteOne({_id: id})`: removes the first document with that `_id`, keeping
   * the others in order; when none matches, nothing changes.
   */
  function DeleteOne<T(==)>(docs: seq<Doc<T>>, id: ObjectId): (r: seq<Doc<T>>)
    ensures |r| == if HasId(docs, id) then |docs| - 1 else |docs|
    ensures forall d :: d in r ==> d in docs
    ensures UniqueIds(docs) ==> forall d :: d in r ==> d.id != id
    ensures UniqueIds(docs) ==> forall d :: d in docs && d.id != id ==> d in r
    ensures UniqueIds(docs) ==> UniqueIds(r)
    ensures !HasId(docs, id) ==> r == docs
    ensures HasId(docs, id) ==>
      exists i :: 0 <= i < |docs| && docs[i].id == id && (forall j :: 0 <= j < i ==> docs[j].id != id)
        && r == docs[..i] + docs[i + 1..]
  {
    match IndexOf(docs, id)
    case None => docs
    case Some(i) =>
      RemoveAt(docs, i, id);
      assert docs[i].id == id;
      docs[..i] + docs[i + 1..]
  }

  /** Removing the first document with `_id == id`, found at position `i`. */
  lemma RemoveAt<T>(docs: seq<Doc<T>>, i: nat, id: ObjectId)
    requires i < |docs| && docs[i].id == id
    requires forall j :: 0 <= j < i ==> docs[j].id != id
    ensures var r := docs[..i] + docs[i + 1..];
      && |r| == |docs| - 1
      && (forall d :: d in r ==> d in docs)
      && (UniqueIds(docs) ==> forall d :: d in r ==> d.id != id)
      && (UniqueIds(docs) ==> forall d :: d in docs && d.id != id ==> d in r)
      && (UniqueIds(docs) ==> UniqueIds(r))
  {
    var r := docs[..i] + docs[i + 1..];
    assert forall k :: 0 <= k < |r| ==> r[k] == docs[if k < i then k else k + 1];
    forall d | d in docs && d.id != id
      ensures d in r
    {
      var k :| 0 <= k < |docs| && docs[k] == d;
      if k < i { assert r[k] == d; } else { assert r[k - 1] == d; }
    }
  }
}
