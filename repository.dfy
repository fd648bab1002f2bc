/**
 * The property collection and its repository. The collection is a sequence of documents in
 * store order whose `_id` values are unique (the store's primary index); the repository
 * reads it, filters it, and writes to it one document at a time.
 */
module Repository {
  import opened Wrappers
  import opened Entities
  import opened PropertyQuery

  /** The store's refusal of an insert whose `_id` is already present. */
  const DUPLICATE_KEY: string := "E11000 duplicate key error"
  /** The store's refusal of a replacement that would alter a document's `_id`. */
  const IMMUTABLE_ID: string := "Performing an update on the path '_id' would modify the immutable field '_id'"

  /** No two documents share an id. */
  predicate UniqueIds(docs: seq<Property>)
  {
    forall i, j :: 0 <= i < j < |docs| ==> docs[i].id != docs[j].id
  }

  /** The position of the first document with id `id`, scanning in store order. */
  function IndexOf(docs: seq<Property>, id: Id): (r: Option<nat>)
    ensures r.None? <==> forall i :: 0 <= i < |docs| ==> docs[i].id != id
    ensures r.Some? ==> r.value < |docs| && docs[r.value].id == id
    ensures r.Some? ==> forall j :: 0 <= j < r.value ==> docs[j].id != id
  {
    if docs == [] then None
    else if docs[0].id == id then Some(0)
    else match IndexOf(docs[1..], id)
      case None => None
      case Some(k) => Some(k + 1)
  }

  /** The first document whose id is `id`, as the store's find-first returns it. */
  function FindById(docs: seq<Property>, id: Id): (r: Option<Property>)
    ensures r.None? <==> forall p :: p in docs ==> p.id != id
    ensures r.Some? ==> r.value in docs && r.value.id == id
  {
    match IndexOf(docs, id)
    case None => None
    case Some(k) => Some(docs[k])
  }

  /** Replace-one: the first document with id `id` becomes `p`; without a match nothing changes. */
  function ReplaceFirst(docs: seq<Property>, id: Id, p: Property): (r: seq<Property>)
    ensures |r| == |docs|
    ensures IndexOf(docs, id).Some? ==> r[IndexOf(docs, id).value] == p
    ensures forall k :: 0 <= k < |docs| && (IndexOf(docs, id).None? || k != IndexOf(docs, id).value) ==> r[k] == docs[k]
  {
    match IndexOf(docs, id)
    case None => docs
    case Some(k) => docs[k := p]
  }

  /** Delete-one: the first document with id `id` is removed; without a match nothing changes. */
  function RemoveFirst(docs: seq<Property>, id: Id): (r: seq<Property>)
    ensures IndexOf(docs, id).None? ==> r == docs
    ensures IndexOf(docs, id).Some? ==>
      |r| == |docs| - 1 && multiset(r) + multiset{docs[IndexOf(docs, id).value]} == multiset(docs)
  {
    match IndexOf(docs, id)
    case None => docs
    case Some(k) =>
      assert docs == docs[..k] + [docs[k]] + docs[k + 1..];
      docs[..k] + docs[k + 1..]
  }

  /** With unique ids, any stored document with the id is the one found. */
  lemma FindUnique(docs: seq<Property>, p: Property)
    requires UniqueIds(docs) && p in docs
    ensures FindById(docs, p.id) == Some(p)
  {
    var k :| 0 <= k < |docs| && docs[k] == p;
    var i := IndexOf(docs, p.id).value;
    assert !(i < k) && !(k < i);
  }

  /** Appending a document with a new id keeps ids unique and makes it findable. */
  lemma AppendFresh(docs: seq<Property>, p: Property)
    requires UniqueIds(docs) && FindById(docs, p.id).None?
    ensures UniqueIds(docs + [p])
    ensures FindById(docs + [p], p.id) == Some(p)
    ensures forall q :: q in docs + [p] <==> q in docs || q == p
  {
    var d := docs + [p];
    forall i, j | 0 <= i < j < |d| ensures d[i].id != d[j].id {
      if j == |docs| { assert d[i] in docs; }
    }
    FindUnique(d, p);
  }

  /** Removing position `k` shifts every later document down by one. */
  lemma RemoveAtShifts(docs: seq<Property>, k: nat)
    requires k < |docs|
    ensures var r := docs[..k] + docs[k + 1..];
      |r| == |docs| - 1 &&
      forall i :: 0 <= i < |r| ==> r[i] == if i < k then docs[i] else docs[i + 1]
  {
  }

  /** Removing the first match of `id` from a collection with unique ids keeps ids unique. */
  lemma RemoveAtUnique(docs: seq<Property>, k: nat)
    requires k < |docs| && UniqueIds(docs)
    ensures UniqueIds(docs[..k] + docs[k + 1..])
  {
    var r := docs[..k] + docs[k + 1..];
    RemoveAtShifts(docs, k);
    forall i, j | 0 <= i < j < |r| ensures r[i].id != r[j].id {
      var i' := if i < k then i else i + 1;
      var j' := if j < k then j else j + 1;
      assert r[i] == docs[i'] && r[j] == docs[j'] && i' < j';
    }
  }

  /** Removing the document with id `id`, unique in the collection, removes exactly the documents with that id. */
  lemma RemoveAtMembers(docs: seq<Property>, k: nat, id: Id)
    requires k < |docs| && UniqueIds(docs) && docs[k].id == id
    ensures forall q :: q in docs[..k] + docs[k + 1..] <==> q in docs && q.id != id
  {
    var r := docs[..k] + docs[k + 1..];
    RemoveAtShifts(docs, k);
    forall q | q in docs && q.id != id ensures q in r {
      var m :| 0 <= m < |docs| && docs[m] == q;
      if m < k { assert r[m] == q; } else { assert m != k; assert r[m - 1] == q; }
    }
    forall q | q in r ensures q in docs && q.id != id {
      var m :| 0 <= m < |r| && r[m] == q;
      var m' := if m < k then m else m + 1;
      assert docs[m'] == q && m' != k;
    }
  }

  /**
   * Deleting by id from a collection with unique ids removes exactly the document with that
   * id, if any, and keeps every other document in its order.
   */
  lemma RemoveFirstSpec(docs: seq<Property>, id: Id)
    requires UniqueIds(docs)
    ensures var r := RemoveFirst(docs, id);
      UniqueIds(r) &&
      FindById(r, id).None? &&
      (|r| == if FindById(docs, id).Some? then |docs| - 1 else |docs|) &&
      (forall q :: q in r <==> q in docs && q.id != id)
  {
    match IndexOf(docs, id)
    case None =>
    case Some(k) =>
      RemoveAtShifts(docs, k);
      RemoveAtUnique(docs, k);
      RemoveAtMembers(docs, k, id);
  }

  /**
   * Replacing the document with id `id` by one carrying the same id keeps ids unique, makes
   * the new document the one found under `id`, and leaves every other id's document as it was.
   */
  lemma ReplaceFirstSpec(docs: seq<Property>, id: Id, p: Property)
    requires UniqueIds(docs) && p.id == id
    ensures var r := ReplaceFirst(docs, id, p);
      UniqueIds(r) && |r| == |docs| &&
      FindById(r, id) == (if FindById(docs, id).Some? then Some(p) else None) &&
      (forall other :: other != id ==> FindById(r, other) == FindById(docs, other))
  {
    var r := ReplaceFirst(docs, id, p);
    match IndexOf(docs, id)
    case None =>
    case Some(k) =>
      assert r[k] == p;
      FindUnique(r, p);
      forall other | other != id ensures FindById(r, other) == FindById(docs, other) {
        match FindById(docs, other)
        case None =>
          forall q | q in r ensures q.id != other {
            var m :| 0 <= m < |r| && r[m] == q;
            if m != k { assert docs[m] == q; }
          }
        case Some(q) =>
          var m :| 0 <= m < |docs| && docs[m] == q;
          assert m != k && r[m] == q;
          FindUnique(r, q);
      }
  }

  /** The repository over the `properties` collection. */
  class PropertyRepository {
    /** The collection's documents, in store order. */
    var documents: seq<Property>
    /** Whether the collection's write concern acknowledges writes. */
    const acknowledged: bool
    /** The ids passed to `Update`, in call order. */
    ghost var updateCalls: seq<Id>

    ghost predicate Valid()
      reads this
    {
      UniqueIds(documents)
    }

    constructor (initial: seq<Property>, acknowledged: bool)
      requires UniqueIds(initial)
      ensures Valid() && documents == initial && this.acknowledged == acknowledged && updateCalls == []
    {
      documents := initial;
      this.acknowledged := acknowledged;
      updateCalls := [];
    }

    /** Every document, in store order. */
    method GetAll() returns (r: seq<Property>)
      ensures r == documents
    {
      r := documents;
    }

    /** The stored document with id `id`, or null when there is none. */
    method GetById(id: Id) returns (r: Option<Property>)
      ensures r.Some? ==> r.value in documents && r.value.id == id
      ensures r.None? <==> forall p :: p in documents ==> p.id != id
      ensures r == FindById(documents, id)
    {
      r := FindById(documents, id);
    }

    /** The filtered, paged listing. */
    method GetFiltered(f: PropertyFilter) returns (r: seq<Property>)
      ensures r == Query(f, documents)
      ensures forall p :: p in r ==> p in documents && Matches(f, p)
    {
      r := Query(f, documents);
      forall p | p in r ensures p in documents && Matches(f, p) {
        QuerySound(f, documents, p);
      }
    }

    /**
     * Insert-one. A document with an empty id is given the generated id (the store's id
     * generator for string ids); the insert is refused when the id is already taken.
     * Otherwise the document, carrying its id, is appended and returned.
     */
    method Create(p: Property, generatedId: Id) returns (r: Result<Property, string>)
      requires Valid()
      modifies this`documents
      ensures Valid()
      ensures var stored := if p.id == "" then p.(id := generatedId) else p;
        if FindById(old(documents), stored.id).Some? then
          r == Failure(DUPLICATE_KEY) && documents == old(documents)
        else
          r == Success(stored) && documents == old(documents) + [stored] &&
          FindById(documents, stored.id) == Some(stored)
    {
      var stored := if p.id == "" then p.(id := generatedId) else p;
      if FindById(documents, stored.id).Some? {
        r := Failure(DUPLICATE_KEY);
      } else {
        AppendFresh(documents, stored);
        documents := documents + [stored];
        r := Success(stored);
      }
    }

    /**
     * Replace-one by id. Replacing a matched document with one whose id differs is refused.
     * Otherwise the first match (if any) is replaced, and the passed document is returned
     * whenever the write is acknowledged, whether or not any document matched.
     */
    method Update(id: Id, p: Property) returns (r: Result<Option<Property>, string>)
      requires Valid()
      modifies this`documents, this`updateCalls
      ensures Valid()
      ensures updateCalls == old(updateCalls) + [id]
      ensures if FindById(old(documents), id).Some? && p.id != id then
          r == Failure(IMMUTABLE_ID) && documents == old(documents)
        else
          documents == ReplaceFirst(old(documents), id, p) &&
          r == Success(if acknowledged then Some(p) else None)
    {
      updateCalls := updateCalls + [id];
      if FindById(documents, id).Some? && p.id != id {
        r := Failure(IMMUTABLE_ID);
      } else {
        if FindById(documents, id).Some? {
          ReplaceFirstSpec(documents, id, p);
        }
        documents := ReplaceFirst(documents, id, p);
        r := Success(if acknowledged then Some(p) else None);
      }
    }

    /** Delete-one by id: true exactly when the write is acknowledged and a document was removed. */
    method Delete(id: Id) returns (deleted: bool)
      requires Valid()
      modifies this`documents
      ensures Valid()
      ensures documents == RemoveFirst(old(documents), id)
      ensures deleted <==> acknowledged && FindById(old(documents), id).Some?
      ensures FindById(documents, id).None?
      ensures forall q :: q in documents <==> q in old(documents) && q.id != id
    {
      RemoveFirstSpec(documents, id);
      deleted := acknowledged && FindById(documents, id).Some?;
      documents := RemoveFirst(documents, id);
    }
  }
}
