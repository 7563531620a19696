/** The `Locations` collection of the remote document store, reduced to
 *  what the script uses: append a document under a fresh identifier, and
 *  read every document. Either call may fail (network, permissions).
 */
module Store {
  import opened Records

  datatype Option<T> = None | Some(value: T)

  /** A string longer than every identifier in `docs`, hence not one of them. */
  function FreshId(docs: seq<Snapshot>): (s: DocId)
    ensures forall x :: x in DocIds(docs) ==> |x| < |s|
  {
    if docs == [] then "x" else FreshId(docs[..|docs| - 1]) + docs[|docs| - 1].id
  }

  class LocationStore {
    /** The documents of the collection, in query order. */
    var docs: seq<Snapshot>

    /** Document identifiers are unique within the collection. */
    ghost predicate Valid()
      reads this
    {
      UniqueIds(docs)
    }

    /** The identifiers in use. */
    ghost function Ids(): set<DocId>
      reads this
    {
      DocIds(docs)
    }

    constructor (initial: seq<Snapshot>)
      requires UniqueIds(initial)
      ensures Valid() && docs == initial
    {
      docs := initial;
    }

    /** `collection.add(document)`: on success the document is stored under
     *  an identifier not used before, which is returned; on failure nothing
     *  is written. A query orders documents by identifier and a new
     *  identifier is random, so the new document may land at any position. */
    method Add(d: Document) returns (id: Option<DocId>)
      requires Valid()
      modifies this
      ensures Valid()
      ensures id.None? ==> docs == old(docs)
      ensures id.Some? ==>
                id.value !in old(Ids()) && Ids() == old(Ids()) + {id.value} &&
                exists k :: 0 <= k <= |old(docs)| && docs == InsertAt(old(docs), k, Snapshot(id.value, d))
    {
      if * {
        id := None;
      } else {
        // any unused identifier and any position would do; the contract promises no more
        var newId := FreshId(docs);
        var k :| 0 <= k <= |docs|;
        InsertAtIds(docs, k, Snapshot(newId, d));
        InsertAtUnique(docs, k, Snapshot(newId, d));
        docs := InsertAt(docs, k, Snapshot(newId, d));
        id := Some(newId);
      }
    }

    /** `collection.get()`: every document, or a failure. */
    method Fetch() returns (r: Option<seq<Snapshot>>)
      ensures r.Some? ==> r.value == docs
    {
      if * {
        r := None;
      } else {
        r := Some(docs);
      }
    }
  }
}
