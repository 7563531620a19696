/** The location record and its two translations: the document written to
 *  the `Locations` collection on save, and the record rebuilt from a
 *  document on load, with the filter that decides which documents are drawn.
 */
module Records {
  import opened Js

  /** The identifier the store assigns to a new document. */
  type DocId = string

  /** A location as the view renders it (the creation time is not modelled). */
  datatype Location = Location(id: DocId, name: string, lat: Coord, lng: Coord, amount: int, danger: int)

  /** The fields of a stored document as the client sees them: the
   *  coordinates after `parseFloat` of their stored strings, the numeric
   *  fields as stored (possibly missing in documents other clients wrote). */
  datatype Document = Document(name: string, latitude: Coord, longitude: Coord, amount: JsNum, danger: JsNum)

  /** A document of a query result, with its identifier. */
  datatype Snapshot = Snapshot(id: DocId, data: Document)

  /** The document a save writes. `amount` and `danger` are what `parseInt`
   *  made of the caller's values; both are stored as integers, 0 when
   *  `parseInt` gave NaN or 0, and otherwise the parsed integer. */
  function NewDocument(name: string, lat: Coord, lng: Coord, amount: JsNum, danger: JsNum): (d: Document)
    ensures d.name == name && d.latitude == lat && d.longitude == lng
    ensures d.amount.Int? && d.danger.Int?
    ensures d.amount == (if Truthy(amount) then amount else Int(0))
    ensures d.danger == (if Truthy(danger) then danger else Int(0))
  {
    Document(name, lat, lng, Int(OrZero(amount)), Int(OrZero(danger)))
  }

  /** The record a successful save returns: built locally from the written
   *  values and the store-assigned identifier, not read back. */
  function SavedRecord(id: DocId, name: string, lat: Coord, lng: Coord, amount: JsNum, danger: JsNum): Location {
    Location(id, name, lat, lng, OrZero(amount), OrZero(danger))
  }

  /** The returned record carries the store's new id, the name and the
   *  coordinates as given, and amount and danger as the document stores
   *  them: the parsed value when truthy, 0 otherwise. */
  lemma SavedRecordFields(id: DocId, name: string, lat: Coord, lng: Coord, amount: JsNum, danger: JsNum)
    ensures var loc := SavedRecord(id, name, lat, lng, amount, danger);
            loc.id == id && loc.name == name && loc.lat == lat && loc.lng == lng &&
            loc.amount == (if Truthy(amount) then amount.n else 0) &&
            loc.danger == (if Truthy(danger) then danger.n else 0)
  {
  }

  /** The record the load path builds from a document: `amount` and
   *  `danger` fall back to 0 when falsy, everything else is copied. */
  function FromSnapshot(s: Snapshot): (loc: Location)
    ensures loc.id == s.id && loc.name == s.data.name
    ensures loc.lat == s.data.latitude && loc.lng == s.data.longitude
    ensures loc.amount == (if Truthy(s.data.amount) then s.data.amount.n else 0)
    ensures loc.danger == (if Truthy(s.data.danger) then s.data.danger.n else 0)
  {
    Location(s.id, s.data.name, s.data.latitude, s.data.longitude, OrZero(s.data.amount), OrZero(s.data.danger))
  }

  /** A loaded record is drawn only when both coordinates are truthy. */
  predicate Renderable(loc: Location) {
    CoordTruthy(loc.lat) && CoordTruthy(loc.lng)
  }

  /** What a save returns is exactly what a later load rebuilds from the
   *  document it wrote, so the save's optimistic record and the reloaded
   *  one agree (the creation time aside). */
  lemma SaveThenLoad(id: DocId, name: string, lat: Coord, lng: Coord, amount: JsNum, danger: JsNum)
    ensures FromSnapshot(Snapshot(id, NewDocument(name, lat, lng, amount, danger)))
         == SavedRecord(id, name, lat, lng, amount, danger)
  {
    OrZeroIdempotent(amount);
    OrZeroIdempotent(danger);
  }

  /** The records a load draws, in document order: one per document whose
   *  coordinates are both truthy, none for the others. */
  function Accepted(docs: seq<Snapshot>): (locs: seq<Location>)
    ensures |locs| <= |docs|
    ensures forall k :: 0 <= k < |locs| ==> Renderable(locs[k])
  {
    if docs == [] then []
    else
      var loc := FromSnapshot(docs[|docs| - 1]);
      Accepted(docs[..|docs| - 1]) + (if Renderable(loc) then [loc] else [])
  }

  /** One more document appends its record when its coordinates are truthy. */
  lemma AcceptedSnoc(docs: seq<Snapshot>, s: Snapshot)
    ensures Accepted(docs + [s]) ==
            Accepted(docs) + (if Renderable(FromSnapshot(s)) then [FromSnapshot(s)] else [])
  {
    assert (docs + [s])[..|docs|] == docs;
  }

  /** The identifiers of the documents `docs`. */
  function DocIds(docs: seq<Snapshot>): set<DocId> {
    if docs == [] then {} else DocIds(docs[..|docs| - 1]) + {docs[|docs| - 1].id}
  }

  lemma DocIdsSnoc(docs: seq<Snapshot>, s: Snapshot)
    ensures DocIds(docs + [s]) == DocIds(docs) + {s.id}
  {
    assert (docs + [s])[..|docs|] == docs;
  }

  /** Every document's identifier is among the identifiers in use. */
  lemma {:induction false} DocIdsHas(docs: seq<Snapshot>, i: int)
    requires 0 <= i < |docs|
    ensures docs[i].id in DocIds(docs)
  {
    if i < |docs| - 1 {
      DocIdsHas(docs[..|docs| - 1], i);
    }
  }

  /** No two documents share an identifier. */
  predicate UniqueIds(docs: seq<Snapshot>) {
    docs == [] ||
    (UniqueIds(docs[..|docs| - 1]) && docs[|docs| - 1].id !in DocIds(docs[..|docs| - 1]))
  }

  /** Identifiers are unique exactly when no two positions carry the same one. */
  lemma {:induction false} UniqueIdsPairwise(docs: seq<Snapshot>)
    ensures UniqueIds(docs) <==> forall i, j :: 0 <= i < j < |docs| ==> docs[i].id != docs[j].id
  {
    if docs != [] {
      var init := docs[..|docs| - 1];
      UniqueIdsPairwise(init);
      if UniqueIds(docs) {
        forall i, j | 0 <= i < j < |docs| ensures docs[i].id != docs[j].id {
          assert docs[i] == init[i];
          if j < |docs| - 1 {
            assert docs[j] == init[j];
          } else {
            DocIdsHas(init, i);
          }
        }
      }
      if forall i, j :: 0 <= i < j < |docs| ==> docs[i].id != docs[j].id {
        forall i, j | 0 <= i < j < |init| ensures init[i].id != init[j].id {
          assert init[i] == docs[i] && init[j] == docs[j];
        }
        forall i | 0 <= i < |init| ensures init[i].id != docs[|docs| - 1].id {
          assert init[i] == docs[i];
        }
        DocIdsAbsent(init, docs[|docs| - 1].id);
      }
    }
  }

  /** An identifier no document carries is not in use. */
  lemma {:induction false} DocIdsAbsent(docs: seq<Snapshot>, id: DocId)
    requires forall i :: 0 <= i < |docs| ==> docs[i].id != id
    ensures id !in DocIds(docs)
  {
    if docs != [] {
      var init := docs[..|docs| - 1];
      forall i | 0 <= i < |init| ensures init[i].id != id {
        assert init[i] == docs[i];
      }
      DocIdsAbsent(init, id);
    }
  }

  /** The identifiers of two runs of documents together. */
  lemma {:induction false} DocIdsAppend(a: seq<Snapshot>, b: seq<Snapshot>)
    ensures DocIds(a + b) == DocIds(a) + DocIds(b)
  {
    if b != [] {
      var init := b[..|b| - 1];
      DocIdsAppend(a, init);
      assert (a + b)[..|a + b| - 1] == a + init;
    } else {
      assert a + b == a;
    }
  }

  /** Two runs of documents together have unique identifiers exactly when
   *  each run does and no identifier occurs in both. */
  lemma {:induction false} UniqueIdsAppend(a: seq<Snapshot>, b: seq<Snapshot>)
    ensures UniqueIds(a + b) <==> UniqueIds(a) && UniqueIds(b) && DocIds(a) !! DocIds(b)
  {
    if b != [] {
      var init := b[..|b| - 1];
      UniqueIdsAppend(a, init);
      DocIdsAppend(a, init);
      assert (a + b)[..|a + b| - 1] == a + init;
    } else {
      assert a + b == a;
    }
  }

  /** `docs` with `s` placed at position `k`. */
  function InsertAt(docs: seq<Snapshot>, k: int, s: Snapshot): (r: seq<Snapshot>)
    requires 0 <= k <= |docs|
    ensures |r| == |docs| + 1 && r[k] == s
  {
    docs[..k] + [s] + docs[k..]
  }

  /** Placing a document anywhere adds exactly its identifier. */
  lemma InsertAtIds(docs: seq<Snapshot>, k: int, s: Snapshot)
    requires 0 <= k <= |docs|
    ensures DocIds(InsertAt(docs, k, s)) == DocIds(docs) + {s.id}
  {
    InsertAtSplit(docs, k, s);
    DocIdsBetween(docs[..k], docs[k..], s);
  }

  /** `InsertAt` puts the document between the two parts of `docs` it
   *  splits at `k`. */
  lemma InsertAtSplit(docs: seq<Snapshot>, k: int, s: Snapshot)
    requires 0 <= k <= |docs|
    ensures InsertAt(docs, k, s) == docs[..k] + [s] + docs[k..]
    ensures docs[..k] + docs[k..] == docs
  {
  }

  /** A document between two runs adds exactly its identifier. */
  lemma DocIdsBetween(a: seq<Snapshot>, b: seq<Snapshot>, s: Snapshot)
    ensures DocIds(a + [s] + b) == DocIds(a + b) + {s.id}
  {
    calc {
      DocIds(a + [s] + b);
      { DocIdsAppend(a + [s], b); }
      DocIds(a + [s]) + DocIds(b);
      { DocIdsSnoc(a, s); }
      (DocIds(a) + {s.id}) + DocIds(b);
      DocIds(a) + DocIds(b) + {s.id};
      { DocIdsAppend(a, b); }
      DocIds(a + b) + {s.id};
    }
  }

  /** Placing a document whose identifier is not in use anywhere keeps the
   *  identifiers unique. */
  lemma InsertAtUnique(docs: seq<Snapshot>, k: int, s: Snapshot)
    requires 0 <= k <= |docs|
    requires UniqueIds(docs) && s.id !in DocIds(docs)
    ensures UniqueIds(InsertAt(docs, k, s))
  {
    InsertAtSplit(docs, k, s);
    UniqueIdsBetween(docs[..k], docs[k..], s);
  }

  /** A document with an unused identifier between two runs keeps the
   *  identifiers unique. */
  lemma UniqueIdsBetween(a: seq<Snapshot>, b: seq<Snapshot>, s: Snapshot)
    requires UniqueIds(a + b) && s.id !in DocIds(a + b)
    ensures UniqueIds(a + [s] + b)
  {
    UniqueIdsAppend(a, b);
    DocIdsAppend(a, b);
    assert (a + [s])[..|a|] == a;
    assert UniqueIds(a + [s]);
    DocIdsSnoc(a, s);
    UniqueIdsAppend(a + [s], b);
  }

  /** The identifiers of the locations `locs`. */
  function LocIds(locs: seq<Location>): set<DocId> {
    if locs == [] then {} else LocIds(locs[..|locs| - 1]) + {locs[|locs| - 1].id}
  }

  lemma LocIdsSnoc(locs: seq<Location>, loc: Location)
    ensures LocIds(locs + [loc]) == LocIds(locs) + {loc.id}
  {
    assert (locs + [loc])[..|locs|] == locs;
  }

  /** A record is drawn exactly when some document yields it and its
   *  coordinates are both truthy. */
  lemma {:induction false} AcceptedMembership(docs: seq<Snapshot>, loc: Location)
    ensures loc in Accepted(docs) <==>
            exists i :: 0 <= i < |docs| && FromSnapshot(docs[i]) == loc && Renderable(loc)
  {
    if docs != [] {
      var init := docs[..|docs| - 1];
      AcceptedMembership(init, loc);
      if loc in Accepted(docs) && loc !in Accepted(init) {
        assert FromSnapshot(docs[|docs| - 1]) == loc;
      }
      if exists i :: 0 <= i < |docs| && FromSnapshot(docs[i]) == loc && Renderable(loc) {
        var i :| 0 <= i < |docs| && FromSnapshot(docs[i]) == loc && Renderable(loc);
        if i < |docs| - 1 {
          assert init[i] == docs[i];
        }
      }
    }
  }

  /** The number of documents whose coordinates are both truthy. */
  function CountRenderable(docs: seq<Snapshot>): nat {
    if docs == [] then 0
    else CountRenderable(docs[..|docs| - 1]) + (if Renderable(FromSnapshot(docs[|docs| - 1])) then 1 else 0)
  }

  /** A load draws one record per document with truthy coordinates. */
  lemma {:induction false} AcceptedCount(docs: seq<Snapshot>)
    ensures |Accepted(docs)| == CountRenderable(docs)
  {
    if docs != [] {
      AcceptedCount(docs[..|docs| - 1]);
    }
  }

  /** A document with a latitude or longitude of 0 or NaN is never drawn,
   *  even one this client saved itself. */
  lemma FalsyCoordinateNeverDrawn(docs: seq<Snapshot>, i: int)
    requires 0 <= i < |docs|
    requires !CoordTruthy(docs[i].data.latitude) || !CoordTruthy(docs[i].data.longitude)
    ensures FromSnapshot(docs[i]) !in Accepted(docs)
  {
    AcceptedMembership(docs, FromSnapshot(docs[i]));
  }
}
