/** The page controller: the module-level state of the script (the marker
 *  registry, the locations list container, the add-mode flag, the dialog
 *  form's stashed coordinates) and the event handlers that change it.
 *  Each handler runs to completion; the store's failures are modelled,
 *  the map and dialog widgets are reduced to the state they show, and the
 *  toast a handler pops up is returned to its caller.
 */
module Controller {
  import opened Js
  import opened Records
  import opened Store
  import opened View

  datatype AlertKind = SuccessAlert | WarningAlert | DangerAlert | InfoAlert

  /** A toast (`mostrarAlerta`): its message and its Bootstrap alert style. */
  datatype Alert = Alert(message: string, kind: AlertKind)

  const LoadFailed: Alert := Alert("Error al cargar ubicaciones", DangerAlert)
  const SaveFailed: Alert := Alert("Error al guardar ubicación", DangerAlert)
  const StreetMissing: Alert := Alert("Por favor, ingresa el nombre de la ubicación", WarningAlert)
  const QuickAdded: Alert := Alert("Ubicación agregada correctamente", SuccessAlert)
  const NameRequired: Alert := Alert("El nombre es requerido", WarningAlert)
  const DialogSaved: Alert := Alert("Location guardada correctamente", SuccessAlert)
  const ClickToAdd: Alert := Alert("Haz clic en el mapa para agregar una ubicación", InfoAlert)

  /** The base coordinates the map opens on and quick add scatters around. */
  const BaseLat: real := 25.88848
  const BaseLng: real := -103.62139

  /** A quick-add coordinate: the base value moved by `(r - 0.5) * 0.03` for
   *  a draw `r` of `Math.random()`, so never further than 0.015 degrees. */
  function Scatter(base: real, r: real): (c: Coord)
    requires 0.0 <= r < 1.0
    ensures c.At? && base - 0.015 <= c.degrees < base + 0.015
  {
    At(base + (r - 0.5) * 0.03)
  }

  /** A location quick add saved is drawn again by every load of a
   *  collection holding its document, since its scattered coordinates are
   *  never 0 or NaN; it comes back with the danger-3 look: the orange
   *  marker, the medium card and the warning text and badge. */
  lemma QuickAddedRedrawn(docs: seq<Snapshot>, i: int, id: DocId, name: string, r1: real, r2: real)
    requires 0.0 <= r1 < 1.0 && 0.0 <= r2 < 1.0
    requires 0 <= i < |docs|
    requires docs[i] == Snapshot(id, NewDocument(name, Scatter(BaseLat, r1), Scatter(BaseLng, r2), Int(1), Int(3)))
    ensures var loc := SavedRecord(id, name, Scatter(BaseLat, r1), Scatter(BaseLng, r2), Int(1), Int(3));
            loc in Accepted(docs) &&
            MarkerFor(loc).colour == "#fd7e14" && MarkerFor(loc).emoji == "\U{1F7E0}" &&
            ItemFor(loc) == Item(ItemDomId(id), "danger-medium", "text-warning", "bg-warning", loc)
  {
    var loc := SavedRecord(id, name, Scatter(BaseLat, r1), Scatter(BaseLng, r2), Int(1), Int(3));
    SaveThenLoad(id, name, Scatter(BaseLat, r1), Scatter(BaseLng, r2), Int(1), Int(3));
    assert FromSnapshot(docs[i]) == loc && Renderable(loc);
    AcceptedMembership(docs, loc);
    DangerThreeLook(loc);
  }

  /** The records one document contributes to a load: its own, when both
   *  coordinates are truthy, and none otherwise. */
  function Drawn(s: Snapshot): seq<Location> {
    if Renderable(FromSnapshot(s)) then [FromSnapshot(s)] else []
  }

  /** Handling document `i` of a load extends the drawn records, the
   *  registry and the list from the first `i` documents to the first `i + 1`. */
  lemma LoadStep(rendered0: seq<Location>, markers0: seq<Marker>, list0: seq<ListNode>, docs: seq<Snapshot>, i: int)
    requires 0 <= i < |docs|
    ensures (rendered0 + Accepted(docs[..i])) + Drawn(docs[i]) == rendered0 + Accepted(docs[..i + 1])
    ensures (markers0 + MarkersFor(Accepted(docs[..i]))) + MarkersFor(Drawn(docs[i]))
            == markers0 + MarkersFor(Accepted(docs[..i + 1]))
    ensures NewestFirst(Drawn(docs[i])) + (NewestFirst(Accepted(docs[..i])) + list0)
            == NewestFirst(Accepted(docs[..i + 1])) + list0
  {
    var before := Accepted(docs[..i]);
    var drawn := Drawn(docs[i]);
    assert docs[..i + 1] == docs[..i] + [docs[i]];
    AcceptedSnoc(docs[..i], docs[i]);
    assert (rendered0 + before) + drawn == rendered0 + (before + drawn);
    MarkersForAppend(before, drawn);
    assert (markers0 + MarkersFor(before)) + MarkersFor(drawn) == markers0 + (MarkersFor(before) + MarkersFor(drawn));
    NewestFirstAppend(before, drawn);
    assert NewestFirst(drawn) + (NewestFirst(before) + list0) == (NewestFirst(drawn) + NewestFirst(before)) + list0;
  }

  /** The add-location flow's own state: the `modoAgregarUbicacion` flag,
   *  whether the entry dialog is shown, and the coordinates stashed on its
   *  form (`form.dataset`), as `parseFloat` reads them back. */
  class EntryDialog {
    /** `modoAgregarUbicacion`: whether a map click opens the dialog. */
    var armed: bool
    var shown: bool
    var lat: Coord
    var lng: Coord

    /** The dialog is only ever shown by a map click, so while it is shown
     *  the form holds the clicked point, never NaN. */
    ghost predicate Valid()
      reads this`shown, this`lat, this`lng
    {
      shown ==> lat.At? && lng.At?
    }

    /** Before any click: not armed, hidden, and the form's coordinates
     *  unset (`parseFloat(undefined)` is NaN). */
    constructor ()
      ensures Valid()
      ensures !armed && !shown && lat == NotANumber && lng == NotANumber
    {
      armed, shown := false, false;
      lat, lng := NotANumber, NotANumber;
    }

    /** `mostrarModalUbicacion`: stashes the coordinates on the form and
     *  shows the dialog; the flag is left as it is. */
    method Open(lat: real, lng: real)
      modifies this`lat, this`lng, this`shown
      ensures Valid()
      ensures this.lat == At(lat) && this.lng == At(lng) && shown
    {
      this.lat, this.lng := At(lat), At(lng);
      shown := true;
    }

    /** After a successful dialog save: `modal.hide()` and the reset of
     *  `modoAgregarUbicacion`; the stashed coordinates stay. */
    method Close()
      modifies this`armed, this`shown
      ensures Valid()
      ensures !armed && !shown
    {
      shown := false;
      armed := false;
    }
  }

  class Page {
    /** The remote `Locations` collection. */
    const store: LocationStore
    /** `marcadores`: every marker drawn so far, oldest first; never shrinks. */
    var markers: seq<Marker>
    /** The locations whose markers were drawn, in drawing order. */
    ghost var rendered: seq<Location>
    /** The children of the locations container, first child first. */
    var list: seq<ListNode>
    /** The add-mode flag and the entry dialog. */
    const entry: EntryDialog

    /** The registry holds exactly the markers of the drawn locations, and
     *  every drawn location is a document of the store. */
    ghost predicate Valid()
      reads this`markers, this`rendered, store
    {
      store.Valid() &&
      markers == MarkersFor(rendered) &&
      LocIds(rendered) <= store.Ids()
    }

    /** The list shows one card per marker, the most recently drawn first,
     *  with at most the "no locations" paragraph left behind them. */
    ghost predicate Synced()
      reads this`markers, this`rendered, this`list
    {
      markers == MarkersFor(rendered) && ListShows(list, rendered)
    }

    /** The store, the registry and the list are as they were. */
    twostate predicate Unchanged()
      reads this`markers, this`rendered, this`list, store
    {
      store.docs == old(store.docs) && markers == old(markers) &&
      rendered == old(rendered) && list == old(list)
    }

    /** Exactly one location was added: its document `d` was placed in the
     *  store, at some position of the query order, under an id that no
     *  earlier document and no earlier marker carries; its marker was
     *  pushed onto the registry and its card was put in front of the list;
     *  nothing else was removed or reordered. */
    twostate predicate AddedOne(loc: Location, d: Document)
      reads this`markers, this`rendered, this`list, store
    {
      loc.id !in old(store.Ids()) &&
      loc.id !in MarkerIds(old(markers)) &&
      (exists k :: 0 <= k <= |old(store.docs)| && store.docs == InsertAt(old(store.docs), k, Snapshot(loc.id, d))) &&
      markers == old(markers) + [MarkerFor(loc)] &&
      rendered == old(rendered) + [loc] &&
      list == [ItemFor(loc)] + old(list)
    }

    /** The outcome of saving the location `name` at (`lat`, `lng`) with
     *  the given `amount` and `danger`: when the store refused (`saved` is
     *  None) nothing changed; otherwise the record built from the written
     *  values and the new id was added as by `AddedOne`. */
    twostate predicate SaveOutcome(name: string, lat: Coord, lng: Coord, amount: JsNum, danger: JsNum,
                                   new saved: Option<Location>)
      reads this`markers, this`rendered, this`list, store
    {
      (saved.None? ==> Unchanged()) &&
      (saved.Some? ==>
         saved.value == SavedRecord(saved.value.id, name, lat, lng, amount, danger) &&
         AddedOne(saved.value, NewDocument(name, lat, lng, amount, danger)))
    }

    /** The page before the first load: nothing drawn, add mode off, and
     *  the form's coordinates unset (`parseFloat(undefined)` is NaN). */
    constructor (store: LocationStore)
      requires store.Valid()
      ensures Valid() && Synced()
      ensures this.store == store && fresh(entry)
      ensures markers == [] && rendered == [] && list == []
      ensures !entry.armed && !entry.shown && entry.Valid()
      ensures entry.lat == NotANumber && entry.lng == NotANumber
    {
      this.store := store;
      markers, rendered, list := [], [], [];
      entry := new EntryDialog();
    }

    /** `agregarMarcador`: draws the location's marker and pushes it onto the registry. */
    method AddMarker(loc: Location)
      modifies this`markers, this`rendered
      ensures markers == old(markers) + [MarkerFor(loc)]
      ensures rendered == old(rendered) + [loc]
      ensures old(markers == MarkersFor(rendered)) ==> markers == MarkersFor(rendered)
    {
      MarkersForSnoc(rendered, loc);
      markers := markers + [MarkerFor(loc)];
      rendered := rendered + [loc];
    }

    /** `agregarALista`: prepends the location's card to the container. */
    method AddToList(loc: Location)
      modifies this`list
      ensures list == [ItemFor(loc)] + old(list)
    {
      list := [ItemFor(loc)] + list;
    }

    /** `cargarUbicacionesDesdeFirebase`: on a failed query, a danger toast
     *  and nothing else; on an empty collection, the container holds only
     *  the placeholder; otherwise the container is cleared and every
     *  document with truthy coordinates gets a marker and a card. The
     *  registry is not cleared. */
    method Load() returns (toast: Option<Alert>)
      requires Valid()
      modifies this`markers, this`rendered, this`list
      ensures Valid()
      ensures toast.Some? ==> toast.value == LoadFailed && Unchanged()
      ensures toast.None? && store.docs == [] ==> markers == old(markers) && rendered == old(rendered) && list == [Placeholder]
      ensures toast.None? && store.docs != [] ==>
                rendered == old(rendered) + Accepted(store.docs) &&
                markers == old(markers) + MarkersFor(Accepted(store.docs)) &&
                list == NewestFirst(Accepted(store.docs))
      ensures toast.None? && old(markers) == [] ==> Synced()
    {
      var r := store.Fetch();
      if r.None? {
        return Some(LoadFailed);
      }
      var docs := r.value;
      if docs == [] {
        list := [Placeholder];
        if old(markers) == [] {
          assert rendered == [] && list == NewestFirst([]) + [Placeholder];
        }
        return None;
      }
      list := [];
      DrawAll(docs);
      if old(markers) == [] {
        assert rendered == Accepted(docs) && list == NewestFirst(rendered) + [];
      }
      return None;
    }

    /** The `forEach` over the query result: each document in turn is
     *  rebuilt and, when both its coordinates are truthy, drawn. */
    method DrawAll(docs: seq<Snapshot>)
      requires Valid() && docs == store.docs
      modifies this`markers, this`rendered, this`list
      ensures Valid()
      ensures rendered == old(rendered) + Accepted(docs)
      ensures markers == old(markers) + MarkersFor(Accepted(docs))
      ensures list == NewestFirst(Accepted(docs)) + old(list)
    {
      ghost var rendered0, markers0, list0 := rendered, markers, list;
      var i := 0;
      while i < |docs|
        invariant 0 <= i <= |docs|
        invariant Valid()
        invariant rendered == rendered0 + Accepted(docs[..i])
        invariant markers == markers0 + MarkersFor(Accepted(docs[..i]))
        invariant list == NewestFirst(Accepted(docs[..i])) + list0
      {
        DocIdsHas(docs, i);
        LoadDocument(docs[i]);
        LoadStep(rendered0, markers0, list0, docs, i);
        i := i + 1;
      }
      assert docs[..|docs|] == docs;
    }

    /** The `forEach` callback of the load: builds the record from the
     *  document and draws it only when both coordinates are truthy. */
    method LoadDocument(s: Snapshot)
      requires Valid() && s.id in store.Ids()
      modifies this`markers, this`rendered, this`list
      ensures Valid()
      ensures rendered == old(rendered) + Drawn(s)
      ensures markers == old(markers) + MarkersFor(Drawn(s))
      ensures list == NewestFirst(Drawn(s)) + old(list)
    {
      var loc := FromSnapshot(s);
      if Renderable(loc) {
        DrawOne(loc);
        Show(loc);
      }
    }

    /** `guardarUbicacionEnFirebase`: writes the document; on failure pops
     *  a danger toast and yields nothing, on success yields the record
     *  built from the written values and the new identifier. */
    method SaveLocation(name: string, lat: Coord, lng: Coord, amount: JsNum, danger: JsNum)
      returns (saved: Option<Location>, toast: Option<Alert>)
      requires Valid()
      modifies store
      ensures Valid()
      ensures toast == (if saved.None? then Some(SaveFailed) else None)
      ensures saved.None? ==> store.docs == old(store.docs)
      ensures saved.Some? ==>
                saved.value.id !in old(store.Ids()) && store.Ids() == old(store.Ids()) + {saved.value.id} &&
                (exists k :: 0 <= k <= |old(store.docs)| &&
                   store.docs == InsertAt(old(store.docs), k, Snapshot(saved.value.id, NewDocument(name, lat, lng, amount, danger)))) &&
                saved.value == SavedRecord(saved.value.id, name, lat, lng, amount, danger)
    {
      var id := store.Add(NewDocument(name, lat, lng, amount, danger));
      if id.None? {
        return None, Some(SaveFailed);
      }
      saved, toast := Some(SavedRecord(id.value, name, lat, lng, amount, danger)), None;
    }

    /** Draws a freshly saved location: its marker and its card. */
    method Show(loc: Location)
      requires Valid() && loc.id in store.Ids()
      modifies this`markers, this`rendered, this`list
      ensures Valid()
      ensures markers == old(markers) + [MarkerFor(loc)] && rendered == old(rendered) + [loc]
      ensures list == [ItemFor(loc)] + old(list)
      ensures old(Synced()) ==> Synced()
    {
      if Synced() {
        ListShowsSnoc(list, rendered, loc);
      }
      LocIdsSnoc(rendered, loc);
      AddMarker(loc);
      AddToList(loc);
    }

    /** The step both add paths share: save, and on success draw the
     *  returned location's marker and card. The new id is used by no
     *  marker drawn before. */
    method SaveAndDraw(name: string, lat: Coord, lng: Coord, amount: JsNum, danger: JsNum)
      returns (saved: Option<Location>, toast: Option<Alert>)
      requires Valid()
      modifies store, this`markers, this`rendered, this`list
      ensures Valid()
      ensures old(Synced()) ==> Synced()
      ensures toast == (if saved.None? then Some(SaveFailed) else None)
      ensures SaveOutcome(name, lat, lng, amount, danger, saved)
    {
      saved, toast := SaveLocation(name, lat, lng, amount, danger);
      if saved.Some? {
        MarkerIdsFor(rendered);
        Show(saved.value);
      }
    }

    /** `guardarUbicacion`, the quick-add path: the trimmed street name is
     *  required; the location is saved with amount 1 and danger 3 near the
     *  base coordinates, scattered by the draws `r1` and `r2` of
     *  `Math.random()`, then drawn. The add-mode flag, the dialog and the
     *  form are never touched. */
    method QuickAdd(street: string, r1: real, r2: real) returns (ghost saved: Option<Location>, toast: Alert)
      requires Valid()
      requires 0.0 <= r1 < 1.0 && 0.0 <= r2 < 1.0
      modifies store, this`markers, this`rendered, this`list
      ensures Valid()
      ensures old(Synced()) ==> Synced()
      ensures Trim(street) == [] ==> saved.None? && Unchanged() && toast == StreetMissing
      ensures Trim(street) != [] ==>
                SaveOutcome(Trim(street), Scatter(BaseLat, r1), Scatter(BaseLng, r2), Int(1), Int(3), saved) &&
                toast == (if saved.Some? then QuickAdded else SaveFailed)
    {
      var name := Trim(street);
      if name == [] {
        return None, StreetMissing;
      }
      var r, failed := SaveAndDraw(name, Scatter(BaseLat, r1), Scatter(BaseLng, r2), Int(1), Int(3));
      saved := r;
      toast := if r.Some? then QuickAdded else SaveFailed;
    }

    /** `guardarDesdeModal`: the trimmed name is required; the location is
     *  saved at the coordinates stashed on the form, with amount and danger
     *  coerced by `|| 0` here and again by the save, then drawn; the
     *  dialog closes and add mode ends only when the save succeeds. Its
     *  save button sits in the dialog, so the dialog is shown. */
    method DialogSave(nameText: string, amount: JsNum, danger: JsNum) returns (ghost saved: Option<Location>, toast: Alert)
      requires Valid()
      requires entry.Valid() && entry.shown
      modifies store, this`markers, this`rendered, this`list, entry`armed, entry`shown
      ensures Valid() && entry.Valid()
      ensures old(Synced()) ==> Synced()
      ensures Trim(nameText) == [] ==> saved.None? && Unchanged() && toast == NameRequired
      ensures Trim(nameText) != [] ==>
                SaveOutcome(Trim(nameText), old(entry.lat), old(entry.lng), Int(OrZero(amount)), Int(OrZero(danger)), saved) &&
                toast == (if saved.Some? then DialogSaved else SaveFailed)
      ensures saved.None? ==> entry.armed == old(entry.armed) && entry.shown == old(entry.shown)
      ensures saved.Some? ==> !entry.armed && !entry.shown
    {
      if Trim(nameText) == [] {
        return None, NameRequired;
      }
      var name, lat, lng := Trim(nameText), entry.lat, entry.lng;
      var r, failed := SaveAndDraw(name, lat, lng, Int(OrZero(amount)), Int(OrZero(danger)));
      saved := r;
      if r.Some? {
        entry.Close();
        toast := DialogSaved;
      } else {
        toast := SaveFailed;
      }
    }

    /** The map's click handler: when armed, it opens the dialog for the
     *  clicked point; otherwise the click changes nothing. */
    method MapClick(lat: real, lng: real)
      modifies entry`lat, entry`lng, entry`shown
      ensures old(entry.Valid()) ==> entry.Valid()
      ensures old(entry.armed) ==> entry.lat == At(lat) && entry.lng == At(lng) && entry.shown
      ensures !old(entry.armed) ==> entry.lat == old(entry.lat) && entry.lng == old(entry.lng) && entry.shown == old(entry.shown)
    {
      if entry.armed {
        entry.Open(lat, lng);
      }
    }

    /** `activarModoMapa`: arms add mode and pops the hint toast. */
    method ActivateMapMode() returns (toast: Alert)
      modifies entry`armed
      ensures entry.armed && toast == ClickToAdd
    {
      entry.armed := true;
      toast := ClickToAdd;
    }
  }
}
