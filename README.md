# Location map: a verified model of the page controller

`script.js` drives a single page that records locations on a Leaflet map
and keeps them in a Firestore collection named `Locations`. Each location
has a name, a latitude and a longitude, an amount and a danger level from 1
to 5. The page keeps three pieces of state of its own:

- the marker registry `marcadores`;
- the locations list container, where each new card is put in front;
- the add-mode flag `modoAgregarUbicacion`, together with the coordinates
  stashed on the entry dialog's form.

Locations are added in two ways:

- the quick-add path (`guardarUbicacion`) saves the street name typed by
  the user, near the base coordinates, with amount 1 and danger 3;
- the dialog path is armed by `activarModoMapa`, opened by a map click, and
  saved by `guardarDesdeModal`.

This project models that controller in Dafny:

- `Js` holds the JavaScript value rules the script depends on: truthiness
  of numbers and coordinates, the `x || 0` default, and `trim`.
- `Presentation` holds the danger presentation tables (marker colour,
  marker emoji, list badge colour) and the severity bucket used by the card
  class.
- `Records` holds the document a save writes, the record a save returns,
  the record a load rebuilds, and the load's filter: a document is drawn
  only when both of its coordinates are truthy.
- `Store` holds the collection as a class with `Add` and `Fetch`. Either
  call may fail, and the failure is chosen nondeterministically.
- `View` holds the marker and the list card drawn for a location, and the
  registry and list that a sequence of locations produces.
- `Controller` holds the page as a class whose fields are the registry, the
  list and the entry dialog. Its methods are the page's handlers, and each
  handler is proved against the store and view functions.

The invariant `Page.Valid` has three parts:

- the store's document identifiers are unique;
- the registry is exactly the markers of the drawn locations;
- the identifier of every drawn location is in use in the store.

The entry dialog has an invariant of its own, `EntryDialog.Valid`: while
the dialog is shown, its form holds the clicked point, never NaN.

Every handler keeps `Valid`. Both save handlers also keep `Page.Synced`: the
list shows one card per marker, in reverse order, with at most the "no
locations" paragraph behind them. A load does not clear the registry, and
so a load establishes `Synced` only when the registry was empty before it.

## Model

| member | source | states |
|---|---|---|
| Js.OrZero | script.js:71-72 | `x \|\| 0` gives the integer itself when it is truthy and 0 otherwise, and the result is non-zero exactly when the input is truthy |
| Js.OrZeroIdempotent | script.js:162-163 | the dialog applies `\|\| 0` before the save applies it again, and the second application changes nothing |
| Js.Trim | script.js:119 | the result is a part of the input with nothing but ECMAScript whitespace and line terminators around it; it is empty exactly when the input is all such characters, and otherwise it neither starts nor ends with one |
| Js.TrimIdempotent | script.js:119 | trimming an already trimmed string changes nothing |
| Presentation.LookupYields | script.js:199-200 | `table[danger - 1] \|\| fallback` yields a table entry or the fallback: the level's entry when it exists and is non-empty, and the fallback when the level is outside the table |
| Presentation.MarkerColour | script.js:196-199 | levels 1-5 take their entry of the five-colour table, and the result is the fallback `#1976D2` exactly when the level is outside 1-5 |
| Presentation.MarkerEmoji | script.js:197-200 | levels 1-5 take their entry of the emoji table, and the result is the pin fallback exactly when the level is outside 1-5 |
| Presentation.BadgeColour | script.js:242-257 | levels 1-5 take their entry of the badge table, and the result is `primary` exactly when the level is outside 1-5 |
| Presentation.MarkerColourIdentifiesLevel | script.js:196-199 | two levels share a marker colour only when they are equal or both outside 1-5 |
| Presentation.MarkerEmojiMergesThreeAndFour | script.js:197-200 | two levels in 1-5 share an emoji exactly when they are equal or are 3 and 4 |
| Presentation.SeverityOf | script.js:256 | the class is `high` exactly from level 4 up, `medium` exactly for levels 2 and 3, and `low` exactly below 2 |
| Presentation.DangerClassBuckets | script.js:256 | the card's class is `danger-high` exactly from level 4 up, `danger-medium` exactly for levels 2 and 3, and `danger-low` exactly below 2 |
| Presentation.SeverityMonotone | script.js:256 | a higher danger level never gets a lower severity |
| Presentation.BadgeAgreesWithSeverityInTier | script.js:242-257 | within levels 1-5 the badge colour (success, warning or danger) names the same bucket as the severity class |
| Presentation.BadgeFallbackSpansSeverities | script.js:256-257 | outside 1-5 the badge falls back to `primary`, while the severity is `low` below 1 and `high` above 5 |
| Presentation.SharedEmojiSplitsBadge | script.js:242-257 | the badge does not follow the emoji of line 197: two levels in 1-5 that share an emoji share the badge only when they are equal, so levels 3 and 4 show the same orange circle but the warning and danger badges |
| Records.NewDocument | script.js:91-98 | the saved document keeps the name and the coordinates, and stores amount and danger as integers: the parsed value when truthy, 0 otherwise |
| Records.SavedRecordFields | script.js:100-107 | the record a save returns carries the new id, the name and the coordinates as given, and amount and danger as `parseInt(...) \|\| 0` makes them |
| Records.FromSnapshot | script.js:65-74 | the loaded record keeps the id, the name and both coordinates, and amount and danger fall back to 0 when falsy |
| Records.SaveThenLoad | script.js:100-108 | the record a save returns equals the record a later load rebuilds from the document that save wrote |
| Records.Accepted | script.js:64-79 | a load draws at most one record per document, and every record it draws has two truthy coordinates |
| Records.AcceptedSnoc | script.js:64-79 | one more document adds its record at the end exactly when both of its coordinates are truthy |
| Records.AcceptedMembership | script.js:76-79 | a record is drawn if and only if some document yields it and both of its coordinates are truthy |
| Records.AcceptedCount | script.js:76-79 | the number of records drawn equals the number of documents with two truthy coordinates |
| Records.FalsyCoordinateNeverDrawn | script.js:76 | a document whose latitude or longitude is 0 or NaN is never drawn by a load, even when this page saved it |
| Store.LocationStore.Add | script.js:91-98 | on failure nothing is written; on success the document is placed at some position of the query order under an identifier no earlier document has, the identifiers in use grow by exactly that one, and ids stay unique |
| Store.LocationStore.Fetch | script.js:55 | a successful query returns every document of the collection, in order |
| View.MarkerShows | script.js:199-236 | the marker drawn for a location sits at its coordinates, carries its id, and shows the colour and emoji of its level, or the blue pushpin outside 1-5 |
| View.CardShows | script.js:256-268 | the card listed for a location has the element id `item-<id>`, the severity class of its level, and title and badge in its level's badge colour, or `primary` outside 1-5 |
| View.ItemDomIdInjective | script.js:261 | different locations get different card element ids |
| View.MarkersFor | script.js:236-237 | the registry holds one marker per drawn location |
| View.NewestFirst | script.js:297 | the list holds one card per drawn location |
| View.MarkersForSnoc | script.js:237 | drawing one more location pushes its marker at the end of the registry |
| View.NewestFirstSnoc | script.js:297 | listing one more location puts its card at the front of the list |
| View.MarkerAndItemCorrelated | script.js:236-261 | the k-th marker belongs to the k-th drawn location, and that location's card sits at the mirrored list position with the id `item-` + the marker's id |
| Controller.Scatter | script.js:126-127 | a quick-add coordinate is a number within 0.015 degrees of the base coordinate, for any draw of `Math.random()` in [0, 1) |
| Controller.QuickAddedRedrawn | script.js:126-141 | a location quick add saved is drawn again by any load of a collection that holds its document, because its coordinates are never 0 or NaN, and it comes back with the orange marker, the medium card and the warning text and badge |
| Controller.LoadStep | script.js:64-80 | handling document i of the query result extends the drawn records, the registry and the list from the first i documents to the first i+1 |
| Controller.EntryDialog.constructor | script.js:14 | before any click add mode is off, the dialog is hidden and the form holds no coordinates (NaN) |
| Controller.EntryDialog.Open | script.js:44-50 | the clicked coordinates are stashed on the form and the dialog is shown, so a shown dialog holds real coordinates |
| Controller.EntryDialog.Close | script.js:174-188 | after a successful dialog save the dialog is hidden and add mode is off |
| Controller.Page.constructor | script.js:12-16 | the page starts with an empty registry, an empty list and add mode off |
| Controller.Page.AddMarker | script.js:195-238 | pushes the location's marker (its id, colour and emoji) onto the registry and keeps the registry equal to the markers of the drawn locations |
| Controller.Page.AddToList | script.js:241-298 | puts the location's card at the front of the container |
| Controller.Page.Load | script.js:53-86 | a failed query gives the load-error toast and changes nothing; an empty collection leaves only the placeholder; otherwise the container is cleared and the accepted records are appended to the registry and listed in reverse query order; the registry is never cleared |
| Controller.Page.DrawAll | script.js:64-80 | after the loop over the query result, every accepted record, in order, has been drawn and listed, and the invariant holds |
| Controller.Page.LoadDocument | script.js:65-79 | one document is drawn and listed exactly when both of its coordinates are truthy |
| Controller.Page.SaveLocation | script.js:89-115 | a failed write gives the save-error toast and changes nothing; a successful one places the normalised document somewhere in the collection under a fresh id and returns the record built from the written values |
| Controller.Page.Show | script.js:140-141 | a saved location gets its marker at the end of the registry and its card at the front of the list, and the registry and list stay in step |
| Controller.Page.SaveAndDraw | script.js:137-141 | after a failed save nothing changed; after a successful one exactly one location was added, under an id no earlier document or marker carries |
| Controller.Page.QuickAdd | script.js:118-146 | a blank street gives the warning toast and changes nothing; otherwise the trimmed name is saved with amount 1 and danger 3 at the base coordinates scattered by the two random draws, and drawn, with the success toast, or nothing changes and the save-error toast appears |
| Controller.Page.DialogSave | script.js:149-192 | the save button sits in the shown dialog, so the form holds a clicked point; a blank name gives the warning toast and changes nothing; otherwise the trimmed name is saved at the form's coordinates with amount and danger coerced by `\|\| 0`; a success draws it, hides the dialog and ends add mode, and a failure leaves the dialog and the flag as they were |
| Controller.Page.MapClick | script.js:31-37 | a click in add mode stashes its coordinates and shows the dialog; any other click changes nothing |
| Controller.Page.ActivateMapMode | script.js:319-322 | turns add mode on and gives the info toast |

## Left out

- The Firestore transport is not modelled. A store call either succeeds or fails as a whole, and the failure is chosen nondeterministically.
- The server timestamp, `created_at` and the card's date text are not modelled (script.js:97, 107, 243-254), because they depend on the clock.
- Leaflet is reduced to the registry. The map setup, the tile layer, the icon and popup HTML, and the `setView` recentring after a save or a marker click are left out (script.js:25-28, 142, 171, 202-235). `centrarEnUbicacion` is left out for the same reason.
- The debugging query at the top of the file is left out, because it only writes to the console (script.js:1-9).
- A toast is returned by the handler that pops it. Its DOM element and its removal after three seconds are not modelled (script.js:302-313).
- The two `Math.random()` draws of quick add (script.js:126-127) are parameters of `Controller.Page.QuickAdd`, limited to [0, 1) as `Math.random` promises.
- Store.LocationStore.Add: a query returns documents ordered by identifier, and a new identifier is random. The model does not order by identifier; it lets a new document take any position in the query order.
- The handlers take the value `parseInt` produced from an input field (an integer or NaN). Parsing the text itself is not modelled.
- Coordinates are stored with `toString` and read back with `parseFloat`. The model treats that round trip as exact and does not model floating-point precision or `toFixed`.
- Controller.Page.DialogSave: the save is modelled only from the shown dialog, whose form holds the clicked point. Script that calls the handler before any map click would hand NaN coordinates to Leaflet, which throws (script.js:209); that path is not modelled.
- Controller.Page.DialogSave: numbers are doubles in JavaScript. The save runs `parseInt` again on the amount and danger the dialog already parsed (script.js:95-96, 105-106), and `parseInt` of a number reads its string form. A magnitude of 1e21 or more is printed in exponent notation and cut to its leading digit, so danger 10^21 is stored as 1. The model uses unbounded integers, treats the second parse as the identity, and stores 10^21. The same holds for `Records.NewDocument`.
- Amount and danger values in documents written by other clients are modelled as integers, NaN or missing. Non-integer numbers are not modelled.
- Clearing the street field (script.js:143) and `form.reset()` (script.js:48) are left out, because the form inputs are handler parameters rather than state.
- The dialog is always assumed to exist after start-up, so the fallback lookup of the modal element (script.js:176-185) is not modelled.
- `eliminarUbicacion`, which the popup's delete button calls, is not defined in script.js and is not part of this model.
- `scrollToTop` is left out, because it only scrolls the window.
- Each handler runs to completion. Interleavings of handlers around their `await`s are not modelled.
- Controller.Page.Load: only a failed query is a modelled error. An exception thrown while drawing inside the load's `try` block is not modelled.
