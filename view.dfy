/** What the renderer produces for a location: a map marker carrying the
 *  location's id, and a list card whose element id is `item-<id>`. Only
 *  the identifiers and the classes that encode the danger rules are kept.
 */
module View {
  import opened Js
  import opened Records
  import opened Presentation

  /** A marker on the map: its position, the `id` property the script sets
   *  on it, and the colour and emoji of its icon. */
  datatype Marker = Marker(id: DocId, lat: Coord, lng: Coord, colour: string, emoji: string)

  /** A child of the locations container: the "no locations" paragraph, or
   *  a location card with its element id, its severity class, the title's
   *  text colour class, the badge's background class, and the location shown. */
  datatype ListNode =
    | Placeholder
    | Item(domId: string, dangerClass: string, textClass: string, badgeClass: string, loc: Location)

  /** The element id of a location's card. */
  function ItemDomId(id: DocId): string {
    "item-" + id
  }

  /** Distinct locations get distinct card ids, so a card id names one location. */
  lemma ItemDomIdInjective(a: DocId, b: DocId)
    requires ItemDomId(a) == ItemDomId(b)
    ensures a == b
  {
    assert a == ItemDomId(a)[5..];
    assert b == ItemDomId(b)[5..];
  }

  /** The marker drawn for a location. */
  function MarkerFor(loc: Location): Marker {
    Marker(loc.id, loc.lat, loc.lng, MarkerColour(loc.danger), MarkerEmoji(loc.danger))
  }

  /** The card listed for a location. */
  function ItemFor(loc: Location): ListNode {
    var b := BadgeColour(loc.danger);
    Item(ItemDomId(loc.id), DangerClass(loc.danger), "text-" + b, "bg-" + b, loc)
  }

  /** The marker drawn for a location sits at its coordinates, is tagged
   *  with its id, and shows the colour and emoji of its level, or the blue
   *  pushpin for a level outside 1 to 5. */
  lemma MarkerShows(loc: Location)
    ensures MarkerFor(loc).id == loc.id && MarkerFor(loc).lat == loc.lat && MarkerFor(loc).lng == loc.lng
    ensures InTier(loc.danger) ==>
              MarkerFor(loc).colour == MarkerColours[loc.danger - 1] && MarkerFor(loc).emoji == MarkerEmojis[loc.danger - 1]
    ensures !InTier(loc.danger) ==>
              MarkerFor(loc).colour == DefaultMarkerColour && MarkerFor(loc).emoji == DefaultMarkerEmoji
  {
  }

  /** The card listed for a location shows that location under the element
   *  id `item-<id>`, carries the severity class of its level, and has its
   *  title and badge in the badge colour of its level, or `primary` for a
   *  level outside 1 to 5. */
  lemma CardShows(loc: Location)
    ensures ItemFor(loc).Item? && ItemFor(loc).loc == loc && ItemFor(loc).domId == "item-" + loc.id
    ensures ItemFor(loc).dangerClass == "danger-high" <==> loc.danger >= 4
    ensures ItemFor(loc).dangerClass == "danger-medium" <==> 2 <= loc.danger < 4
    ensures ItemFor(loc).dangerClass == "danger-low" <==> loc.danger < 2
    ensures InTier(loc.danger) ==>
              ItemFor(loc).textClass == "text-" + BadgeColours[loc.danger - 1] &&
              ItemFor(loc).badgeClass == "bg-" + BadgeColours[loc.danger - 1]
    ensures !InTier(loc.danger) ==> ItemFor(loc).textClass == "text-primary" && ItemFor(loc).badgeClass == "bg-primary"
  {
  }

  /** The markers drawn for `locs`, in drawing order. */
  function MarkersFor(locs: seq<Location>): (ms: seq<Marker>)
    ensures |ms| == |locs|
  {
    if locs == [] then [] else MarkersFor(locs[..|locs| - 1]) + [MarkerFor(locs[|locs| - 1])]
  }

  /** The cards that prepending one card per location in `locs` leaves in
   *  front of the container: the last location first. */
  function NewestFirst(locs: seq<Location>): (ns: seq<ListNode>)
    ensures |ns| == |locs|
  {
    if locs == [] then [] else [ItemFor(locs[|locs| - 1])] + NewestFirst(locs[..|locs| - 1])
  }

  /** The k-th marker is the k-th location's, and the card of that location
   *  sits at the mirrored position, carrying the marker's id: the list is
   *  the registry in reverse. */
  lemma {:induction false} MarkerAndItemCorrelated(locs: seq<Location>, k: int)
    requires 0 <= k < |locs|
    ensures MarkersFor(locs)[k] == MarkerFor(locs[k])
    ensures NewestFirst(locs)[|locs| - 1 - k] == ItemFor(locs[k])
    ensures NewestFirst(locs)[|locs| - 1 - k].domId == ItemDomId(MarkersFor(locs)[k].id)
  {
    if k < |locs| - 1 {
      var init := locs[..|locs| - 1];
      MarkerAndItemCorrelated(init, k);
      assert init[k] == locs[k];
    }
  }

  /** One location draws one marker and lists one card. */
  lemma DrawOne(loc: Location)
    ensures MarkersFor([loc]) == [MarkerFor(loc)]
    ensures NewestFirst([loc]) == [ItemFor(loc)]
  {
    assert [loc][..0] == [];
  }

  /** Drawing one more location appends its marker. */
  lemma MarkersForSnoc(locs: seq<Location>, loc: Location)
    ensures MarkersFor(locs + [loc]) == MarkersFor(locs) + [MarkerFor(loc)]
  {
    assert (locs + [loc])[..|locs|] == locs;
  }

  /** Listing one more location puts its card in front. */
  lemma NewestFirstSnoc(locs: seq<Location>, loc: Location)
    ensures NewestFirst(locs + [loc]) == [ItemFor(loc)] + NewestFirst(locs)
  {
    assert (locs + [loc])[..|locs|] == locs;
  }

  /** The container shows the cards of `locs`, the most recently drawn
   *  first, followed at most by the "no locations" paragraph a load of an
   *  empty collection left. */
  predicate ListShows(list: seq<ListNode>, locs: seq<Location>) {
    list == NewestFirst(locs) || list == NewestFirst(locs) + [Placeholder]
  }

  /** Prepending the card of one more drawn location keeps the container in step. */
  lemma ListShowsSnoc(list: seq<ListNode>, locs: seq<Location>, loc: Location)
    requires ListShows(list, locs)
    ensures ListShows([ItemFor(loc)] + list, locs + [loc])
  {
    NewestFirstSnoc(locs, loc);
    if list != NewestFirst(locs) {
      assert [ItemFor(loc)] + list == ([ItemFor(loc)] + NewestFirst(locs)) + [Placeholder];
    }
  }

  /** Drawing `a` then `b` draws the markers of `a`, then those of `b`. */
  lemma {:induction false} MarkersForAppend(a: seq<Location>, b: seq<Location>)
    ensures MarkersFor(a + b) == MarkersFor(a) + MarkersFor(b)
  {
    if b == [] {
      assert a + b == a;
    } else {
      var init, last := b[..|b| - 1], b[|b| - 1];
      assert a + b == (a + init) + [last];
      assert init + [last] == b;
      calc {
        MarkersFor(a + b);
        { MarkersForSnoc(a + init, last); }
        MarkersFor(a + init) + [MarkerFor(last)];
        { MarkersForAppend(a, init); }
        (MarkersFor(a) + MarkersFor(init)) + [MarkerFor(last)];
        MarkersFor(a) + (MarkersFor(init) + [MarkerFor(last)]);
        { MarkersForSnoc(init, last); }
        MarkersFor(a) + MarkersFor(b);
      }
    }
  }

  /** Prepending the cards of `a`, then those of `b`, leaves the cards of
   *  `b` (the last one first) in front of those of `a`. */
  lemma {:induction false} NewestFirstAppend(a: seq<Location>, b: seq<Location>)
    ensures NewestFirst(a + b) == NewestFirst(b) + NewestFirst(a)
  {
    if b == [] {
      assert a + b == a;
    } else {
      var init, last := b[..|b| - 1], b[|b| - 1];
      assert a + b == (a + init) + [last];
      assert init + [last] == b;
      calc {
        NewestFirst(a + b);
        { NewestFirstSnoc(a + init, last); }
        [ItemFor(last)] + NewestFirst(a + init);
        { NewestFirstAppend(a, init); }
        [ItemFor(last)] + (NewestFirst(init) + NewestFirst(a));
        ([ItemFor(last)] + NewestFirst(init)) + NewestFirst(a);
        { NewestFirstSnoc(init, last); }
        NewestFirst(b) + NewestFirst(a);
      }
    }
  }

  /** The identifiers the markers `ms` carry. */
  function MarkerIds(ms: seq<Marker>): set<DocId> {
    if ms == [] then {} else MarkerIds(ms[..|ms| - 1]) + {ms[|ms| - 1].id}
  }

  /** The markers drawn for some locations carry exactly those locations' ids. */
  lemma {:induction false} MarkerIdsFor(locs: seq<Location>)
    ensures MarkerIds(MarkersFor(locs)) == LocIds(locs)
  {
    if locs != [] {
      var init := locs[..|locs| - 1];
      MarkerIdsFor(init);
      MarkersForSnoc(init, locs[|locs| - 1]);
      assert init + [locs[|locs| - 1]] == locs;
      assert MarkersFor(locs)[..|locs| - 1] == MarkersFor(init);
    }
  }

  /** An id outside `MarkerIds(ms)` is carried by no marker of `ms`. */
  lemma {:induction false} MarkerIdsAbsent(ms: seq<Marker>, id: DocId)
    requires id !in MarkerIds(ms)
    ensures forall k :: 0 <= k < |ms| ==> ms[k].id != id
  {
    if ms != [] {
      var init := ms[..|ms| - 1];
      MarkerIdsAbsent(init, id);
      assert forall k :: 0 <= k < |init| ==> init[k] == ms[k];
    }
  }

  /** The marker and the card of a danger-3 location: the orange circle
   *  on the orange marker, the medium card, and warning text and badge. */
  lemma DangerThreeLook(loc: Location)
    requires loc.danger == 3
    ensures MarkerFor(loc).colour == "#fd7e14" && MarkerFor(loc).emoji == "\U{1F7E0}"
    ensures ItemFor(loc) == Item(ItemDomId(loc.id), "danger-medium", "text-warning", "bg-warning", loc)
  {
  }
}
