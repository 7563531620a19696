/** How a location's danger level is presented: the five-tier marker colour
 *  and emoji, the five-tier list badge colour, and the independent
 *  three-way severity bucket of the list card.
 */
module Presentation {

  /** Marker background colours for danger levels 1 to 5. */
  const MarkerColours: seq<string> := ["#198754", "#ffc107", "#fd7e14", "#ff6b00", "#dc3545"]
  const DefaultMarkerColour: string := "#1976D2"

  /** Marker emojis for danger levels 1 to 5: green, yellow, orange, orange, red circles. */
  const MarkerEmojis: seq<string> := ["\U{1F7E2}", "\U{1F7E1}", "\U{1F7E0}", "\U{1F7E0}", "\U{1F534}"]
  /** The round pushpin. */
  const DefaultMarkerEmoji: string := "\U{1F4CD}"

  /** Bootstrap contextual colours of the list badge and title for levels 1 to 5. */
  const BadgeColours: seq<string> := ["success", "warning", "warning", "danger", "danger"]
  const DefaultBadgeColour: string := "primary"

  /** The levels that index the five-entry tables. */
  predicate InTier(danger: int) {
    1 <= danger <= 5
  }

  /** `table[danger - 1] || fallback`: an index outside the table reads
   *  undefined, and an empty entry would be falsy as well. */
  function Lookup(table: seq<string>, danger: int, fallback: string): string {
    if 1 <= danger <= |table| && table[danger - 1] != "" then table[danger - 1] else fallback
  }

  /** A lookup yields an entry of the table or the fallback: the entry of
   *  the level when it exists and is non-empty, the fallback when the
   *  level is outside the table. */
  lemma LookupYields(table: seq<string>, danger: int, fallback: string)
    ensures Lookup(table, danger, fallback) in table || Lookup(table, danger, fallback) == fallback
    ensures 1 <= danger <= |table| && table[danger - 1] != "" ==> Lookup(table, danger, fallback) == table[danger - 1]
    ensures !(1 <= danger <= |table|) ==> Lookup(table, danger, fallback) == fallback
  {
  }

  /** The marker colour: the table entry for levels 1 to 5, and the default
   *  blue for every other level, which no tier uses. */
  function MarkerColour(danger: int): (c: string)
    ensures InTier(danger) ==> c == MarkerColours[danger - 1]
    ensures c == DefaultMarkerColour <==> !InTier(danger)
  {
    Lookup(MarkerColours, danger, DefaultMarkerColour)
  }

  /** The marker emoji: the table entry for levels 1 to 5, the pushpin
   *  exactly for every other level. */
  function MarkerEmoji(danger: int): (e: string)
    ensures InTier(danger) ==> e == MarkerEmojis[danger - 1]
    ensures e == DefaultMarkerEmoji <==> !InTier(danger)
  {
    Lookup(MarkerEmojis, danger, DefaultMarkerEmoji)
  }

  /** The badge and title colour: the table entry for levels 1 to 5,
   *  `primary` exactly for every other level. */
  function BadgeColour(danger: int): (b: string)
    ensures InTier(danger) ==> b == BadgeColours[danger - 1]
    ensures b == DefaultBadgeColour <==> !InTier(danger)
  {
    Lookup(BadgeColours, danger, DefaultBadgeColour)
  }

  /** The five marker colours are pairwise distinct, so a marker's colour
   *  tells its level whenever the level is in range. */
  lemma MarkerColourIdentifiesLevel(a: int, b: int)
    requires MarkerColour(a) == MarkerColour(b)
    ensures a == b || (!InTier(a) && !InTier(b))
  {
    if InTier(a) && InTier(b) {
      assert MarkerColours[a - 1] == MarkerColours[b - 1];
    }
  }

  /** The emoji is coarser than the colour: levels 3 and 4 share the orange
   *  circle but not the colour; every other pair of levels differs. */
  lemma MarkerEmojiMergesThreeAndFour(a: int, b: int)
    requires InTier(a) && InTier(b)
    ensures MarkerEmoji(a) == MarkerEmoji(b) <==> (a == b || {a, b} == {3, 4})
  {
    assert MarkerEmoji(a) == MarkerEmojis[a - 1] && MarkerEmoji(b) == MarkerEmojis[b - 1];
  }

  /** The three-way bucket of the list card's `danger-*` class. */
  datatype Severity = Low | Medium | High

  /** The bucket: high from 4 up, medium from 2 up, low below (including 0
   *  and negative levels); it does not look at the five-entry tables. */
  function SeverityOf(danger: int): (s: Severity)
    ensures s == High <==> danger >= 4
    ensures s == Medium <==> 2 <= danger < 4
    ensures s == Low <==> danger < 2
  {
    if danger >= 4 then High else if danger >= 2 then Medium else Low
  }

  /** The order of the buckets. */
  function Rank(s: Severity): nat {
    match s
    case Low => 0
    case Medium => 1
    case High => 2
  }

  /** The CSS class suffix of a bucket. */
  function SeverityName(s: Severity): string {
    match s
    case Low => "low"
    case Medium => "medium"
    case High => "high"
  }

  /** The class the list card carries. */
  function DangerClass(danger: int): string {
    "danger-" + SeverityName(SeverityOf(danger))
  }

  /** The card's class is `danger-high` exactly from level 4 up,
   *  `danger-medium` exactly for levels 2 and 3, and `danger-low` exactly
   *  below 2. */
  lemma DangerClassBuckets(danger: int)
    ensures DangerClass(danger) == "danger-high" <==> danger >= 4
    ensures DangerClass(danger) == "danger-medium" <==> 2 <= danger < 4
    ensures DangerClass(danger) == "danger-low" <==> danger < 2
  {
  }

  /** A higher level never lands in a lower bucket. */
  lemma SeverityMonotone(a: int, b: int)
    requires a <= b
    ensures Rank(SeverityOf(a)) <= Rank(SeverityOf(b))
  {
  }

  /** The bucket a badge colour suggests, for the three colours the table uses. */
  function SeverityOfBadge(b: string): Severity {
    if b == "success" then Low else if b == "warning" then Medium else High
  }

  /** Inside levels 1 to 5 the badge colour and the bucket agree:
   *  success is low, warning is medium, danger is high. */
  lemma BadgeAgreesWithSeverityInTier(danger: int)
    requires InTier(danger)
    ensures SeverityOf(danger) == SeverityOfBadge(BadgeColour(danger))
  {
  }

  /** Outside levels 1 to 5 the two taxonomies part: every such level gets
   *  the `primary` badge, yet those below 1 are low and those above 5 high. */
  lemma BadgeFallbackSpansSeverities(danger: int)
    requires !InTier(danger)
    ensures BadgeColour(danger) == DefaultBadgeColour
    ensures SeverityOf(danger) == (if danger < 1 then Low else High)
  {
  }

  /** The badge does not follow the emoji: within levels 1 to 5, two levels
   *  that share an emoji share the badge only when they are the same level.
   *  Levels 3 and 4 show the same orange circle, but their badges are
   *  warning and danger. */
  lemma SharedEmojiSplitsBadge(a: int, b: int)
    requires InTier(a) && InTier(b)
    requires MarkerEmoji(a) == MarkerEmoji(b)
    ensures BadgeColour(a) == BadgeColour(b) <==> a == b
  {
    MarkerEmojiMergesThreeAndFour(a, b);
    if a != b {
      assert {a, b} == {3, 4};
      assert a in {3, 4} && b in {3, 4};
    }
  }
}
