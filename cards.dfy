/**
 * Cards and their location lists: the values the card store keeps, and the
 * pure list logic that `addLocationToCard` and `removeLocationFromCard`
 * apply to one card (deduplication by distance, default names, splice).
 */
module Cards {
  import opened Wrappers

  /** An ISO-8601 string from `new Date().toISOString()`; never interpreted. */
  type Timestamp = string

  /**
   * Great-circle distance in meters from (lat1, lng1) to (lat2, lng2).
   * The haversine itself is not modelled: every operation takes the
   * distance as a parameter, so every result here holds for any distance
   * function whatsoever.
   */
  type DistanceFn = (real, real, real, real) -> real

  /** Two points strictly closer than this are the same place. */
  const DedupRadius: real := 50.0

  /** The label every default location name starts with ("地点", "place"). */
  const DefaultPrefix: string := "地点"

  datatype Location = Location(lat: real, lng: real, name: string, addedAt: Timestamp)

  /** The `location` argument of addLocationToCard; its `name` may be absent. */
  datatype LocationInput = LocationInput(lat: real, lng: real, name: Option<string>)

  /** A stored card record: the caller's fields plus the key and the two stamps. */
  datatype Card = Card(
    id: nat,
    name: string,
    image: string,
    locations: seq<Location>,
    createdAt: Timestamp,
    updatedAt: Timestamp)

  /** What a caller hands to addCard: a card without key or stamps. */
  datatype CardDraft = CardDraft(name: string, image: string, locations: seq<Location>)

  // ---------------------------------------------------------------------
  // Decimal rendering of a count, as in the template literal `${n}`.

  predicate IsDigit(c: char) { '0' <= c <= '9' }

  function DigitChar(d: nat): (c: char)
    requires d < 10
    ensures IsDigit(c) && c as int - '0' as int == d
  {
    (d + '0' as int) as char
  }

  /** The shortest decimal numeral of `n`. */
  function Decimal(n: nat): (s: string)
    ensures |s| >= 1 && forall i :: 0 <= i < |s| ==> IsDigit(s[i])
    ensures n > 0 ==> s[0] != '0'
    decreases n
  {
    if n < 10 then [DigitChar(n)] else Decimal(n / 10) + [DigitChar(n % 10)]
  }

  /** The value of a string of decimal digits (most significant first). */
  function ParseDecimal(s: string): nat
    requires forall i :: 0 <= i < |s| ==> IsDigit(s[i])
  {
    if s == [] then 0
    else
      assert IsDigit(s[|s| - 1]);
      ParseDecimal(s[..|s| - 1]) * 10 + (s[|s| - 1] as int - '0' as int)
  }

  /** Reading back the rendered numeral gives the number. */
  lemma {:induction false} DecimalRoundTrip(n: nat)
    ensures ParseDecimal(Decimal(n)) == n
    decreases n
  {
    var s := Decimal(n);
    if n < 10 {
      assert s[..|s| - 1] == [];
    } else {
      assert s[..|s| - 1] == Decimal(n / 10);
      DecimalRoundTrip(n / 10);
    }
  }

  /** Different counts are rendered differently. */
  lemma DecimalInjective(m: nat, n: nat)
    requires Decimal(m) == Decimal(n)
    ensures m == n
  {
    DecimalRoundTrip(m);
    DecimalRoundTrip(n);
  }

  // ---------------------------------------------------------------------
  // Location names.

  /** The name given to the n-th location of a card when none is supplied. */
  function DefaultName(n: nat): (s: string)
    ensures |s| > |DefaultPrefix| && s[..|DefaultPrefix|] == DefaultPrefix
    ensures forall i :: |DefaultPrefix| <= i < |s| ==> IsDigit(s[i])
    ensures n > 0 ==> s[|DefaultPrefix|] != '0'
  {
    DefaultPrefix + Decimal(n)
  }

  /** A default name records its position: the digits after the prefix read back as n. */
  lemma DefaultNameNumber(n: nat)
    ensures ParseDecimal(DefaultName(n)[|DefaultPrefix|..]) == n
  {
    assert DefaultName(n)[|DefaultPrefix|..] == Decimal(n);
    DecimalRoundTrip(n);
  }

  /** JavaScript truthiness of an optional name: absent and "" are falsy. */
  predicate NameGiven(name: Option<string>) { name.Some? && name.value != "" }

  /**
   * The entry pushed for `input` onto a list that currently holds `count`
   * locations: the given name when it is truthy, else the default name
   * for position count + 1.
   */
  function NewLocation(input: LocationInput, count: nat, now: Timestamp): (loc: Location)
    ensures loc.lat == input.lat && loc.lng == input.lng && loc.addedAt == now
    ensures NameGiven(input.name) ==> loc.name == input.name.value
    ensures !NameGiven(input.name) ==>
              |loc.name| > |DefaultPrefix| && loc.name[..|DefaultPrefix|] == DefaultPrefix &&
              (forall i :: |DefaultPrefix| <= i < |loc.name| ==> IsDigit(loc.name[i])) &&
              loc.name[|DefaultPrefix|] != '0' &&
              ParseDecimal(loc.name[|DefaultPrefix|..]) == count + 1
  {
    DefaultNameNumber(count + 1);
    Location(input.lat, input.lng,
             if NameGiven(input.name) then input.name.value else DefaultName(count + 1),
             now)
  }

  // ---------------------------------------------------------------------
  // Deduplication by distance.

  /** `a` lies strictly inside the dedup radius of the point (lat, lng). */
  predicate Near(dist: DistanceFn, a: Location, lat: real, lng: real)
  {
    dist(a.lat, a.lng, lat, lng) < DedupRadius
  }

  /**
   * `locations.some(loc => dist(loc, point) < 50)`, evaluated front to back.
   * It holds exactly when some existing entry is near the point.
   */
  function IsDuplicate(dist: DistanceFn, locs: seq<Location>, lat: real, lng: real): (dup: bool)
    ensures dup <==> exists k :: 0 <= k < |locs| && Near(dist, locs[k], lat, lng)
  {
    if locs == [] then false
    else if Near(dist, locs[0], lat, lng) then true
    else
      var dupRest := IsDuplicate(dist, locs[1..], lat, lng);
      assert forall k :: 1 <= k < |locs| ==> locs[k] == locs[1..][k - 1];
      dupRest
  }

  /**
   * The invariant deduplication maintains: every entry is at least the dedup
   * radius away (measured from the earlier entry to the later one, the
   * direction in which addLocationToCard measures) from every later entry.
   */
  ghost predicate WellSpaced(dist: DistanceFn, locs: seq<Location>)
  {
    forall i, j :: 0 <= i < j < |locs| ==> !Near(dist, locs[i], locs[j].lat, locs[j].lng)
  }

  /** Appending a point that is not a duplicate keeps the list well spaced. */
  lemma AppendKeepsSpacing(dist: DistanceFn, locs: seq<Location>, loc: Location)
    requires WellSpaced(dist, locs)
    requires !IsDuplicate(dist, locs, loc.lat, loc.lng)
    ensures WellSpaced(dist, locs + [loc])
  {
    var t := locs + [loc];
    forall i, j | 0 <= i < j < |t|
      ensures !Near(dist, t[i], t[j].lat, t[j].lng)
    {
      if j == |locs| {
        assert t[i] == locs[i];
      } else {
        assert t[i] == locs[i] && t[j] == locs[j];
      }
    }
  }

  /** `s.splice(i, 1)`: entry i is removed and every later entry moves down by one. */
  function Splice<T>(s: seq<T>, i: nat): (r: seq<T>)
    requires i < |s|
    ensures |r| == |s| - 1
    ensures forall k :: 0 <= k < i ==> r[k] == s[k]
    ensures forall k :: i <= k < |r| ==> r[k] == s[k + 1]
  {
    s[..i] + s[i + 1..]
  }

  /** The spliced list is the old one without exactly one occurrence of the removed entry. */
  lemma SpliceRemovesOne<T>(s: seq<T>, i: nat)
    requires i < |s|
    ensures multiset(Splice(s, i)) + multiset{s[i]} == multiset(s)
  {
    assert s == s[..i] + [s[i]] + s[i + 1..];
  }

  /** Removing an entry keeps the list well spaced: what is left is a subsequence. */
  lemma SpliceKeepsSpacing(dist: DistanceFn, locs: seq<Location>, i: nat)
    requires i < |locs|
    requires WellSpaced(dist, locs)
    ensures WellSpaced(dist, Splice(locs, i))
  {
    var r := Splice(locs, i);
    forall a, b | 0 <= a < b < |r|
      ensures !Near(dist, r[a], r[b].lat, r[b].lng)
    {
      var a' := if a < i then a else a + 1;
      var b' := if b < i then b else b + 1;
      assert r[a] == locs[a'] && r[b] == locs[b'] && a' < b';
    }
  }
}
