/**
 * The recommender (`Recommender`): ranks cards by the distance from the
 * current position to their nearest registered location, plus two small
 * classifiers of a distance.
 */
module Recommender {
  import opened Wrappers
  import opened Cards

  /** A card with the two fields getTopCards adds to it. */
  datatype Recommendation = Recommendation(card: Card, nearestDistance: real, nearestLocation: Location)

  /** JavaScript truthiness of a coordinate: absent and exactly 0 are falsy. */
  predicate Truthy(x: Option<real>) { x.Some? && x.value != 0.0 }

  // ---------------------------------------------------------------------
  // Filtering.

  /** `cards.filter(card => card.locations.length > 0)`. */
  function WithLocations(cards: seq<Card>): (r: seq<Card>)
    ensures forall i :: 0 <= i < |r| ==> |r[i].locations| > 0
    ensures forall c :: c in r <==> c in cards && |c.locations| > 0
    ensures |r| <= |cards|
  {
    if cards == [] then []
    else
      var rest := WithLocations(cards[1..]);
      assert cards == [cards[0]] + cards[1..];
      if |cards[0].locations| > 0 then [cards[0]] + rest else rest
  }

  /** Filtering keeps input order: it distributes over concatenation. */
  lemma {:induction false} WithLocationsConcat(xs: seq<Card>, ys: seq<Card>)
    ensures WithLocations(xs + ys) == WithLocations(xs) + WithLocations(ys)
  {
    if xs == [] {
      assert xs + ys == ys;
    } else {
      var rest := xs[1..] + ys;
      assert xs + ys == [xs[0]] + rest;
      assert ([xs[0]] + rest)[1..] == rest;
      WithLocationsConcat(xs[1..], ys);
    }
  }

  /** Each card with a location is kept as many times as it occurs; no other card is kept. */
  lemma {:induction false} WithLocationsCounts(cards: seq<Card>)
    ensures forall c :: multiset(WithLocations(cards))[c] ==
              if |c.locations| > 0 then multiset(cards)[c] else 0
  {
    if cards != [] {
      WithLocationsCounts(cards[1..]);
      assert cards == [cards[0]] + cards[1..];
    }
  }

  // ---------------------------------------------------------------------
  // Nearest location of one card.

  /** `card.locations.map(loc => dist(current, loc))`. */
  function Distances(dist: DistanceFn, lat: real, lng: real, locs: seq<Location>): (ds: seq<real>)
    ensures |ds| == |locs|
    ensures forall i :: 0 <= i < |locs| ==> ds[i] == dist(lat, lng, locs[i].lat, locs[i].lng)
  {
    seq(|locs|, i requires 0 <= i < |locs| => dist(lat, lng, locs[i].lat, locs[i].lng))
  }

  /** `Math.min(...ds)` on a non-empty list: an element no larger than any other. */
  function MinOf(ds: seq<real>): (m: real)
    requires |ds| > 0
    ensures m in ds
    ensures forall i :: 0 <= i < |ds| ==> m <= ds[i]
  {
    if |ds| == 1 then ds[0]
    else
      var rest := MinOf(ds[1..]);
      assert forall i :: 1 <= i < |ds| ==> ds[i] == ds[1..][i - 1];
      if ds[0] <= rest then ds[0] else rest
  }

  /** `ds.indexOf(x)`: the first position holding x, or -1 when there is none. */
  function IndexOf(ds: seq<real>, x: real): (i: int)
    ensures -1 <= i < |ds|
    ensures i == -1 <==> x !in ds
    ensures 0 <= i ==> ds[i] == x && forall j :: 0 <= j < i ==> ds[j] != x
  {
    if ds == [] then -1
    else if ds[0] == x then 0
    else
      var rest := IndexOf(ds[1..], x);
      assert forall j :: 1 <= j < |ds| ==> ds[j] == ds[1..][j - 1];
      if rest == -1 then -1 else rest + 1
  }

  /**
   * The entry built for one card: the smallest distance to any of its
   * locations, and the location at the first position with that distance.
   */
  function Nearest(dist: DistanceFn, lat: real, lng: real, card: Card): (e: Recommendation)
    requires |card.locations| > 0
    ensures e.card == card
  {
    var ds := Distances(dist, lat, lng, card.locations);
    var m := MinOf(ds);
    Recommendation(card, m, card.locations[IndexOf(ds, m)])
  }

  /**
   * What an entry for `card` must satisfy: its distance is that of one of the
   * card's locations and no larger than that of any, and its location is the
   * first one, in insertion order, at that distance.
   */
  ghost predicate IsNearestEntry(dist: DistanceFn, lat: real, lng: real, e: Recommendation)
  {
    var locs := e.card.locations;
    (forall j :: 0 <= j < |locs| ==> e.nearestDistance <= dist(lat, lng, locs[j].lat, locs[j].lng)) &&
    exists i :: 0 <= i < |locs| && locs[i] == e.nearestLocation &&
      dist(lat, lng, locs[i].lat, locs[i].lng) == e.nearestDistance &&
      forall j :: 0 <= j < i ==> dist(lat, lng, locs[j].lat, locs[j].lng) != e.nearestDistance
  }

  lemma NearestIsNearest(dist: DistanceFn, lat: real, lng: real, card: Card)
    requires |card.locations| > 0
    ensures IsNearestEntry(dist, lat, lng, Nearest(dist, lat, lng, card))
  {
    var ds := Distances(dist, lat, lng, card.locations);
    var m := MinOf(ds);
    var i := IndexOf(ds, m);
    assert 0 <= i && card.locations[i] == Nearest(dist, lat, lng, card).nearestLocation;
  }

  /** `cards.map(...)` building one entry per card; every card must have a location. */
  function Annotate(dist: DistanceFn, lat: real, lng: real, cards: seq<Card>): (r: seq<Recommendation>)
    requires forall i :: 0 <= i < |cards| ==> |cards[i].locations| > 0
    ensures |r| == |cards|
    ensures forall i :: 0 <= i < |r| ==> r[i] == Nearest(dist, lat, lng, cards[i])
  {
    seq(|cards|, i requires 0 <= i < |cards| => Nearest(dist, lat, lng, cards[i]))
  }

  // ---------------------------------------------------------------------
  // Stable sort by nearest distance.

  ghost predicate SortedByDistance(s: seq<Recommendation>)
  {
    forall i, j :: 0 <= i < j < |s| ==> s[i].nearestDistance <= s[j].nearestDistance
  }

  /** The entries of `s` whose distance is exactly d, in their order in `s`. */
  function WithDistance(s: seq<Recommendation>, d: real): seq<Recommendation>
  {
    if s == [] then []
    else (if s[0].nearestDistance == d then [s[0]] else []) + WithDistance(s[1..], d)
  }

  /** Places `e` before the first entry of `s` that is not strictly closer. */
  function Insert(e: Recommendation, s: seq<Recommendation>): seq<Recommendation>
  {
    if s == [] then [e]
    else if s[0].nearestDistance < e.nearestDistance then [s[0]] + Insert(e, s[1..])
    else [e] + s
  }

  /**
   * `sort((a, b) => a.nearestDistance - b.nearestDistance)` as a stable sort
   * (insertion sort from the back; each entry goes before the equal ones
   * that followed it in the input).
   */
  function StableSort(s: seq<Recommendation>): (r: seq<Recommendation>)
    ensures SortedByDistance(r)
    ensures multiset(r) == multiset(s)
  {
    if s == [] then []
    else
      var rest := StableSort(s[1..]);
      InsertSorted(s[0], rest);
      InsertElements(s[0], rest);
      assert s == [s[0]] + s[1..];
      Insert(s[0], rest)
  }

  lemma {:induction false} InsertElements(e: Recommendation, s: seq<Recommendation>)
    ensures multiset(Insert(e, s)) == multiset(s) + multiset{e}
  {
    if s != [] && s[0].nearestDistance < e.nearestDistance {
      InsertElements(e, s[1..]);
      assert s == [s[0]] + s[1..];
    }
  }

  lemma {:induction false} InsertSorted(e: Recommendation, s: seq<Recommendation>)
    requires SortedByDistance(s)
    ensures SortedByDistance(Insert(e, s))
  {
    if s != [] && s[0].nearestDistance < e.nearestDistance {
      InsertSorted(e, s[1..]);
      InsertElements(e, s[1..]);
      var t := Insert(e, s[1..]);
      forall j | 0 <= j < |t| ensures s[0].nearestDistance <= t[j].nearestDistance {
        assert t[j] in multiset(t);
        if t[j] != e {
          assert t[j] in s[1..];
        }
      }
    }
  }

  lemma {:induction false} InsertWithDistance(e: Recommendation, s: seq<Recommendation>, d: real)
    ensures WithDistance(Insert(e, s), d) ==
              (if e.nearestDistance == d then [e] else []) + WithDistance(s, d)
  {
    if s != [] && s[0].nearestDistance < e.nearestDistance {
      InsertWithDistance(e, s[1..], d);
      assert ([s[0]] + Insert(e, s[1..]))[1..] == Insert(e, s[1..]);
    } else if s != [] {
      assert ([e] + s)[1..] == s;
    }
  }

  /** Entries of equal distance leave the sort in their input order. */
  lemma {:induction false} StableSortKeepsTies(s: seq<Recommendation>)
    ensures forall d :: WithDistance(StableSort(s), d) == WithDistance(s, d)
  {
    if s != [] {
      StableSortKeepsTies(s[1..]);
      assert s == [s[0]] + s[1..];
      forall d ensures WithDistance(StableSort(s), d) == WithDistance(s, d) {
        InsertWithDistance(s[0], StableSort(s[1..]), d);
      }
    }
  }

  // ---------------------------------------------------------------------
  // getTopCards.

  /** `s.slice(0, n)`. */
  function Prefix<T>(s: seq<T>, n: nat): (r: seq<T>)
    ensures |r| == if n <= |s| then n else |s|
    ensures r == s[..|r|]
  {
    if n <= |s| then s[..n] else s
  }

  /** The ranking of every card that has a location, before the prefix is taken. */
  function Ranked(dist: DistanceFn, lat: real, lng: real, cards: seq<Card>): (r: seq<Recommendation>)
    ensures SortedByDistance(r)
    ensures multiset(r) == multiset(Annotate(dist, lat, lng, WithLocations(cards)))
  {
    StableSort(Annotate(dist, lat, lng, WithLocations(cards)))
  }

  /** getTopCards(currentLat, currentLng, cards, limit). */
  function GetTopCards(dist: DistanceFn, currentLat: Option<real>, currentLng: Option<real>,
                       cards: seq<Card>, limit: nat): (r: seq<Recommendation>)
    ensures !Truthy(currentLat) || !Truthy(currentLng) ==> r == []
    ensures |r| <= limit
    ensures SortedByDistance(r)
    ensures forall i :: 0 <= i < |r| ==> |r[i].card.locations| > 0 && r[i].card in cards
  {
    if !Truthy(currentLat) || !Truthy(currentLng) then []
    else
      var ranked := Ranked(dist, currentLat.value, currentLng.value, cards);
      RankedEntries(dist, currentLat.value, currentLng.value, cards);
      var r := Prefix(ranked, limit);
      assert forall i :: 0 <= i < |r| ==> r[i] == ranked[i] && ranked[i] in ranked;
      r
  }

  /** Every ranked entry is an input card with a location, carrying its nearest distance and location. */
  lemma RankedEntries(dist: DistanceFn, lat: real, lng: real, cards: seq<Card>)
    ensures forall e :: e in Ranked(dist, lat, lng, cards) ==>
              |e.card.locations| > 0 && e.card in cards && IsNearestEntry(dist, lat, lng, e)
  {
    var kept := WithLocations(cards);
    var entries := Annotate(dist, lat, lng, kept);
    var all := Ranked(dist, lat, lng, cards);
    forall e | e in all
      ensures |e.card.locations| > 0 && e.card in cards && IsNearestEntry(dist, lat, lng, e)
    {
      assert e in multiset(entries);
      var k :| 0 <= k < |entries| && entries[k] == e;
      NearestIsNearest(dist, lat, lng, kept[k]);
      assert kept[k] in multiset(kept);
    }
  }

  /** Every card that has a location has its entry in the ranking. */
  lemma RankedComplete(dist: DistanceFn, lat: real, lng: real, cards: seq<Card>)
    ensures forall c :: c in cards && |c.locations| > 0 ==> Nearest(dist, lat, lng, c) in Ranked(dist, lat, lng, cards)
  {
    var kept := WithLocations(cards);
    var entries := Annotate(dist, lat, lng, kept);
    var all := Ranked(dist, lat, lng, cards);
    forall c | c in cards && |c.locations| > 0
      ensures Nearest(dist, lat, lng, c) in all
    {
      var k :| 0 <= k < |kept| && kept[k] == c;
      assert entries[k] in multiset(entries);
    }
  }

  /**
   * The ranking holds exactly the entries of the cards that have a location:
   * one per such card, each an input card carrying its nearest distance and
   * first nearest location, and every such card's entry is present.
   */
  lemma RankedCorrect(dist: DistanceFn, lat: real, lng: real, cards: seq<Card>)
    ensures var all := Ranked(dist, lat, lng, cards);
            |all| == |WithLocations(cards)| &&
            (forall e :: e in all ==>
               |e.card.locations| > 0 && e.card in cards && IsNearestEntry(dist, lat, lng, e)) &&
            forall c :: c in cards && |c.locations| > 0 ==> Nearest(dist, lat, lng, c) in all
  {
    var all := Ranked(dist, lat, lng, cards);
    var entries := Annotate(dist, lat, lng, WithLocations(cards));
    assert |all| == |entries| by {
      assert |multiset(all)| == |multiset(entries)|;
    }
    RankedEntries(dist, lat, lng, cards);
    RankedComplete(dist, lat, lng, cards);
  }

  /**
   * With a position: the result holds min(limit, number of cards with
   * locations) entries; each is an input card with a location, carrying its
   * nearest distance and first nearest location; entries are in
   * non-decreasing distance order; and every ranked entry left out is at
   * least as far as every entry returned.
   */
  lemma TopCardsCorrect(dist: DistanceFn, lat: real, lng: real, cards: seq<Card>, limit: nat)
    requires lat != 0.0 && lng != 0.0
    ensures var r := GetTopCards(dist, Some(lat), Some(lng), cards, limit);
            var all := Ranked(dist, lat, lng, cards);
            var n := |WithLocations(cards)|;
            |r| == (if limit <= n then limit else n) &&
            (forall i :: 0 <= i < |r| ==>
               |r[i].card.locations| > 0 && r[i].card in cards &&
               IsNearestEntry(dist, lat, lng, r[i])) &&
            SortedByDistance(r) &&
            r == all[..|r|] &&
            (forall i, j :: 0 <= i < |r| <= j < |all| ==> r[i].nearestDistance <= all[j].nearestDistance) &&
            forall c :: c in cards && |c.locations| > 0 ==>
              Nearest(dist, lat, lng, c) in r ||
              forall i :: 0 <= i < |r| ==> r[i].nearestDistance <= Nearest(dist, lat, lng, c).nearestDistance
  {
    var r := GetTopCards(dist, Some(lat), Some(lng), cards, limit);
    var all := Ranked(dist, lat, lng, cards);
    RankedCorrect(dist, lat, lng, cards);
    assert r == all[..|r|];
    forall i | 0 <= i < |r|
      ensures |r[i].card.locations| > 0 && r[i].card in cards && IsNearestEntry(dist, lat, lng, r[i])
    {
      assert r[i] == all[i] && all[i] in all;
    }
    TopCardsLeftOut(dist, lat, lng, cards, limit);
  }

  /** A card with a location that is not returned is at least as far as every card returned. */
  lemma TopCardsLeftOut(dist: DistanceFn, lat: real, lng: real, cards: seq<Card>, limit: nat)
    requires lat != 0.0 && lng != 0.0
    ensures var r := GetTopCards(dist, Some(lat), Some(lng), cards, limit);
            forall c :: c in cards && |c.locations| > 0 ==>
              Nearest(dist, lat, lng, c) in r ||
              forall i :: 0 <= i < |r| ==> r[i].nearestDistance <= Nearest(dist, lat, lng, c).nearestDistance
  {
    var r := GetTopCards(dist, Some(lat), Some(lng), cards, limit);
    var all := Ranked(dist, lat, lng, cards);
    RankedComplete(dist, lat, lng, cards);
    assert r == all[..|r|];
    forall c | c in cards && |c.locations| > 0
      ensures Nearest(dist, lat, lng, c) in r ||
              forall i :: 0 <= i < |r| ==> r[i].nearestDistance <= Nearest(dist, lat, lng, c).nearestDistance
    {
      var j :| 0 <= j < |all| && all[j] == Nearest(dist, lat, lng, c);
      if j < |r| {
        assert r[j] == all[j];
      }
    }
  }

  /** The entries tied at one distance appear in the same order as in the filtered input. */
  lemma RankedIsStable(dist: DistanceFn, lat: real, lng: real, cards: seq<Card>, d: real)
    ensures WithDistance(Ranked(dist, lat, lng, cards), d) ==
            WithDistance(Annotate(dist, lat, lng, WithLocations(cards)), d)
  {
    StableSortKeepsTies(Annotate(dist, lat, lng, WithLocations(cards)));
  }

  // ---------------------------------------------------------------------
  // Classifiers.

  /** isNearby: within 300 m, inclusive. */
  function IsNearby(distance: real): (near: bool)
    ensures near ==> CalculateScore(distance) >= 70
    ensures !near ==> CalculateScore(distance) <= 70
  {
    distance <= 300.0
  }

  /** `Math.round(x)`: the nearest integer, halves rounded up. */
  function Round(x: real): (n: int)
    ensures n as real - 0.5 <= x < n as real + 0.5
  {
    (x + 0.5).Floor
  }

  /** calculateScore: 100 up to 100 m, 0 from 1 km on, `round(100 - d/10)` between. */
  function CalculateScore(distance: real): (score: int)
    ensures 0 <= score <= 100
    ensures distance <= 100.0 ==> score == 100
    ensures distance >= 1000.0 ==> score == 0
    ensures 100.0 < distance < 1000.0 ==>
              score as real - 0.5 <= 100.0 - distance / 10.0 < score as real + 0.5
  {
    if distance <= 100.0 then 100
    else if distance >= 1000.0 then 0
    else Round(100.0 - distance / 10.0)
  }

  /** A farther distance never scores higher. */
  lemma ScoreNonIncreasing(d1: real, d2: real)
    requires d1 <= d2
    ensures CalculateScore(d1) >= CalculateScore(d2)
  {
  }

  lemma ScoreExamples()
    ensures CalculateScore(100.0) == 100 && CalculateScore(1000.0) == 0
    ensures CalculateScore(500.0) == 50 && CalculateScore(550.0) == 45
    ensures CalculateScore(555.0) == 45
  {
  }
}
