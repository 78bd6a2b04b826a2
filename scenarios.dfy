/** Worked examples of the store and the recommender, stated over any distance function with the given readings. */
module Scenarios {
  import opened Wrappers
  import opened Cards
  import opened CardStore
  import opened Recommender

  /**
   * The flow of saving a card and then registering places on it: a new card
   * starts with no locations; its first place gets the default name
   * "地点1"; a point about 1.5 m from it is dropped; a point about 1.4 km
   * away is appended as "地点2"; and the list stays well spaced.
   */
  method SaveCardThenAddPlaces(dist: DistanceFn, image: string, now: Timestamp)
    returns (card: Card)
    requires dist(35.0, 139.0, 35.00001, 139.00001) < DedupRadius
    requires dist(35.0, 139.0, 35.01, 139.01) >= DedupRadius
    ensures card.name == "カード" && card.image == image && card.updatedAt == now
    ensures |card.locations| == 2
    ensures card.locations[0] == Location(35.0, 139.0, DefaultName(1), now)
    ensures card.locations[1] == Location(35.01, 139.01, DefaultName(2), now)
    ensures card.locations[0].name == "地点1" && card.locations[1].name == "地点2"
    ensures WellSpaced(dist, card.locations)
  {
    var db := new CardDB(dist);
    var id := db.AddCard(CardDraft("カード", image, []), now);
    var r1 := db.AddLocationToCard(id, LocationInput(35.0, 139.0, None), now);
    assert r1.Ok? && |r1.value.locations| == 1;
    var r2 := db.AddLocationToCard(id, LocationInput(35.00001, 139.00001, Some("")), now);
    assert IsDuplicate(dist, r1.value.locations, 35.00001, 139.00001) by {
      assert Near(dist, r1.value.locations[0], 35.00001, 139.00001);
    }
    var r3 := db.AddLocationToCard(id, LocationInput(35.01, 139.01, None), now);
    assert !IsDuplicate(dist, r1.value.locations, 35.01, 139.01);
    card := r3.value;
  }

  /** A card with a single place is ranked by the distance to that place. */
  lemma OnePlaceNearest(dist: DistanceFn, lat: real, lng: real, c: Card)
    requires |c.locations| == 1
    ensures Nearest(dist, lat, lng, c) == Entry(c, Dist(dist, lat, lng, c))
  {
    var ds := Distances(dist, lat, lng, c.locations);
    assert ds == [Dist(dist, lat, lng, c)];
  }

  /** The distance from the position to the first place of `c`. */
  function Dist(dist: DistanceFn, lat: real, lng: real, c: Card): real
    requires |c.locations| > 0
  {
    dist(lat, lng, c.locations[0].lat, c.locations[0].lng)
  }

  /** The entry of a card ranked by its first place at distance d. */
  function Entry(c: Card, d: real): Recommendation
    requires |c.locations| > 0
  {
    Recommendation(c, d, c.locations[0])
  }

  lemma {:induction false} AllPlacedKept(cards: seq<Card>)
    requires forall i :: 0 <= i < |cards| ==> |cards[i].locations| > 0
    ensures WithLocations(cards) == cards
  {
    if cards != [] {
      AllPlacedKept(cards[1..]);
      assert [cards[0]] + cards[1..] == cards;
    }
  }

  lemma SortThree(e1: Recommendation, e2: Recommendation, e3: Recommendation)
    requires e1.nearestDistance == 50.0 && e2.nearestDistance == 2000.0 && e3.nearestDistance == 300.0
    ensures StableSort([e1, e2, e3]) == [e1, e3, e2]
  {
    assert [e1, e2, e3][1..] == [e2, e3] && [e2, e3][1..] == [e3];
    assert [e3][1..] == [];
    assert StableSort([e3]) == [e3];
    assert Insert(e2, [e3]) == [e3] + Insert(e2, []);
    assert StableSort([e2, e3]) == [e3, e2];
    assert Insert(e1, [e3, e2]) == [e1, e3, e2];
  }

  /**
   * Three cards, each with one place, 50 m, 2000 m and 300 m from the
   * position: with a limit of 2 the 50 m card comes first and the 300 m card
   * second.
   */
  lemma TopTwoOfThree(dist: DistanceFn, lat: real, lng: real, c1: Card, c2: Card, c3: Card)
    requires lat != 0.0 && lng != 0.0
    requires |c1.locations| == 1 && |c2.locations| == 1 && |c3.locations| == 1
    requires Dist(dist, lat, lng, c1) == 50.0
    requires Dist(dist, lat, lng, c2) == 2000.0
    requires Dist(dist, lat, lng, c3) == 300.0
    ensures var r := GetTopCards(dist, Some(lat), Some(lng), [c1, c2, c3], 2);
            |r| == 2 && r[0].card == c1 && r[0].nearestDistance == 50.0 &&
            r[1].card == c3 && r[1].nearestDistance == 300.0
  {
    var cs := [c1, c2, c3];
    AllPlacedKept(cs);
    OnePlaceNearest(dist, lat, lng, c1);
    OnePlaceNearest(dist, lat, lng, c2);
    OnePlaceNearest(dist, lat, lng, c3);
    var a := Annotate(dist, lat, lng, cs);
    assert a == [Entry(c1, 50.0), Entry(c2, 2000.0), Entry(c3, 300.0)];
    SortThree(Entry(c1, 50.0), Entry(c2, 2000.0), Entry(c3, 300.0));
    assert Ranked(dist, lat, lng, cs) == [Entry(c1, 50.0), Entry(c3, 300.0), Entry(c2, 2000.0)];
  }
}
