/**
 * The card store (`CardDB`): an IndexedDB object store keyed by `id` with an
 * auto-increment key generator, modelled as a map from key to card plus the
 * generator's current number.
 */
module CardStore {
  import opened Wrappers
  import opened Cards

  /** The only error the store raises itself: `new Error('Card not found')`. */
  datatype DbError = CardNotFound

  /**
   * The records of `records` whose keys lie below `bound`, in ascending key
   * order: the order in which an object store's getAll returns records.
   */
  function InKeyOrder(records: map<nat, Card>, bound: nat): (s: seq<Card>)
    requires forall k :: k in records ==> records[k].id == k
    ensures forall i :: 0 <= i < |s| ==> s[i].id < bound && s[i].id in records && records[s[i].id] == s[i]
    ensures forall i, j :: 0 <= i < j < |s| ==> s[i].id < s[j].id
    ensures forall k :: k in records && k < bound ==> records[k] in s
    decreases bound
  {
    if bound == 0 then []
    else
      var below := InKeyOrder(records, bound - 1);
      if bound - 1 in records then below + [records[bound - 1]] else below
  }

  class CardDB {
    /** The distance function used by the dedup check (`GPS.calculateDistance`). */
    const dist: DistanceFn

    /** The object store's records, by key. */
    var cards: map<nat, Card>

    /** The key generator's current number: the key the next add receives. */
    var nextKey: nat

    /** Every key ever stored, including keys of records since deleted. */
    ghost var usedKeys: set<nat>

    /** How many write requests (add, put, delete) have reached the object store. */
    ghost var writes: nat

    ghost predicate Valid()
      reads this
    {
      1 <= nextKey &&
      cards.Keys <= usedKeys &&
      (forall k :: k in usedKeys ==> k < nextKey) &&
      (forall k :: k in cards ==> cards[k].id == k)
    }

    /** An empty store whose key generator starts at 1. */
    constructor (dist: DistanceFn)
      ensures Valid()
      ensures this.dist == dist && cards == map[] && nextKey == 1
      ensures usedKeys == {} && writes == 0
    {
      this.dist := dist;
      cards := map[];
      nextKey := 1;
      usedKeys := {};
      writes := 0;
    }

    /**
     * addCard: stores the draft with both stamps set to `now` under a key the
     * generator has never handed out, and returns that key.
     */
    method AddCard(draft: CardDraft, now: Timestamp) returns (id: nat)
      requires Valid()
      modifies this
      ensures Valid()
      ensures id !in old(usedKeys) && id !in old(cards)
      ensures id == old(nextKey) && nextKey == id + 1
      ensures cards == old(cards)[id := Card(id, draft.name, draft.image, draft.locations, now, now)]
      ensures usedKeys == old(usedKeys) + {id}
      ensures writes == old(writes) + 1
    {
      id := nextKey;
      cards := cards[id := Card(id, draft.name, draft.image, draft.locations, now, now)];
      nextKey := nextKey + 1;
      usedKeys := usedKeys + {id};
      writes := writes + 1;
    }

    /** getCard: the stored record, or absent for an unknown key. */
    method GetCard(id: nat) returns (r: Option<Card>)
      ensures id in cards ==> r == Some(cards[id])
      ensures id !in cards ==> r == None
    {
      if id in cards {
        r := Some(cards[id]);
      } else {
        r := None;
      }
    }

    /** getAllCards: every stored record exactly once, in ascending key order. */
    method GetAllCards() returns (all: seq<Card>)
      requires Valid()
      ensures forall i :: 0 <= i < |all| ==> all[i].id in cards && cards[all[i].id] == all[i]
      ensures forall i, j :: 0 <= i < j < |all| ==> all[i].id < all[j].id
      ensures forall k :: k in cards ==> cards[k] in all
    {
      all := InKeyOrder(cards, nextKey);
    }

    /**
     * updateCard: stamps `updatedAt` with `now` and puts the card under its
     * own key, inserting or overwriting; returns the key. An explicit key at
     * or above the generator's number moves the generator past it.
     */
    method UpdateCard(card: Card, now: Timestamp) returns (key: nat)
      requires Valid()
      modifies this
      ensures Valid()
      ensures key == card.id
      ensures cards == old(cards)[card.id := card.(updatedAt := now)]
      ensures nextKey == if card.id >= old(nextKey) then card.id + 1 else old(nextKey)
      ensures usedKeys == old(usedKeys) + {card.id}
      ensures writes == old(writes) + 1
    {
      var stamped := card.(updatedAt := now);
      cards := cards[card.id := stamped];
      if card.id >= nextKey {
        nextKey := card.id + 1;
      }
      usedKeys := usedKeys + {card.id};
      writes := writes + 1;
      key := card.id;
    }

    /** deleteCard: removes that key and nothing else; an unknown key is a successful no-op. */
    method DeleteCard(id: nat)
      requires Valid()
      modifies this
      ensures Valid()
      ensures cards == old(cards) - {id}
      ensures id !in old(cards) ==> cards == old(cards)
      ensures nextKey == old(nextKey) && usedKeys == old(usedKeys)
      ensures writes == old(writes) + 1
    {
      cards := cards - {id};
      writes := writes + 1;
    }

    /**
     * addLocationToCard: fails for an unknown card; drops a point strictly
     * within 50 m of an existing one (returning the stored card, writing
     * nothing); otherwise appends it, refreshes `updatedAt` and writes the
     * card back. A well-spaced location list stays well spaced.
     */
    method AddLocationToCard(id: nat, location: LocationInput, now: Timestamp)
      returns (r: Result<Card, DbError>)
      requires Valid()
      modifies this
      ensures Valid()
      ensures nextKey == old(nextKey) && usedKeys == old(usedKeys)
      ensures id !in old(cards) ==>
                r == Err(CardNotFound) && cards == old(cards) && writes == old(writes)
      ensures id in old(cards) && IsDuplicate(dist, old(cards)[id].locations, location.lat, location.lng) ==>
                r == Ok(old(cards)[id]) && cards == old(cards) && writes == old(writes)
      ensures id in old(cards) && !IsDuplicate(dist, old(cards)[id].locations, location.lat, location.lng) ==>
                var c := old(cards)[id];
                var n := |c.locations|;
                r.Ok? && cards == old(cards)[id := r.value] && writes == old(writes) + 1 &&
                r.value == c.(locations := c.locations + [NewLocation(location, n, now)], updatedAt := now)
      ensures id in old(cards) && WellSpaced(dist, old(cards)[id].locations) ==>
                WellSpaced(dist, cards[id].locations)
    {
      var found := GetCard(id);
      if found.None? {
        return Err(CardNotFound);
      }
      var card := found.value;
      if !IsDuplicate(dist, card.locations, location.lat, location.lng) {
        var loc := NewLocation(location, |card.locations|, now);
        if WellSpaced(dist, card.locations) {
          AppendKeepsSpacing(dist, card.locations, loc);
        }
        card := card.(locations := card.locations + [loc]);
        var _ := UpdateCard(card, now);
        card := card.(updatedAt := now);
      }
      r := Ok(card);
    }

    /**
     * removeLocationFromCard: fails for an unknown card; for an index inside
     * the list removes exactly that entry (splice), refreshes `updatedAt` and
     * writes the card back; any other index returns the stored card and
     * writes nothing. A well-spaced location list stays well spaced.
     */
    method RemoveLocationFromCard(id: nat, index: int, now: Timestamp)
      returns (r: Result<Card, DbError>)
      requires Valid()
      modifies this
      ensures Valid()
      ensures nextKey == old(nextKey) && usedKeys == old(usedKeys)
      ensures id !in old(cards) ==>
                r == Err(CardNotFound) && cards == old(cards) && writes == old(writes)
      ensures id in old(cards) && !(0 <= index < |old(cards)[id].locations|) ==>
                r == Ok(old(cards)[id]) && cards == old(cards) && writes == old(writes)
      ensures id in old(cards) && 0 <= index < |old(cards)[id].locations| ==>
                var c := old(cards)[id];
                r.Ok? && cards == old(cards)[id := r.value] && writes == old(writes) + 1 &&
                r.value == c.(locations := Splice(c.locations, index), updatedAt := now)
      ensures id in old(cards) && WellSpaced(dist, old(cards)[id].locations) ==>
                WellSpaced(dist, cards[id].locations)
    {
      var found := GetCard(id);
      if found.None? {
        return Err(CardNotFound);
      }
      var card := found.value;
      if 0 <= index < |card.locations| {
        if WellSpaced(dist, card.locations) {
          SpliceKeepsSpacing(dist, card.locations, index);
        }
        card := card.(locations := Splice(card.locations, index));
        var _ := UpdateCard(card, now);
        card := card.(updatedAt := now);
      }
      r := Ok(card);
    }
  }
}
