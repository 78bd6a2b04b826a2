# Card wallet core: card store and location-based recommender

This project models, in Dafny, the two pieces of logic of the card wallet
web app that carry real invariants:

* **`CardDB`** (`db.js`): an IndexedDB object store of card records keyed by
  `id`, whose keys come from an auto-increment key generator. Here it is the
  class `CardStore.CardDB`, holding a map from key to `Card`, the
  generator's current number, a ghost set of every key ever stored and a
  ghost count of write requests. On top of it sit the location operations:
  `addLocationToCard` drops a point strictly closer than 50 m to any point
  the card already has, and otherwise appends it. A point without a name is
  called `地点N`, where N is its 1-based position at insertion.
  `removeLocationFromCard` splices one entry out and ignores an index
  outside the list. Neither writes the card back unless it changed it.
* **`Recommender`** (`recommender.js`): `getTopCards` is a pure function. It
  keeps the cards that have locations and tags each with its nearest
  distance and the first location at that distance. It then sorts them
  stably by that distance and keeps the first `limit`. `isNearby` and
  `calculateScore` classify one distance.

The great-circle distance `GPS.calculateDistance` is not modelled. Every
operation takes it as a parameter `dist: DistanceFn`, so every property
holds for any distance function. None of them depends on the haversine.

Modules: `Wrappers` (Option, Result), `Cards` (records, default names,
dedup, splice), `CardStore` (the object store), `Recommender`, and
`Scenarios` (two worked examples: saving a card then adding places; ranking
three cards).

The model follows `db.js` and `recommender.js`:
* the default location name is `地点N`;
* `db.js` accepts an empty card name (only the form in `app.js:341-345`
  rejects one), so `AddCard` has no validation error;
* `getTopCards` treats a coordinate as missing when it is absent or exactly
  0, because `!currentLat` is true for 0;
* `limit` is a `nat`; its default in the code is 4, and the only caller
  passes 4.

## Model

| member | source | states |
|---|---|---|
| `Cards.Decimal` | db.js:123 | the numeral in `${n}` is a non-empty string of digits with no leading zero |
| `Cards.DecimalRoundTrip` | db.js:123 | reading the numeral back gives the number |
| `Cards.DecimalInjective` | db.js:123 | different counts give different numerals, so default names never collide by position |
| `Cards.DefaultName` | db.js:123 | a default name is the prefix `地点` followed by digits only, with no leading zero |
| `Cards.DefaultNameNumber` | db.js:123 | the digits after `地点` read back as the position N |
| `Cards.NewLocation` | db.js:120-125 | the pushed entry keeps the point's coordinates and gets `addedAt` = now. Its name is the given name when that is non-empty, else `地点` followed by the numeral of old count + 1 (digits only, no leading zero) |
| `Cards.IsDuplicate` | db.js:114-117 | the `some` scan is true iff some existing entry is strictly under 50 m from the new point; exactly 50 m is not a duplicate |
| `Cards.AppendKeepsSpacing` | db.js:114-120 | appending a non-duplicate to a well-spaced list (every later entry at least 50 m from every earlier one) keeps it well spaced |
| `Cards.Splice` | db.js:139 | `splice(i, 1)` shortens the list by one; entries before i stay where they are and entries after i move down by one |
| `Cards.SpliceRemovesOne` | db.js:139 | the spliced list plus the removed entry has the same elements as the old list |
| `Cards.SpliceKeepsSpacing` | db.js:138-139 | removing an entry keeps a well-spaced list well spaced |
| `CardStore.InKeyOrder` | db.js:67-76 | the records under a bound come in strictly ascending key order; each one is the stored record, and every stored record under the bound appears |
| `CardStore.CardDB.constructor` | db.js:23-26 | a new store is empty and its key generator starts at 1 |
| `CardStore.CardDB.AddCard` | db.js:37-52 | the returned key was never used before and is the generator's number, which then advances by one. The stored record is the draft plus that id and both stamps; every other record is unchanged; one write |
| `CardStore.CardDB.GetCard` | db.js:55-64 | returns the stored record for a known key and absent for an unknown one; reads only |
| `CardStore.CardDB.GetAllCards` | db.js:67-76 | returns every stored record exactly once, in ascending key order; reads only |
| `CardStore.CardDB.UpdateCard` | db.js:79-90 | puts the card under its own id with `updatedAt` = now, inserting or overwriting; returns the key. An explicit key at or above the generator's number moves the generator past it; nothing else changes; one write |
| `CardStore.CardDB.DeleteCard` | db.js:93-102 | removes exactly that key. An unknown key succeeds and leaves the records unchanged. The generator is not touched |
| `CardStore.CardDB.AddLocationToCard` | db.js:105-131 | unknown card: `Card not found`, nothing changes, no write. Duplicate point: returns the stored card, nothing changes, no write. Otherwise: exactly one entry (`NewLocation`) is appended after the unchanged old ones, `updatedAt` = now, the card is written back once and returned. A well-spaced list stays well spaced |
| `CardStore.CardDB.RemoveLocationFromCard` | db.js:134-144 | unknown card: `Card not found`, nothing changes. An index outside `[0, length)` returns the stored card, with no change and no write. Otherwise exactly entry i is spliced out, `updatedAt` = now, and the card is written back once and returned. A well-spaced list stays well spaced |
| `Recommender.WithLocations` | recommender.js:10-12 | every kept card has a location; a card is kept iff it is an input card with a location |
| `Recommender.WithLocationsCounts` | recommender.js:10-12 | each card with a location is kept as often as it occurs in the input and no other card is kept |
| `Recommender.WithLocationsConcat` | recommender.js:10-12 | filtering keeps input order: filtering a concatenation is the concatenation of the filtered parts |
| `Recommender.Distances` | recommender.js:16-18 | one distance per location, from the current position to that location, in location order |
| `Recommender.MinOf` | recommender.js:22 | `Math.min` of a non-empty list is one of its elements and no larger than any |
| `Recommender.IndexOf` | recommender.js:23 | `indexOf` is -1 exactly when the value is missing; otherwise it is the first position holding it |
| `Recommender.Nearest` | recommender.js:15-25 | the entry built for a card carries that card unchanged |
| `Recommender.NearestIsNearest` | recommender.js:16-23 | the entry's distance is no larger than the distance to any of the card's locations. Its location is the first one, in insertion order, whose distance equals it |
| `Recommender.Annotate` | recommender.js:15-25 | one entry per card, in card order, each the nearest entry of that card |
| `Recommender.StableSort` | recommender.js:28 | the sort's output is in non-decreasing distance order and is a permutation of its input |
| `Recommender.StableSortKeepsTies` | recommender.js:28 | entries with equal distance leave the sort in their input order |
| `Recommender.Prefix` | recommender.js:31 | `slice(0, n)` is the first min(n, length) entries |
| `Recommender.Ranked` | recommender.js:9-28 | the ranking is sorted by distance and holds exactly the entries built for the cards with locations, each as often as the card is kept |
| `Recommender.RankedEntries` | recommender.js:9-28 | every ranked entry is an input card with a location, carrying its nearest distance and first nearest location |
| `Recommender.RankedComplete` | recommender.js:9-28 | every input card with a location has its entry in the ranking |
| `Recommender.RankedCorrect` | recommender.js:9-28 | the ranking has as many entries as there are kept cards; every entry is an input card with a location, with its nearest distance and first nearest location; every input card with a location has its entry in it |
| `Recommender.GetTopCards` | recommender.js:4-32 | with a latitude or longitude that is absent or 0 the result is empty. Otherwise it holds at most `limit` entries, in non-decreasing distance order, each for an input card with a location |
| `Recommender.TopCardsCorrect` | recommender.js:4-31 | with a position, the result has min(limit, cards with locations) entries. Each is an input card with a location, with its nearest distance and first nearest location. The result is sorted by distance and is a prefix of the ranking. Every ranked entry left out, and so every input card with a location that is not returned, is at least as far as every entry returned |
| `Recommender.TopCardsLeftOut` | recommender.js:28-31 | an input card with a location whose entry is not returned is at least as far as every returned entry |
| `Recommender.RankedIsStable` | recommender.js:28 | in the ranking, cards tied at one distance appear in their order among the filtered input cards |
| `Recommender.Round` | recommender.js:47 | `Math.round` gives the integer n with n - 0.5 <= x < n + 0.5 (halves round up) |
| `Recommender.CalculateScore` | recommender.js:41-48 | the score lies in [0, 100]; it is 100 up to 100 m, 0 from 1000 m on, and strictly between them the nearest integer to 100 - d/10 (halves rounding up) |
| `Recommender.ScoreNonIncreasing` | recommender.js:41-48 | a farther distance never scores higher |
| `Recommender.IsNearby` | recommender.js:35-47 | a distance it accepts (<= 300 m) scores at least 70; one it rejects scores at most 70 |
| `Recommender.ScoreExamples` | recommender.js:41-48 | scores 100 at 100 m, 0 at 1000 m, 50 at 500 m, 45 at 550 m and 45 at 555 m (44.5 rounds up) |
| `Scenarios.SaveCardThenAddPlaces` | app.js:341-375 | a card saved with no locations, then given a point, a point within 50 m of it and a point at least 50 m away, ends with two places named `地点1` and `地点2` and stays well spaced |
| `Scenarios.TopTwoOfThree` | recommender.js:4-31 | for one-place cards at 50 m, 2000 m and 300 m with limit 2, the 50 m card comes first and the 300 m card second |

## Left out

- `GPS.calculateDistance` (gps.js:88-100): the haversine is floating-point trigonometry. It is a parameter of every operation, and no property relies on its value.
- Floating point: distances and coordinates are exact reals. The rounding of `d / 10` and `Math.round` on doubles, NaN distances or coordinates (NaN is falsy too), and `Math.min` of a list containing NaN are not modelled.
- `CardDB.init` (db.js:9-34), the transactions, the request callbacks and promises: the object store is an in-memory map. Storage failures (`request.onerror`) and the key generator's upper bound of 2^53 are not modelled; neither can occur in the model.
- `blobToBase64` and `base64ToBlob` (db.js:147-169): these wrap FileReader, `atob` and Blob. The image is an opaque string.
- Timestamps: `new Date().toISOString()` is a caller-supplied `now`. Within one call every stamp gets the same reading. In the code, `createdAt` and `updatedAt` of `addCard`, and `addedAt` and `updatedAt` of `addLocationToCard`, are separate clock readings.
- Concurrency: `addLocationToCard` and `removeLocationFromCard` read and write in separate transactions, so interleaved calls could lose an update. The model is sequential.
- Record shapes: a record without a `locations` field, or a draft that already carries an `id`, is not modelled. A missing list behaves like an empty one in both location operations and in `getTopCards`. Extra draft fields (`frontImage`, `barcodeImage`) are subsumed by the opaque `image`.
- `CardStore.CardDB.RemoveLocationFromCard`: the index is an integer. A non-integer or string index, which JavaScript would coerce or ignore, is not modelled.
- `Recommender.GetTopCards` with a negative `limit`, where `slice(0, negative)` drops entries from the end: `limit` is a `nat`.
- The comparator `a.nearestDistance - b.nearestDistance` is modelled by comparing the distances directly, which agrees with it on reals.
- `GPS.formatDistance`, geolocation, camera, image processing, the service worker and the DOM code of `app.js`: these are presentation and platform input/output.
