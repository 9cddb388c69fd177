/** The admin endpoint POST /api/admin/fix-validation: it repairs the
    `features.totalFloors` and `amenities` fields of every stored room and
    reports what it changed. The database, the JWT verifier and the
    request/response objects are parameters. */
module FixValidation {
  import opened JsRuntime

  // ---------------------------------------------------------------------
  // The fixed tables

  const ValidAmenities: seq<string> := [
    "wifi", "ac", "powerBackup", "security", "housekeeping", "laundry",
    "parking", "gym", "library", "cafeteria", "mess", "cctv", "geyser",
    "cooler", "fridge", "tv", "bed", "wardrobe", "study_table", "chair",
    "water24x7", "lift", "elevator", "balcony", "attached_bathroom",
    "kitchen", "dining", "swimming_pool", "terrace", "garden",
    "playground", "washingMachine", "fireExtinguisher"
  ]

  const AmenityMapping: map<string, string> := map[
    "Bed" := "bed",
    "Study Table" := "study_table",
    "Wardrobe" := "wardrobe",
    "AC" := "ac",
    "WiFi" := "wifi",
    "Wi-Fi" := "wifi",
    "CCTV" := "cctv",
    "TV" := "tv",
    "Geyser" := "geyser",
    "Cooler" := "cooler",
    "Fridge" := "fridge",
    "Refrigerator" := "fridge",
    "Mess" := "mess"
  ]

  predicate IsValidAmenity(a: string) {
    a in ValidAmenities
  }

  /** Every value of the mapping table is itself a valid amenity. */
  lemma MappingTargetsValid()
    ensures forall k :: k in AmenityMapping ==> IsValidAmenity(AmenityMapping[k])
  {
  }

  /** No value of the mapping table has a capital letter. */
  lemma MappingTargetsLowerCase()
    ensures forall k :: k in AmenityMapping ==> forall i :: 0 <= i < |AmenityMapping[k]| ==> !IsAsciiUpper(AmenityMapping[k][i])
  {
    forall k | k in AmenityMapping
      ensures forall i :: 0 <= i < |AmenityMapping[k]| ==> !IsAsciiUpper(AmenityMapping[k][i])
    {
      var v := AmenityMapping[k];
      assert v in {"bed", "study_table", "wardrobe", "ac", "wifi", "cctv", "tv", "geyser", "cooler", "fridge", "mess"};
    }
  }

  // ---------------------------------------------------------------------
  // Normalising one amenity

  /** The fall-back normal form: lower-cased, each whitespace run replaced by `_`. */
  function Canonical(a: string): (r: string)
    ensures forall i :: 0 <= i < |r| ==> !IsAsciiUpper(r[i])
    ensures NoWhitespace(r)
  {
    ReplaceWhitespaceRunsKeepsLower(ToLower(a));
    ReplaceWhitespaceRuns(ToLower(a))
  }

  /** One amenity, normalised: kept when valid, else mapped through the
      table, else kept in canonical form when that is valid, else dropped. */
  function NormaliseAmenity(a: string): (r: Option<string>)
    ensures r.Some? ==> IsValidAmenity(r.value)
    ensures IsValidAmenity(a) ==> r == Some(a)
    ensures !IsValidAmenity(a) && a in AmenityMapping ==> r == Some(AmenityMapping[a])
    ensures !IsValidAmenity(a) && a !in AmenityMapping ==>
      r == if IsValidAmenity(Canonical(a)) then Some(Canonical(a)) else None
  {
    MappingTargetsValid();
    if IsValidAmenity(a) then Some(a)
    else if a in AmenityMapping then Some(AmenityMapping[a])
    else
      var n := Canonical(a);
      if IsValidAmenity(n) then Some(n) else None
  }

  /** A spelling with capitals and a double space reaches its canonical
      name: "Swimming  Pool" becomes "swimming_pool". */
  lemma CanonicalExample()
    ensures Canonical("Swimming  Pool") == "swimming_pool"
  {
    var lower := ToLower("Swimming  Pool");
    assert lower == "swimming" + "  " + "pool" by {
      assert forall i :: 0 <= i < |lower| ==> lower[i] == ("swimming" + "  " + "pool")[i];
    }
    ReplaceWhitespaceRunsIdentity("pool");
    ReplaceWhitespaceRunsStep("swimming", "  ", "pool");
  }

  /** The camel-case amenities can never be reached from a string that is not
      already one of them: no mapping target and no canonical form has a
      capital letter. */
  lemma CamelCaseOnlyVerbatim(a: string, v: string)
    requires v == "powerBackup" || v == "washingMachine" || v == "fireExtinguisher"
    requires NormaliseAmenity(a) == Some(v)
    ensures a == v
  {
    var k := if v == "powerBackup" then 5 else if v == "washingMachine" then 7 else 4;
    assert IsAsciiUpper(v[k]);
    LowerDiffersFromCapitalised(Canonical(a), v, k);
    MappingTargetsLowerCase();
    forall m | m in AmenityMapping ensures AmenityMapping[m] != v {
      LowerDiffersFromCapitalised(AmenityMapping[m], v, k);
    }
  }

  lemma LowerDiffersFromCapitalised(c: string, v: string, k: nat)
    requires forall i :: 0 <= i < |c| ==> !IsAsciiUpper(c[i])
    requires k < |v| && IsAsciiUpper(v[k])
    ensures c != v
  {
    if |c| > k {
      assert c[k] != v[k];
    }
  }

  // ---------------------------------------------------------------------
  // The list: `.map(...)`, `.filter(Boolean)`, `[...new Set(...)]`

  /** `.map(normalise).filter(Boolean)`. */
  function NormaliseList(xs: seq<string>): (r: seq<string>)
    ensures forall x :: x in r ==> IsValidAmenity(x)
    ensures |r| <= |xs|
  {
    if xs == [] then []
    else
      var rest := NormaliseList(xs[1..]);
      match NormaliseAmenity(xs[0])
      case Some(v) => [v] + rest
      case None => rest
  }

  /** Normalisation works name by name and keeps the order: the list of
      a concatenation is the concatenation of the lists. */
  lemma {:induction false} NormaliseListAppend(xs: seq<string>, ys: seq<string>)
    ensures NormaliseList(xs + ys) == NormaliseList(xs) + NormaliseList(ys)
    decreases |xs|
  {
    if xs == [] {
      assert xs + ys == ys;
    } else {
      assert (xs + ys)[0] == xs[0];
      assert (xs + ys)[1..] == xs[1..] + ys;
      NormaliseListAppend(xs[1..], ys);
    }
  }

  /** A single name becomes the name it normalises to, or nothing. */
  lemma NormaliseListSingle(x: string)
    ensures NormaliseList([x]) == if NormaliseAmenity(x).Some? then [NormaliseAmenity(x).value] else []
  {
    assert [x][1..] == [];
  }

  /** A list of valid amenities passes through normalisation unchanged. */
  lemma {:induction false} NormaliseListOfValid(xs: seq<string>)
    requires forall x :: x in xs ==> IsValidAmenity(x)
    ensures NormaliseList(xs) == xs
  {
    if xs != [] {
      assert xs[0] in xs;
      assert forall x :: x in xs[1..] ==> x in xs;
      NormaliseListOfValid(xs[1..]);
      assert xs == [xs[0]] + xs[1..];
    }
  }

  predicate NoDuplicates<T(==,!new)>(xs: seq<T>) {
    forall i, j :: 0 <= i < j < |xs| ==> xs[i] != xs[j]
  }

  /** The position of the first occurrence of `x`. */
  function FirstIndex<T(==,!new)>(xs: seq<T>, x: T): (k: nat)
    requires x in xs
    ensures k < |xs| && xs[k] == x && x !in xs[..k]
  {
    if xs[0] == x then 0
    else
      var k := FirstIndex(xs[1..], x);
      assert xs[..k + 1] == [xs[0]] + xs[1..][..k];
      k + 1
  }

  /** Walks `xs` keeping each element not yet in `seen`, as the iteration of
      a `Set` built from `xs` does. */
  function DedupeAfter<T(==,!new)>(xs: seq<T>, seen: set<T>): (r: seq<T>)
    ensures NoDuplicates(r)
    ensures forall x :: x in r <==> x in xs && x !in seen
    ensures |r| <= |xs|
  {
    if xs == [] then []
    else if xs[0] in seen then DedupeAfter(xs[1..], seen)
    else
      var rest := DedupeAfter(xs[1..], seen + {xs[0]});
      assert forall i :: 0 <= i < |rest| ==> rest[i] != xs[0] by {
        forall i | 0 <= i < |rest| ensures rest[i] != xs[0] { assert rest[i] in rest; }
      }
      [xs[0]] + rest
  }

  /** `[...new Set(xs)]`. */
  function Dedupe<T(==,!new)>(xs: seq<T>): (r: seq<T>)
    ensures NoDuplicates(r)
    ensures forall x :: x in r <==> x in xs
  {
    DedupeAfter(xs, {})
  }

  /** The survivors appear in the order of their first occurrences. */
  lemma {:induction false} DedupeAfterFirstOccurrenceOrder<T(!new)>(xs: seq<T>, seen: set<T>)
    ensures forall i, j :: 0 <= i < j < |DedupeAfter(xs, seen)| ==>
      FirstIndex(xs, DedupeAfter(xs, seen)[i]) < FirstIndex(xs, DedupeAfter(xs, seen)[j])
  {
    if xs != [] {
      var r := DedupeAfter(xs, seen);
      var seen' := if xs[0] in seen then seen else seen + {xs[0]};
      var rest := DedupeAfter(xs[1..], seen');
      DedupeAfterFirstOccurrenceOrder(xs[1..], seen');
      forall i, j | 0 <= i < j < |r| ensures FirstIndex(xs, r[i]) < FirstIndex(xs, r[j]) {
        var i', j' := if xs[0] in seen then i else i - 1, if xs[0] in seen then j else j - 1;
        assert r[j] == rest[j'] && rest[j'] in rest;
        FirstIndexTail(xs, rest[j']);
        if i' >= 0 {
          assert r[i] == rest[i'] && rest[i'] in rest;
          FirstIndexTail(xs, rest[i']);
          assert FirstIndex(xs[1..], rest[i']) < FirstIndex(xs[1..], rest[j']);
        }
      }
    }
  }

  lemma FirstIndexTail<T(!new)>(xs: seq<T>, y: T)
    requires xs != [] && y in xs[1..] && y != xs[0]
    ensures FirstIndex(xs, y) == FirstIndex(xs[1..], y) + 1
  {
  }

  lemma DedupeFirstOccurrenceOrder<T(!new)>(xs: seq<T>)
    ensures forall i, j :: 0 <= i < j < |Dedupe(xs)| ==> FirstIndex(xs, Dedupe(xs)[i]) < FirstIndex(xs, Dedupe(xs)[j])
  {
    DedupeAfterFirstOccurrenceOrder(xs, {});
  }

  /** A list without repetitions is its own de-duplication. */
  lemma {:induction false} DedupeAfterOfDistinct<T(!new)>(xs: seq<T>, seen: set<T>)
    requires NoDuplicates(xs)
    requires forall x :: x in xs ==> x !in seen
    ensures DedupeAfter(xs, seen) == xs
  {
    if xs != [] {
      assert xs[0] in xs;
      forall x | x in xs[1..] ensures x !in seen + {xs[0]} {
        var k :| 0 <= k < |xs[1..]| && xs[1..][k] == x;
        assert xs[k + 1] == x;
      }
      DedupeAfterOfDistinct(xs[1..], seen + {xs[0]});
      assert xs == [xs[0]] + xs[1..];
    }
  }

  /** The amenities list the endpoint computes for a room. */
  function FixAmenities(xs: seq<string>): (r: seq<string>)
    ensures forall x :: x in r ==> IsValidAmenity(x)
    ensures NoDuplicates(r)
    ensures |r| <= |xs|
  {
    Dedupe(NormaliseList(xs))
  }

  /** A list is left alone exactly when it is already clean: every entry
      valid and none repeated. */
  lemma FixAmenitiesFixpoint(xs: seq<string>)
    ensures FixAmenities(xs) == xs <==> (forall x :: x in xs ==> IsValidAmenity(x)) && NoDuplicates(xs)
  {
    if (forall x :: x in xs ==> IsValidAmenity(x)) && NoDuplicates(xs) {
      NormaliseListOfValid(xs);
      DedupeAfterOfDistinct(xs, {});
    }
  }

  /** Running the fix a second time changes nothing. */
  lemma FixAmenitiesIdempotent(xs: seq<string>)
    ensures FixAmenities(FixAmenities(xs)) == FixAmenities(xs)
  {
    FixAmenitiesFixpoint(FixAmenities(xs));
  }

  /** Every valid amenity of the input survives, and nothing else is added
      than the normal forms of the input's entries. */
  lemma FixAmenitiesMembers(xs: seq<string>, a: string)
    ensures a in FixAmenities(xs) <==> exists x :: x in xs && NormaliseAmenity(x) == Some(a)
  {
    NormaliseListMembers(xs, a);
  }

  lemma {:induction false} NormaliseListMembers(xs: seq<string>, a: string)
    ensures a in NormaliseList(xs) <==> exists x :: x in xs && NormaliseAmenity(x) == Some(a)
  {
    if xs != [] {
      NormaliseListMembers(xs[1..], a);
      assert forall x :: x in xs <==> x == xs[0] || x in xs[1..];
    }
  }

  // ---------------------------------------------------------------------
  // The floor fix

  /** A numeric document field: absent, `null`, or a (finite) JavaScript
      number. */
  datatype Field = Missing | Null | Num(n: real)

  /** `room.features?.floor || 0`: absent, null and 0 all read as 0. */
  function FloorOrZero(f: Field): real {
    if f.Num? then f.n else 0.0
  }

  /** `totalFloors !== undefined && totalFloors < 1` (JavaScript reads `null`
      as 0 in `<`, so a null total is repaired as well). */
  predicate NeedsFloorFix(totalFloors: Field) {
    totalFloors.Null? || (totalFloors.Num? && totalFloors.n < 1.0)
  }

  /** The new `features.totalFloors`, if any: `Math.max(floor + 1, 1)`. */
  function TotalFloorsFix(totalFloors: Field, floor: Field): (r: Option<real>)
    ensures r.Some? <==> NeedsFloorFix(totalFloors)
    ensures r.Some? ==> r.value >= 1.0 && r.value >= FloorOrZero(floor) + 1.0
    ensures r.Some? ==> r.value == 1.0 || r.value == FloorOrZero(floor) + 1.0
    ensures r.Some? ==> !NeedsFloorFix(Num(r.value))
  {
    if NeedsFloorFix(totalFloors) then
      var f := FloorOrZero(floor);
      Some(if f + 1.0 > 1.0 then f + 1.0 else 1.0)
    else None
  }

  // ---------------------------------------------------------------------
  // The room loop

  /** The part of a stored room the endpoint reads. */
  datatype RoomDoc = RoomDoc(id: string, totalFloors: Field, floor: Field, amenities: Option<seq<string>>)

  /** The `updates` object built for one room. */
  datatype RoomUpdate = RoomUpdate(totalFloors: Option<real>, amenities: Option<seq<string>>) {
    predicate IsEmpty() {
      totalFloors.None? && amenities.None?
    }
  }

  /** One `Room.updateOne({ _id }, { $set: updates })` call. */
  datatype Write = Write(roomId: string, update: RoomUpdate)

  datatype Results = Results(totalFloorsFixed: nat, amenitiesFixed: nat, totalRoomsProcessed: nat, errors: seq<string>)

  /** The new amenities of a room: recorded only when the list changes. */
  function AmenitiesUpdate(amenities: Option<seq<string>>): (r: Option<seq<string>>)
    ensures r.Some? <==> amenities.Some? && FixAmenities(amenities.value) != amenities.value
    ensures r.Some? ==> r.value == FixAmenities(amenities.value)
  {
    match amenities
    case None => None
    case Some(xs) => if FixAmenities(xs) != xs then Some(FixAmenities(xs)) else None
  }

  function UpdateFor(room: RoomDoc): RoomUpdate {
    RoomUpdate(TotalFloorsFix(room.totalFloors, room.floor), AmenitiesUpdate(room.amenities))
  }

  /** The error line pushed when `updateOne` rejects with `message`. */
  function ErrorLine(id: string, message: string): string {
    "Failed to update room " + id + ": " + message
  }

  /** How many of the rooms get a new `features.totalFloors`. */
  function CountFloorFixes(rooms: seq<RoomDoc>): (n: nat)
    ensures n <= |rooms|
  {
    if rooms == [] then 0
    else CountFloorFixes(rooms[..|rooms| - 1]) + if FloorFixed(rooms[|rooms| - 1]) then 1 else 0
  }

  /** How many of the rooms get a new `amenities` list. */
  function CountAmenityFixes(rooms: seq<RoomDoc>): (n: nat)
    ensures n <= |rooms|
  {
    if rooms == [] then 0
    else CountAmenityFixes(rooms[..|rooms| - 1]) + if AmenitiesFixed(rooms[|rooms| - 1]) then 1 else 0
  }

  /** The `updateOne` calls made for `rooms`, in order. */
  function WritesFor(rooms: seq<RoomDoc>): (w: seq<Write>)
    ensures |w| <= |rooms|
  {
    if rooms == [] then []
    else
      var last := rooms[|rooms| - 1];
      WritesFor(rooms[..|rooms| - 1]) + if UpdateFor(last).IsEmpty() then [] else [Write(last.id, UpdateFor(last))]
  }

  /** The errors collected for `rooms`; `updateFailure(i)` is the message
      with which the update of the `i`-th room rejects, if it does. */
  function ErrorsFor(rooms: seq<RoomDoc>, updateFailure: nat -> Option<string>): (e: seq<string>)
    ensures |e| <= |WritesFor(rooms)|
  {
    if rooms == [] then []
    else
      var i := |rooms| - 1;
      var last := rooms[i];
      ErrorsFor(rooms[..i], updateFailure) +
        if !UpdateFor(last).IsEmpty() && updateFailure(i).Some? then [ErrorLine(last.id, updateFailure(i).value)] else []
  }

  predicate FloorFixed(room: RoomDoc) {
    UpdateFor(room).totalFloors.Some?
  }

  predicate AmenitiesFixed(room: RoomDoc) {
    UpdateFor(room).amenities.Some?
  }

  /** How each summary grows by one room. */
  lemma PrefixStep(rooms: seq<RoomDoc>, i: nat, updateFailure: nat -> Option<string>)
    requires i < |rooms|
    ensures CountFloorFixes(rooms[..i + 1]) == CountFloorFixes(rooms[..i]) + if FloorFixed(rooms[i]) then 1 else 0
    ensures CountAmenityFixes(rooms[..i + 1]) == CountAmenityFixes(rooms[..i]) + if AmenitiesFixed(rooms[i]) then 1 else 0
    ensures WritesFor(rooms[..i + 1]) ==
      WritesFor(rooms[..i]) + if UpdateFor(rooms[i]).IsEmpty() then [] else [Write(rooms[i].id, UpdateFor(rooms[i]))]
    ensures ErrorsFor(rooms[..i + 1], updateFailure) ==
      ErrorsFor(rooms[..i], updateFailure) +
        if !UpdateFor(rooms[i]).IsEmpty() && updateFailure(i).Some? then [ErrorLine(rooms[i].id, updateFailure(i).value)] else []
  {
    var q := rooms[..i + 1];
    assert q[..|q| - 1] == rooms[..i];
    assert q[|q| - 1] == rooms[i];
  }

  /** The `for (const room of rooms)` loop. */
  method FixRooms(rooms: seq<RoomDoc>, updateFailure: nat -> Option<string>) returns (results: Results, writes: seq<Write>)
    ensures results.totalRoomsProcessed == |rooms|
    ensures results.totalFloorsFixed == CountFloorFixes(rooms)
    ensures results.amenitiesFixed == CountAmenityFixes(rooms)
    ensures writes == WritesFor(rooms)
    ensures results.errors == ErrorsFor(rooms, updateFailure)
  {
    results := Results(0, 0, |rooms|, []);
    writes := [];
    var i := 0;
    while i < |rooms|
      invariant 0 <= i <= |rooms|
      invariant results.totalRoomsProcessed == |rooms|
      invariant results.totalFloorsFixed == CountFloorFixes(rooms[..i])
      invariant results.amenitiesFixed == CountAmenityFixes(rooms[..i])
      invariant writes == WritesFor(rooms[..i])
      invariant results.errors == ErrorsFor(rooms[..i], updateFailure)
    {
      var room := rooms[i];
      PrefixStep(rooms, i, updateFailure);
      var floors: Option<real> := None;
      if NeedsFloorFix(room.totalFloors) {
        var currentFloor := FloorOrZero(room.floor);
        floors := Some(if currentFloor + 1.0 > 1.0 then currentFloor + 1.0 else 1.0);
        results := results.(totalFloorsFixed := results.totalFloorsFixed + 1);
      }
      assert floors == UpdateFor(room).totalFloors;
      assert results.totalFloorsFixed == CountFloorFixes(rooms[..i + 1]);
      var amenities: Option<seq<string>> := None;
      if room.amenities.Some? {
        var unique := FixAmenities(room.amenities.value);
        if room.amenities.value != unique {
          amenities := Some(unique);
          results := results.(amenitiesFixed := results.amenitiesFixed + 1);
        }
      }
      assert amenities == UpdateFor(room).amenities;
      assert results.amenitiesFixed == CountAmenityFixes(rooms[..i + 1]);
      var update := RoomUpdate(floors, amenities);
      assert update == UpdateFor(room);
      if !update.IsEmpty() {
        writes := writes + [Write(room.id, update)];
        var failure := updateFailure(i);
        if failure.Some? {
          results := results.(errors := results.errors + [ErrorLine(room.id, failure.value)]);
        }
      }
      i := i + 1;
    }
    assert rooms[..i] == rooms;
  }

  /** Every amenities list the loop writes is clean, and so left alone by a
      second run; every total it writes is at least 1. */
  lemma {:induction false} WritesAreClean(rooms: seq<RoomDoc>)
    ensures forall w :: w in WritesFor(rooms) && w.update.amenities.Some? ==>
      FixAmenities(w.update.amenities.value) == w.update.amenities.value
    ensures forall w :: w in WritesFor(rooms) && w.update.totalFloors.Some? ==> w.update.totalFloors.value >= 1.0
    ensures forall w :: w in WritesFor(rooms) ==> !w.update.IsEmpty()
  {
    if rooms != [] {
      var last := rooms[|rooms| - 1];
      WritesAreClean(rooms[..|rooms| - 1]);
      if last.amenities.Some? {
        FixAmenitiesIdempotent(last.amenities.value);
      }
    }
  }

  /** A room gets a write exactly when one of its two fixes fires, so the
      number of writes lies between the larger fix counter and their sum. */
  lemma {:induction false} WritesCountFixedRooms(rooms: seq<RoomDoc>)
    ensures |WritesFor(rooms)| <= CountFloorFixes(rooms) + CountAmenityFixes(rooms)
    ensures CountAmenityFixes(rooms) <= |WritesFor(rooms)|
    ensures CountFloorFixes(rooms) <= |WritesFor(rooms)|
  {
    if rooms != [] {
      WritesCountFixedRooms(rooms[..|rooms| - 1]);
    }
  }

  // ---------------------------------------------------------------------
  // The request handler

  /** What `verifyAccessToken(token)` yields: it rejects, it yields no
      payload, or a payload with this `userId`. */
  datatype Verification = VerifyRejects | NoPayload | Payload(userId: string)

  /** `connectDB()` and `Room.find({}).lean()`: either rejects, or the rooms. */
  datatype Database = DatabaseRejects | Rooms(rooms: seq<RoomDoc>)

  datatype Body = Failure(error: string) | Success(message: string, data: Results)

  datatype Response = Response(status: int, body: Body)

  const BearerPrefix: string := "Bearer "

  /** POST: authorise, scan every room, apply the fixes, report. */
  method Post(authorization: Option<string>, verify: string -> Verification, db: Database,
              updateFailure: nat -> Option<string>)
    returns (response: Response, writes: seq<Write>)
    ensures !(authorization.Some? && StartsWith(authorization.value, BearerPrefix)) ==>
      response == Response(401, Failure("Unauthorized - No token provided")) && writes == []
    ensures authorization.Some? && StartsWith(authorization.value, BearerPrefix) ==>
      var v := verify(authorization.value[|BearerPrefix|..]);
      if v.VerifyRejects? then
        response == Response(500, Failure("Failed to fix validation")) && writes == []
      else if v.NoPayload? || !Truthy(v.userId) then
        response == Response(401, Failure("Unauthorized - Invalid token")) && writes == []
      else if db.DatabaseRejects? then
        response == Response(500, Failure("Failed to fix validation")) && writes == []
      else
        response.status == 200 && response.body.Success? &&
        response.body.message == "Validation fixes applied" &&
        response.body.data.totalRoomsProcessed == |db.rooms| &&
        response.body.data.totalFloorsFixed == CountFloorFixes(db.rooms) &&
        response.body.data.amenitiesFixed == CountAmenityFixes(db.rooms) &&
        response.body.data.errors == ErrorsFor(db.rooms, updateFailure) &&
        writes == WritesFor(db.rooms)
  {
    writes := [];
    if authorization.None? || !StartsWith(authorization.value, BearerPrefix) {
      response := Response(401, Failure("Unauthorized - No token provided"));
      return;
    }
    var token := authorization.value[7..];
    var decoded := verify(token);
    if decoded.VerifyRejects? {
      response := Response(500, Failure("Failed to fix validation"));
      return;
    }
    if decoded.NoPayload? || !Truthy(decoded.userId) {
      response := Response(401, Failure("Unauthorized - Invalid token"));
      return;
    }
    if db.DatabaseRejects? {
      response := Response(500, Failure("Failed to fix validation"));
      return;
    }
    var results;
    results, writes := FixRooms(db.rooms, updateFailure);
    response := Response(200, Success("Validation fixes applied", results));
  }

  // ---------------------------------------------------------------------
  // Inherited keys of the mapping object

  /** The names a plain JavaScript object inherits from `Object.prototype`. */
  const ObjectPrototypeMembers: set<string> := {
    "constructor", "hasOwnProperty", "isPrototypeOf", "propertyIsEnumerable",
    "toString", "toLocaleString", "valueOf", "__proto__",
    "__defineGetter__", "__defineSetter__", "__lookupGetter__", "__lookupSetter__"
  }

  /** A JavaScript value the mapping lookup can produce. */
  datatype JsValue = Str(s: string) | Inherited(name: string)

  /** `AMENITY_MAPPING[amenity]` as written: a property lookup that sees the
      object's own keys and, after them, the inherited ones (all truthy). */
  function MappingLookupAsWritten(a: string): Option<JsValue> {
    if a in AmenityMapping then Some(Str(AmenityMapping[a]))
    else if a in ObjectPrototypeMembers then Some(Inherited(a))
    else None
  }

  /** The normaliser of one amenity as written. */
  function NormaliseAmenityAsWritten(a: string): (r: Option<JsValue>)
    ensures a !in ObjectPrototypeMembers ==> r == (match NormaliseAmenity(a) case Some(v) => Some(Str(v)) case None => None)
  {
    if IsValidAmenity(a) then Some(Str(a))
    else
      match MappingLookupAsWritten(a)
      case Some(v) => Some(v)
      case None =>
        var n := Canonical(a);
        if IsValidAmenity(n) then Some(Str(n)) else None
  }

  /** A word of lower-case ASCII letters is its own canonical form. */
  lemma CanonicalOfLowerWord(w: string)
    requires forall i :: 0 <= i < |w| ==> 'a' <= w[i] <= 'z'
    ensures Canonical(w) == w
  {
    ToLowerIdentity(w);
    ReplaceWhitespaceRunsIdentity(w);
  }

  /** The stored amenity "constructor" is not dropped but replaced by the
      inherited `Object` function, which is neither a string nor valid. */
  lemma InheritedKeyEscapesAsWritten()
    ensures NormaliseAmenityAsWritten("constructor") == Some(Inherited("constructor"))
    ensures NormaliseAmenity("constructor") == None
  {
    var k := "constructor";
    assert !IsValidAmenity(k);
    assert k !in AmenityMapping;
    CanonicalOfLowerWord(k);
  }
}
