/** Distance-based filtering and ordering of rooms for the map views.
    The great-circle (Haversine) distance itself is a parameter of every
    operation: `distance(userLocation, roomLocation)` in kilometres. */
module Distance {
  import opened JsRuntime

  datatype LatLng = LatLng(lat: real, lng: real)

  /** A room of any shape `X` together with its optional `location.coordinates`. */
  datatype Room<X> = Room(data: X, coordinates: Option<LatLng>)

  /** The `distance` a room is tagged with: a finite number of kilometres,
      or `Infinity` when the room has no coordinates. */
  datatype Dist = Km(km: real) | Infinity

  /** `{ ...room, distance }`. */
  datatype Ranked<X> = Ranked(room: Room<X>, distance: Dist)

  type DistanceFn = (LatLng, LatLng) -> real

  // ---------------------------------------------------------------------
  // filterRoomsByDistance

  /** The callback of `rooms.filter`: a room is kept when it has coordinates
      and its distance from the user is at most the radius (inclusive). */
  predicate WithinRadius<X(!new)>(room: Room<X>, user: LatLng, radiusKm: real, distance: DistanceFn) {
    room.coordinates.Some? && distance(user, room.coordinates.value) <= radiusKm
  }

  /** `a` is `b` with some elements left out and the rest in their order. */
  ghost predicate IsSubsequence<T>(a: seq<T>, b: seq<T>)
    decreases |b|
  {
    if a == [] then true
    else if b == [] then false
    else (a[0] == b[0] && IsSubsequence(a[1..], b[1..])) || IsSubsequence(a, b[1..])
  }

  function FilterRoomsByDistance<X(!new)>(rooms: seq<Room<X>>, user: LatLng, radiusKm: real, distance: DistanceFn)
    : (r: seq<Room<X>>)
    ensures IsSubsequence(r, rooms)
    ensures forall room :: room in r ==> WithinRadius(room, user, radiusKm, distance)
    ensures forall room ::
      multiset(r)[room] == if WithinRadius(room, user, radiusKm, distance) then multiset(rooms)[room] else 0
  {
    if rooms == [] then []
    else
      var rest := FilterRoomsByDistance(rooms[1..], user, radiusKm, distance);
      assert rooms == [rooms[0]] + rooms[1..];
      if WithinRadius(rooms[0], user, radiusKm, distance) then [rooms[0]] + rest else rest
  }

  /** Rooms without coordinates never survive the filter, whatever the radius. */
  lemma FilterDropsRoomsWithoutCoordinates<X(!new)>(rooms: seq<Room<X>>, user: LatLng, radiusKm: real, distance: DistanceFn)
    ensures forall room :: room in FilterRoomsByDistance(rooms, user, radiusKm, distance) ==> room.coordinates.Some?
  {
  }

  /** When the radius covers every located room, the filter keeps exactly the
      located rooms, in their order. */
  lemma {:induction false} FilterWithCoveringRadius<X(!new)>(rooms: seq<Room<X>>, user: LatLng, radiusKm: real, distance: DistanceFn)
    requires forall room :: room in rooms && room.coordinates.Some? ==> distance(user, room.coordinates.value) <= radiusKm
    ensures FilterRoomsByDistance(rooms, user, radiusKm, distance) == Located(rooms)
  {
    if rooms != [] {
      assert forall room :: room in rooms[1..] ==> room in rooms;
      FilterWithCoveringRadius(rooms[1..], user, radiusKm, distance);
    }
  }

  /** The rooms that have coordinates, in their order. */
  function Located<X(!new)>(rooms: seq<Room<X>>): (r: seq<Room<X>>)
    ensures IsSubsequence(r, rooms)
    ensures forall room :: room in r ==> room.coordinates.Some?
    ensures forall room :: multiset(r)[room] == if room.coordinates.Some? then multiset(rooms)[room] else 0
  {
    if rooms == [] then []
    else
      var rest := Located(rooms[1..]);
      assert rooms == [rooms[0]] + rooms[1..];
      if rooms[0].coordinates.Some? then [rooms[0]] + rest else rest
  }

  // ---------------------------------------------------------------------
  // sortRoomsByDistance

  /** The distance `rooms.map` gives a room: Infinity without coordinates. */
  function DistanceOf<X(!new)>(room: Room<X>, user: LatLng, distance: DistanceFn): Dist {
    match room.coordinates
    case Some(c) => Km(distance(user, c))
    case None => Infinity
  }

  /** The `rooms.map(...)` step: each room tagged with its distance. */
  function Annotate<X(!new)>(rooms: seq<Room<X>>, user: LatLng, distance: DistanceFn): (r: seq<Ranked<X>>)
    ensures |r| == |rooms|
    ensures forall i :: 0 <= i < |rooms| ==> r[i] == Ranked(rooms[i], DistanceOf(rooms[i], user, distance))
  {
    seq(|rooms|, i requires 0 <= i < |rooms| => Ranked(rooms[i], DistanceOf(rooms[i], user, distance)))
  }

  /** The sign that ECMA-262's SortCompare (section 23.1.3.30.2 of the 2023
      edition) takes from the comparator `a.distance - b.distance`: the
      difference of two finite distances, `-Infinity` or `+Infinity` against
      `Infinity`, and `Infinity - Infinity`, which is NaN and counts as +0. */
  function Compare(a: Dist, b: Dist): (r: int)
    ensures r == 0 <==> a == b
    ensures r < 0 <==> (a.Km? && (b.Infinity? || a.km < b.km))
    ensures -1 <= r <= 1
  {
    match (a, b)
    case (Km(x), Km(y)) => if x < y then -1 else if y < x then 1 else 0
    case (Km(_), Infinity) => -1
    case (Infinity, Km(_)) => 1
    case (Infinity, Infinity) => 0
  }

  /** The comparator is a consistent comparison function in the sense of
      ECMA-262: antisymmetric and transitive, so a stable sort is well defined. */
  lemma CompareConsistent(a: Dist, b: Dist, c: Dist)
    ensures Compare(a, b) == -Compare(b, a)
    ensures Compare(a, b) <= 0 && Compare(b, c) <= 0 ==> Compare(a, c) <= 0
    ensures Compare(a, b) < 0 && Compare(b, c) <= 0 ==> Compare(a, c) < 0
  {
  }

  ghost predicate Sorted<X(!new)>(s: seq<Ranked<X>>) {
    forall i, j :: 0 <= i < j < |s| ==> Compare(s[i].distance, s[j].distance) <= 0
  }

  /** The elements at distance `d`, in their order. */
  function AtDistance<X(!new)>(s: seq<Ranked<X>>, d: Dist): (r: seq<Ranked<X>>)
    ensures forall e :: e in r ==> e in s && e.distance == d
  {
    if s == [] then []
    else if s[0].distance == d then [s[0]] + AtDistance(s[1..], d)
    else AtDistance(s[1..], d)
  }

  /** `AtDistance` selects exactly the entries at `d`: it keeps their order
      and each of them as many times as it occurs. */
  lemma {:induction false} AtDistanceSelects<X(!new)>(s: seq<Ranked<X>>, d: Dist)
    ensures IsSubsequence(AtDistance(s, d), s)
    ensures forall e :: multiset(AtDistance(s, d))[e] == if e.distance == d then multiset(s)[e] else 0
  {
    if s != [] {
      AtDistanceSelects(s[1..], d);
      assert s == [s[0]] + s[1..];
      if s[0].distance == d {
        assert AtDistance(s, d)[1..] == AtDistance(s[1..], d);
      }
    }
  }

  /** Places `x` before the first element that does not sort strictly before it. */
  function Insert<X(!new)>(x: Ranked<X>, s: seq<Ranked<X>>): (r: seq<Ranked<X>>)
    ensures multiset(r) == multiset([x] + s)
    ensures |r| == |s| + 1
  {
    if s == [] || Compare(x.distance, s[0].distance) <= 0 then [x] + s
    else
      assert s == [s[0]] + s[1..];
      [s[0]] + Insert(x, s[1..])
  }

  lemma SortedCons<X(!new)>(h: Ranked<X>, r: seq<Ranked<X>>)
    requires Sorted(r)
    requires forall j :: 0 <= j < |r| ==> Compare(h.distance, r[j].distance) <= 0
    ensures Sorted([h] + r)
  {
    var s := [h] + r;
    forall i, j | 0 <= i < j < |s| ensures Compare(s[i].distance, s[j].distance) <= 0 {
      if i == 0 {
        assert s[j] == r[j - 1];
      } else {
        assert s[i] == r[i - 1] && s[j] == r[j - 1];
      }
    }
  }

  /** An element that sorts before the head of a sorted list sorts before
      all of it. */
  lemma HeadBound<X(!new)>(x: Ranked<X>, s: seq<Ranked<X>>)
    requires Sorted(s)
    requires s != [] ==> Compare(x.distance, s[0].distance) <= 0
    ensures forall j :: 0 <= j < |s| ==> Compare(x.distance, s[j].distance) <= 0
  {
    forall j | 0 < j < |s| ensures Compare(x.distance, s[j].distance) <= 0 {
      CompareConsistent(x.distance, s[0].distance, s[j].distance);
    }
  }

  /** A lower bound of `x` and of every element of `t` is a lower bound of
      every element of `Insert(x, t)`. */
  lemma InsertBound<X(!new)>(h: Ranked<X>, x: Ranked<X>, t: seq<Ranked<X>>)
    requires Compare(h.distance, x.distance) <= 0
    requires forall k :: 0 <= k < |t| ==> Compare(h.distance, t[k].distance) <= 0
    ensures forall j :: 0 <= j < |Insert(x, t)| ==> Compare(h.distance, Insert(x, t)[j].distance) <= 0
  {
    var r := Insert(x, t);
    forall j | 0 <= j < |r| ensures Compare(h.distance, r[j].distance) <= 0 {
      var e := r[j];
      assert e in multiset([x] + t);
      if e != x {
        assert e in t;
      }
    }
  }

  lemma {:induction false} InsertSorted<X(!new)>(x: Ranked<X>, s: seq<Ranked<X>>)
    requires Sorted(s)
    ensures Sorted(Insert(x, s))
  {
    if s == [] || Compare(x.distance, s[0].distance) <= 0 {
      HeadBound(x, s);
      SortedCons(x, s);
    } else {
      var t := s[1..];
      SortedTail(s);
      InsertSorted(x, t);
      CompareConsistent(x.distance, s[0].distance, x.distance);
      assert forall k :: 0 <= k < |t| ==> t[k] == s[k + 1];
      InsertBound(s[0], x, t);
      SortedCons(s[0], Insert(x, t));
    }
  }

  /** Inserting an element that precedes everything already placed keeps
      every distance class in its original order. */
  lemma {:induction false} InsertStable<X(!new)>(x: Ranked<X>, s: seq<Ranked<X>>, d: Dist)
    ensures AtDistance(Insert(x, s), d) == AtDistance([x] + s, d)
  {
    assert ([x] + s)[1..] == s;
    if s == [] || Compare(x.distance, s[0].distance) <= 0 {
    } else {
      InsertStable(x, s[1..], d);
      assert x.distance != s[0].distance;
      assert ([s[0]] + Insert(x, s[1..]))[1..] == Insert(x, s[1..]);
      assert ([x] + s[1..])[1..] == s[1..];
    }
  }

  /** A stable insertion sort: the model of `Array.prototype.sort`, which is
      stable since the 2019 edition of ECMA-262. */
  function StableSort<X(!new)>(s: seq<Ranked<X>>): (r: seq<Ranked<X>>)
    ensures |r| == |s|
    ensures multiset(r) == multiset(s)
    ensures Sorted(r)
  {
    if s == [] then []
    else
      var rest := StableSort(s[1..]);
      InsertSorted(s[0], rest);
      assert s == [s[0]] + s[1..];
      Insert(s[0], rest)
  }

  /** Equal distances keep their input order. */
  lemma {:induction false} StableSortStable<X(!new)>(s: seq<Ranked<X>>, d: Dist)
    ensures AtDistance(StableSort(s), d) == AtDistance(s, d)
  {
    if s != [] {
      StableSortStable(s[1..], d);
      InsertStable(s[0], StableSort(s[1..]), d);
      assert ([s[0]] + StableSort(s[1..]))[1..] == StableSort(s[1..]);
    }
  }

  /** Only one arrangement is sorted and keeps every distance class in a
      given order, so any stable sort returns what StableSort returns. */
  lemma {:induction false} SortedStableUnique<X(!new)>(a: seq<Ranked<X>>, b: seq<Ranked<X>>)
    requires Sorted(a) && Sorted(b)
    requires forall d :: AtDistance(a, d) == AtDistance(b, d)
    ensures a == b
    decreases |a| + |b|
  {
    if a == [] || b == [] {
      LeadingClassNonEmpty(a);
      LeadingClassNonEmpty(b);
    } else {
      var da, db := a[0].distance, b[0].distance;
      if da != db {
        LeadingDistanceIsLeast(a, b, da);
        LeadingDistanceIsLeast(b, a, db);
        CompareConsistent(da, db, da);
        assert false;
      }
      var ta, tb := AtDistance(a[1..], da), AtDistance(b[1..], da);
      assert AtDistance(a, da) == [a[0]] + ta;
      assert AtDistance(b, da) == [b[0]] + tb;
      assert a[0] == ([a[0]] + ta)[0] == ([b[0]] + tb)[0] == b[0];
      assert ta == ([a[0]] + ta)[1..] == ([b[0]] + tb)[1..] == tb;
      forall d ensures AtDistance(a[1..], d) == AtDistance(b[1..], d) {
        if d != da {
          assert AtDistance(a, d) == AtDistance(a[1..], d);
          assert AtDistance(b, d) == AtDistance(b[1..], d);
        }
      }
      SortedTail(a);
      SortedTail(b);
      SortedStableUnique(a[1..], b[1..]);
      assert a == [a[0]] + a[1..];
      assert b == [b[0]] + b[1..];
    }
  }

  lemma LeadingClassNonEmpty<X(!new)>(s: seq<Ranked<X>>)
    ensures s == [] || AtDistance(s, s[0].distance) != []
  {
  }

  /** If `a` has an element at distance `d`, so does `b`, and the first
      element of the sorted `b` sorts no later than it. */
  lemma LeadingDistanceIsLeast<X(!new)>(a: seq<Ranked<X>>, b: seq<Ranked<X>>, d: Dist)
    requires a != [] && a[0].distance == d
    requires b != [] && Sorted(b)
    requires AtDistance(a, d) == AtDistance(b, d)
    ensures Compare(b[0].distance, d) <= 0
  {
    assert AtDistance(a, d) == [a[0]] + AtDistance(a[1..], d);
    var e := AtDistance(b, d)[0];
    assert e in AtDistance(b, d);
    var k :| 0 <= k < |b| && b[k] == e;
    if k > 0 {
      assert Compare(b[0].distance, b[k].distance) <= 0;
    }
  }

  lemma SortedTail<X(!new)>(s: seq<Ranked<X>>)
    requires s != [] && Sorted(s)
    ensures Sorted(s[1..])
  {
    forall i, j | 0 <= i < j < |s| - 1 ensures Compare(s[1..][i].distance, s[1..][j].distance) <= 0 {
      assert s[1..][i] == s[i + 1] && s[1..][j] == s[j + 1];
    }
  }

  /** `sortRoomsByDistance`: tag every room with its distance, then sort
      ascending with a stable sort. */
  function SortRoomsByDistance<X(!new)>(rooms: seq<Room<X>>, user: LatLng, distance: DistanceFn): (r: seq<Ranked<X>>)
    ensures |r| == |rooms|
    ensures multiset(r) == multiset(Annotate(rooms, user, distance))
    ensures Sorted(r)
    ensures forall e :: e in r ==> e.distance == DistanceOf(e.room, user, distance)
  {
    var tagged := Annotate(rooms, user, distance);
    var r := StableSort(tagged);
    assert forall e :: e in r ==> e in multiset(tagged);
    r
  }

  /** Rooms with equal distance come out in their input order. */
  lemma SortRoomsStable<X(!new)>(rooms: seq<Room<X>>, user: LatLng, distance: DistanceFn, d: Dist)
    ensures AtDistance(SortRoomsByDistance(rooms, user, distance), d) == AtDistance(Annotate(rooms, user, distance), d)
  {
    StableSortStable(Annotate(rooms, user, distance), d);
  }

  /** Every room with coordinates is placed before every room without. */
  lemma SortPutsMissingCoordinatesLast<X(!new)>(rooms: seq<Room<X>>, user: LatLng, distance: DistanceFn)
    ensures var r := SortRoomsByDistance(rooms, user, distance);
      forall i, j :: 0 <= i < |r| && 0 <= j < |r| && r[i].room.coordinates.Some? && r[j].room.coordinates.None? ==> i < j
  {
    var r := SortRoomsByDistance(rooms, user, distance);
    forall i, j | 0 <= i < |r| && 0 <= j < |r| && r[i].room.coordinates.Some? && r[j].room.coordinates.None?
      ensures i < j
    {
      assert r[i] in r && r[j] in r;
      assert Compare(r[j].distance, r[i].distance) == 1;
      assert i != j;
    }
  }

  /** Any arrangement of the tagged rooms that is sorted and keeps equal
      distances in input order is exactly the one sortRoomsByDistance returns. */
  lemma SortRoomsDeterminate<X(!new)>(rooms: seq<Room<X>>, user: LatLng, distance: DistanceFn, t: seq<Ranked<X>>)
    requires Sorted(t)
    requires forall d :: AtDistance(t, d) == AtDistance(Annotate(rooms, user, distance), d)
    ensures t == SortRoomsByDistance(rooms, user, distance)
  {
    var r := SortRoomsByDistance(rooms, user, distance);
    forall d ensures AtDistance(t, d) == AtDistance(r, d) {
      SortRoomsStable(rooms, user, distance, d);
    }
    SortedStableUnique(t, r);
  }

  /** The rooms the filter keeps are exactly the sorted entries whose finite
      distance is within the radius. */
  lemma FilterAgreesWithSort<X(!new)>(rooms: seq<Room<X>>, user: LatLng, radiusKm: real, distance: DistanceFn, room: Room<X>)
    ensures room in FilterRoomsByDistance(rooms, user, radiusKm, distance) <==>
      exists e :: e in SortRoomsByDistance(rooms, user, distance) && e.room == room && e.distance.Km? && e.distance.km <= radiusKm
  {
    if room in FilterRoomsByDistance(rooms, user, radiusKm, distance) {
      FilterKeptIsRanked(rooms, user, radiusKm, distance, room);
    }
    if e :| e in SortRoomsByDistance(rooms, user, distance) && e.room == room && e.distance.Km? && e.distance.km <= radiusKm {
      RankedWithinIsKept(rooms, user, radiusKm, distance, e);
    }
  }

  lemma FilterKeptIsRanked<X(!new)>(rooms: seq<Room<X>>, user: LatLng, radiusKm: real, distance: DistanceFn, room: Room<X>)
    requires room in FilterRoomsByDistance(rooms, user, radiusKm, distance)
    ensures exists e :: e in SortRoomsByDistance(rooms, user, distance) && e.room == room && e.distance.Km? && e.distance.km <= radiusKm
  {
    var f := FilterRoomsByDistance(rooms, user, radiusKm, distance);
    assert multiset(f)[room] > 0;
    assert room in multiset(rooms);
    var i :| 0 <= i < |rooms| && rooms[i] == room;
    var tagged := Annotate(rooms, user, distance);
    var e := tagged[i];
    assert e in multiset(tagged);
    assert e in SortRoomsByDistance(rooms, user, distance);
  }

  lemma RankedWithinIsKept<X(!new)>(rooms: seq<Room<X>>, user: LatLng, radiusKm: real, distance: DistanceFn, e: Ranked<X>)
    requires e in SortRoomsByDistance(rooms, user, distance) && e.distance.Km? && e.distance.km <= radiusKm
    ensures e.room in FilterRoomsByDistance(rooms, user, radiusKm, distance)
  {
    var tagged := Annotate(rooms, user, distance);
    assert e in multiset(tagged);
    var i :| 0 <= i < |tagged| && tagged[i] == e;
    assert rooms[i] == e.room;
    assert e.room in multiset(rooms);
    assert WithinRadius(e.room, user, radiusKm, distance);
    assert multiset(FilterRoomsByDistance(rooms, user, radiusKm, distance))[e.room] > 0;
  }

  // ---------------------------------------------------------------------
  // formatDistance

  /** The unit `formatDistance` chooses, with `Math.round(distanceKm * 1000)`
      in the metre case. The kilometre case's `toFixed(1)` digits are not
      modelled; it carries the number. */
  datatype Display = Metres(m: int) | Kilometres(km: real)

  /** `Math.round(x)`: the nearest integer, halves rounded up. */
  function Round(x: real): (n: int)
    ensures n as real - 0.5 <= x < n as real + 0.5
  {
    (x + 0.5).Floor
  }

  function FormatDistance(distanceKm: real): (d: Display)
    ensures d.Metres? <==> distanceKm < 1.0
    ensures d.Metres? ==> d.m as real - 0.5 <= distanceKm * 1000.0 < d.m as real + 0.5
    ensures d.Kilometres? ==> d.km == distanceKm
  {
    if distanceKm < 1.0 then Metres(Round(distanceKm * 1000.0)) else Kilometres(distanceKm)
  }

  /** A distance below one kilometre is shown as 0 to 1000 metres; just
      under one kilometre it rounds up to "1000 m". */
  lemma FormatDistanceMetreRange(distanceKm: real)
    requires 0.0 <= distanceKm < 1.0
    ensures 0 <= FormatDistance(distanceKm).m <= 1000
    ensures distanceKm >= 0.9995 ==> FormatDistance(distanceKm).m == 1000
  {
  }
}
