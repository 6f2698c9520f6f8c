/** The map component: a table of location markers kept in step with the
    location list, a route between the user and the selected location drawn as
    a line layer over a data source of the same id, a marker for the user, and
    the route's distance and duration. The directions service is not modelled;
    its answer is an input of `DrawRoute`. */
module LocationMap {

  import opened Domain
  import opened MapSurface

  const RouteLayerId: string := "route"
  const SelectedColor: string := "#3b82f6"
  const DefaultColor: string := "#ef4444"
  const UserColor: string := "#10b981"
  const RouteErrorFallback: string := "Ocorreu um erro ao calcular a rota."

  /** Where a location's marker is placed: longitude first. */
  function Position(l: Location): (c: Coord)
    ensures c.lng == l.longitude && c.lat == l.latitude
  {
    Coord(l.longitude, l.latitude)
  }

  /** The marker colour of a location: blue for the selected one, red for the
      others. */
  function MarkerColor(selected: Option<Location>, id: string): (color: string)
    ensures color == SelectedColor <==> selected.Some? && selected.value.id == id
    ensures color == SelectedColor || color == DefaultColor
  {
    if selected.Some? && selected.value.id == id then SelectedColor else DefaultColor
  }

  // ---------------------------------------------------------------------------
  // Location ids

  /** `new Set(locations.map(loc => loc.id))` */
  function Ids(ls: seq<Location>): (ids: set<string>)
    ensures forall k :: 0 <= k < |ls| ==> ls[k].id in ids
  {
    if ls == [] then {}
    else
      var init := ls[..|ls| - 1];
      assert forall k :: 0 <= k < |init| ==> init[k] == ls[k];
      Ids(init) + {ls[|ls| - 1].id}
  }

  /** Every id of the set comes from some location. */
  lemma {:induction false} IdWitness(ls: seq<Location>, id: string)
    requires id in Ids(ls)
    ensures exists k :: 0 <= k < |ls| && ls[k].id == id
  {
    var n := |ls| - 1;
    if ls[n].id != id {
      IdWitness(ls[..n], id);
      var k :| 0 <= k < n && ls[..n][k].id == id;
      assert ls[k].id == id;
    }
  }

  lemma {:induction false} IdsSnoc(ls: seq<Location>, i: nat)
    requires i < |ls|
    ensures Ids(ls[..i + 1]) == Ids(ls[..i]) + {ls[i].id}
  {
    assert ls[..i + 1][..i] == ls[..i];
  }

  predicate DistinctIds(ls: seq<Location>) {
    forall i, j :: 0 <= i < j < |ls| ==> ls[i].id != ls[j].id
  }

  /** The table ends up with one entry per distinct id, so it has as many
      entries as there are locations exactly when no id repeats. */
  lemma {:induction false} IdCount(ls: seq<Location>)
    ensures |Ids(ls)| <= |ls|
    ensures |Ids(ls)| == |ls| <==> DistinctIds(ls)
  {
    if ls != [] {
      var n := |ls| - 1;
      var init := ls[..n];
      IdCount(init);
      var last := ls[n].id;
      assert Ids(ls) == Ids(init) + {last};
      if last in Ids(init) {
        assert Ids(ls) == Ids(init);
        IdWitness(init, last);
        var k :| 0 <= k < |init| && init[k].id == last;
        assert ls[k].id == ls[n].id;
      } else {
        assert |Ids(ls)| == |Ids(init)| + 1;
        DistinctSnoc(ls);
      }
    }
  }

  /** A last id not seen before keeps a list free of repeats exactly when its
      prefix is. */
  lemma {:induction false} DistinctSnoc(ls: seq<Location>)
    requires ls != [] && ls[|ls| - 1].id !in Ids(ls[..|ls| - 1])
    ensures DistinctIds(ls) <==> DistinctIds(ls[..|ls| - 1])
  {
    var n := |ls| - 1;
    var init := ls[..n];
    if DistinctIds(init) {
      forall i, j | 0 <= i < j < |ls| ensures ls[i].id != ls[j].id {
        assert init[i] == ls[i];
        if j < n {
          assert init[j] == ls[j];
        }
      }
    }
    if DistinctIds(ls) {
      forall i, j | 0 <= i < j < |init| ensures init[i].id != init[j].id {
        assert init[i] == ls[i] && init[j] == ls[j];
      }
    }
  }

  /** Each listed id with the position of its first location: where the
      marker of that id is created. */
  function FirstPositions(ls: seq<Location>): (firsts: map<string, Coord>)
    ensures firsts.Keys == Ids(ls)
  {
    if ls == [] then map[]
    else
      var n := |ls| - 1;
      var m := FirstPositions(ls[..n]);
      if ls[n].id in m then m else m[ls[n].id := Position(ls[n])]
  }

  lemma {:induction false} FirstPositionsSnoc(ls: seq<Location>, i: nat)
    requires i < |ls|
    ensures var m := FirstPositions(ls[..i]);
      FirstPositions(ls[..i + 1]) == if ls[i].id in m then m else m[ls[i].id := Position(ls[i])]
  {
    assert ls[..i + 1][..i] == ls[..i];
  }

  /** The position recorded for an id is that of the first location with the
      id. */
  lemma {:induction false} FirstPositionIsFirst(ls: seq<Location>, id: string)
    requires id in FirstPositions(ls)
    ensures exists k :: 0 <= k < |ls| && ls[k].id == id && FirstPositions(ls)[id] == Position(ls[k])
                        && forall j :: 0 <= j < k ==> ls[j].id != id
  {
    var n := |ls| - 1;
    var init := ls[..n];
    var m := FirstPositions(init);
    if id in m {
      FirstPositionIsFirst(init, id);
      var k :| 0 <= k < |init| && init[k].id == id && m[id] == Position(init[k])
               && forall j :: 0 <= j < k ==> init[j].id != id;
      assert ls[k] == init[k];
      assert forall j :: 0 <= j < k ==> ls[j] == init[j];
    } else {
      assert forall j :: 0 <= j < n ==> ls[j] == init[j];
    }
  }

  // ---------------------------------------------------------------------------
  // Markers

  /** A marker of the map widget: `handle` stands for the marker object
      itself, `color` for its element's background, `position` for its
      longitude and latitude. */
  datatype Marker = Marker(handle: nat, color: string, position: Coord)

  // ---------------------------------------------------------------------------
  // Route

  /** One route of a directions answer (`MapboxRoute`). */
  datatype Route = Route(coordinates: seq<Coord>, distance: real, duration: real)

  /** What awaiting the directions request gave: the answer's `routes` field,
      which may be missing, or a thrown value. */
  datatype Directions = Answer(routes: Option<seq<Route>>) | Thrown(cause: Thrown)

  datatype RouteInfo = RouteInfo(distance: real, duration: real)

  /** How `drawRoute` ended: a route drawn and reported, no route found, or an
      error whose description is shown to the user. */
  datatype DrawResult = Drawn(info: RouteInfo) | NoRoute | Failed(description: string)

  /** The directions origin from the `[latitude, longitude]` user location:
      longitude first. */
  function Origin(userLocation: (real, real)): (c: Coord)
    ensures c.lng == userLocation.1 && c.lat == userLocation.0
  {
    Coord(userLocation.1, userLocation.0)
  }

  /** A usable answer: a present, non-empty route list. */
  predicate HasRoute(answer: Directions) {
    answer.Answer? && answer.routes.Some? && answer.routes.value != []
  }

  // ---------------------------------------------------------------------------
  // The component

  /** Every marker in the table, and the user marker, is on the map and was
      created before `next`; no two of them are the same marker. */
  ghost predicate Tracked(markers: map<string, Marker>, user: Option<Marker>, shown: set<nat>, next: nat)
  {
    && (forall id :: id in markers ==> markers[id].handle in shown && markers[id].handle < next)
    && (forall a, b :: a in markers && b in markers && a != b ==> markers[a].handle != markers[b].handle)
    && (user.Some? ==>
          && user.value.handle in shown && user.value.handle < next
          && forall id :: id in markers ==> markers[id].handle != user.value.handle)
  }

  /** The first loop of the marker effect, over the table `markers`: the
      markers whose id is not in `current` are taken off the map (`shown`
      loses their handles) and out of the table; the others stay as they
      are. */
  method DropUnlisted(markers: map<string, Marker>, user: Option<Marker>, shown: set<nat>, next: nat,
                      current: set<string>)
    returns (kept: map<string, Marker>, stillShown: set<nat>)
    requires Tracked(markers, user, shown, next)
    ensures Tracked(kept, user, stillShown, next)
    ensures kept.Keys == markers.Keys * current
    ensures forall id :: id in kept ==> kept[id] == markers[id]
    ensures forall id :: id in markers && id !in current ==> markers[id].handle !in stillShown
    ensures stillShown <= shown
  {
    kept, stillShown := markers, shown;
    var pending := markers.Keys;
    while pending != {}
      invariant pending <= markers.Keys
      invariant forall id :: id in kept <==> id in markers && (id in pending || id in current)
      invariant forall id :: id in kept ==> kept[id] == markers[id]
      invariant forall id :: id in markers && id !in pending && id !in current ==>
        markers[id].handle !in stillShown
      invariant stillShown <= shown
      invariant Tracked(kept, user, stillShown, next)
      decreases pending
    {
      var id :| id in pending;
      if id !in current {
        stillShown := stillShown - {kept[id].handle};
        kept := kept - {id};
      }
      pending := pending - {id};
    }
  }

  /** One step of the second loop: the marker of `id` is recoloured, or a new
      marker with the next handle is created at `position` and shown. */
  method PlaceOne(markers: map<string, Marker>, user: Option<Marker>, shown: set<nat>, next: nat,
                  id: string, color: string, position: Coord)
    returns (placedMarkers: map<string, Marker>, nowShown: set<nat>, nowNext: nat)
    requires Tracked(markers, user, shown, next)
    ensures Tracked(placedMarkers, user, nowShown, nowNext)
    ensures placedMarkers.Keys == markers.Keys + {id}
    ensures id in markers ==> placedMarkers[id] == markers[id].(color := color)
    ensures id !in markers ==> placedMarkers[id] == Marker(next, color, position)
    ensures forall k :: k in markers && k != id ==> placedMarkers[k] == markers[k]
    ensures id in markers ==> nowShown == shown && nowNext == next
    ensures id !in markers ==> nowShown == shown + {next} && nowNext == next + 1
  {
    if id in markers {
      placedMarkers, nowShown, nowNext := markers[id := markers[id].(color := color)], shown, next;
    } else {
      var m;
      m, nowShown, nowNext := CreateMarker(shown, next, color, position);
      placedMarkers := markers[id := m];
    }
  }

  /** `new mapboxgl.Marker(el).setLngLat(position).addTo(map)`: a marker with
      the next handle, shown on the map. */
  method CreateMarker(shown: set<nat>, next: nat, color: string, position: Coord)
    returns (m: Marker, nowShown: set<nat>, nowNext: nat)
    ensures m == Marker(next, color, position)
    ensures nowShown == shown + {m.handle} && nowNext == next + 1
  {
    m := Marker(next, color, position);
    nowShown, nowNext := shown + {next}, next + 1;
  }

  /** What the second loop has done once the locations recorded in `placed`
      (id to first position) are through: the table `now` holds the old
      table's ids and those of `placed`, coloured for the selection; old
      markers kept their identity and position, and new ones have handles from
      `next` on and sit at the recorded position. */
  ghost predicate PlacedSoFar(before: map<string, Marker>, now: map<string, Marker>, placed: map<string, Coord>,
                              selected: Option<Location>, next: nat)
  {
    && now.Keys == before.Keys + placed.Keys
    && (forall id :: id in placed ==> now[id].color == MarkerColor(selected, id))
    && (forall id :: id in before ==> now[id].handle == before[id].handle && now[id].position == before[id].position)
    && (forall id :: id in now && id !in before ==> next <= now[id].handle && id in placed && now[id].position == placed[id])
  }

  /** Placing one more location keeps `PlacedSoFar`. */
  lemma {:induction false} PlacedStep(before: map<string, Marker>, now: map<string, Marker>, placed: map<string, Coord>,
                   selected: Option<Location>, next: nat, nowNext: nat,
                   id: string, position: Coord, after: map<string, Marker>)
    requires PlacedSoFar(before, now, placed, selected, next) && next <= nowNext
    requires after.Keys == now.Keys + {id}
    requires id in now ==> after[id] == now[id].(color := MarkerColor(selected, id))
    requires id !in now ==> after[id] == Marker(nowNext, MarkerColor(selected, id), position)
    requires forall k :: k in now && k != id ==> after[k] == now[k]
    ensures PlacedSoFar(before, after, if id in placed then placed else placed[id := position], selected, next)
  {
    var placed' := if id in placed then placed else placed[id := position];
    assert after.Keys == before.Keys + placed'.Keys;
    forall k | k in placed'
      ensures after[k].color == MarkerColor(selected, k)
    {
      if k != id {
        assert k in placed && k in now;
      }
    }
    forall k | k in before
      ensures after[k].handle == before[k].handle && after[k].position == before[k].position
    {
      assert k in now;
    }
    forall k | k in after && k !in before
      ensures next <= after[k].handle && k in placed' && after[k].position == placed'[k]
    {
      if k != id {
        assert k in now;
      }
    }
  }

  /** Where the second loop stands after the first `i` locations: the table
      and the markers on the map stay tracked, `PlacedSoFar` holds for those
      locations, and only new markers (handles from `next` on) were shown. */
  ghost predicate Placing(markers: map<string, Marker>, user: Option<Marker>, shown: set<nat>, next: nat,
                          locations: seq<Location>, selected: Option<Location>, i: nat,
                          placedMarkers: map<string, Marker>, nowShown: set<nat>, nowNext: nat)
    requires i <= |locations|
  {
    && Tracked(placedMarkers, user, nowShown, nowNext)
    && PlacedSoFar(markers, placedMarkers, FirstPositions(locations[..i]), selected, next)
    && (forall h :: h in nowShown && h !in shown ==> next <= h)
    && shown <= nowShown && next <= nowNext
  }

  /** One turn of the second loop, for location `i`. */
  method PlaceNext(markers: map<string, Marker>, user: Option<Marker>, shown: set<nat>, next: nat,
                   locations: seq<Location>, selected: Option<Location>, i: nat,
                   placedMarkers: map<string, Marker>, nowShown: set<nat>, nowNext: nat)
    returns (after: map<string, Marker>, afterShown: set<nat>, afterNext: nat)
    requires i < |locations|
    requires Placing(markers, user, shown, next, locations, selected, i, placedMarkers, nowShown, nowNext)
    ensures Placing(markers, user, shown, next, locations, selected, i + 1, after, afterShown, afterNext)
  {
    var location := locations[i];
    FirstPositionsSnoc(locations, i);
    after, afterShown, afterNext :=
      PlaceOne(placedMarkers, user, nowShown, nowNext, location.id, MarkerColor(selected, location.id), Position(location));
    PlacedStep(markers, placedMarkers, FirstPositions(locations[..i]), selected, next, nowNext,
               location.id, Position(location), after);
  }

  /** The second loop of the marker effect: each listed location's marker is
      recoloured, or created at the location (with the next handle, and shown
      on the map) when its id has none. Markers already in the table keep
      their identity and position; a new one sits at the first location with
      its id. */
  method PlaceListed(markers: map<string, Marker>, user: Option<Marker>, shown: set<nat>, next: nat,
                     locations: seq<Location>, selected: Option<Location>)
    returns (placedMarkers: map<string, Marker>, nowShown: set<nat>, nowNext: nat)
    requires Tracked(markers, user, shown, next)
    ensures Tracked(placedMarkers, user, nowShown, nowNext)
    ensures PlacedSoFar(markers, placedMarkers, FirstPositions(locations), selected, next)
    ensures forall h :: h in nowShown && h !in shown ==> next <= h
    ensures shown <= nowShown && next <= nowNext
  {
    placedMarkers, nowShown, nowNext := markers, shown, next;
    var i := 0;
    assert locations[..0] == [];
    while i < |locations|
      invariant 0 <= i <= |locations|
      invariant Placing(markers, user, shown, next, locations, selected, i, placedMarkers, nowShown, nowNext)
    {
      placedMarkers, nowShown, nowNext :=
        PlaceNext(markers, user, shown, next, locations, selected, i, placedMarkers, nowShown, nowNext);
      i := i + 1;
    }
    assert locations[..i] == locations;
  }

  /** The table `after` (with `shown` the markers on the map) is the marker
      effect's outcome on the table `before` for `locations`: one marker per
      listed id, coloured for the selection; markers of ids still listed keep
      their identity and position, markers of new ids are new (handles from
      `next` on) and sit at the first location with their id, and markers of
      ids no longer listed are off the map. */
  ghost predicate Synced(before: map<string, Marker>, next: nat, after: map<string, Marker>, shown: set<nat>,
                         locations: seq<Location>, selected: Option<Location>)
  {
    && after.Keys == Ids(locations)
    && (forall id :: id in after ==> after[id].color == MarkerColor(selected, id))
    && (forall id :: id in after && id in before ==>
          after[id].handle == before[id].handle && after[id].position == before[id].position)
    && (forall id :: id in after && id !in before ==>
          next <= after[id].handle && after[id].position == FirstPositions(locations)[id])
    && (forall id :: id in before && id !in after ==> before[id].handle !in shown)
  }

  /** The marker effect on a non-empty location list: the first loop, then the
      second. */
  method Reconcile(markers: map<string, Marker>, user: Option<Marker>, shown: set<nat>, next: nat,
                   locations: seq<Location>, selected: Option<Location>)
    returns (after: map<string, Marker>, nowShown: set<nat>, nowNext: nat)
    requires Tracked(markers, user, shown, next)
    ensures Tracked(after, user, nowShown, nowNext)
    ensures Synced(markers, next, after, nowShown, locations, selected)
  {
    var kept, stillShown := DropUnlisted(markers, user, shown, next, Ids(locations));
    after, nowShown, nowNext := PlaceListed(kept, user, stillShown, next, locations, selected);
  }

  /** The drawing part of `drawRoute`: an old route line and its source are
      removed, then the new source and line are added, so the line is drawn
      once, on top. */
  method RedrawRouteLayer(view: MapView)
    requires view.Valid() && (RouteLayerId in view.layers <==> RouteLayerId in view.sources)
    modifies view
    ensures view.Valid() && RouteLayerId in view.layers && RouteLayerId in view.sources
    ensures view.layers == Without(old(view.layers), RouteLayerId) + [RouteLayerId]
    ensures view.sources == old(view.sources) + {RouteLayerId}
  {
    if view.HasLayer(RouteLayerId) {
      view.RemoveLayer(RouteLayerId);
      view.RemoveSource(RouteLayerId);
    }
    view.AddSource(RouteLayerId);
    view.AddLayer(RouteLayerId);
  }

  class LocationMapView {
    /** `map.current` */
    var view: MapView?
    /** `markersRef.current`: location id to marker. */
    var markers: map<string, Marker>
    /** `userMarkerRef.current` */
    var userMarker: Option<Marker>
    /** Handles of the markers currently added to the map. */
    var shown: set<nat>
    /** Every marker created so far has a handle below this one. */
    var nextHandle: nat
    var routeInfo: Option<RouteInfo>
    /** The coordinates handed to the particle stream. */
    var routeCoordinates: Option<seq<Coord>>

    /** The route line and its source come and go together. */
    ghost predicate RouteValid()
      reads this, view
    {
      view != null ==> view.Valid() && (RouteLayerId in view.layers <==> RouteLayerId in view.sources)
    }

    /** Every marker in the table or held as the user marker is on the map,
        and no two of them are the same marker. */
    ghost predicate MarkersValid()
      reads this
    {
      Tracked(markers, userMarker, shown, nextHandle)
    }

    ghost predicate Valid()
      reads this, view
    {
      RouteValid() && MarkersValid()
    }

    constructor ()
      ensures Valid()
      ensures view == null && markers == map[] && userMarker == None && shown == {}
      ensures routeInfo == None && routeCoordinates == None
    {
      view := null;
      markers := map[];
      userMarker := None;
      shown := {};
      nextHandle := 0;
      routeInfo := None;
      routeCoordinates := None;
    }

    /** The mount effect: the map is created once, when its container exists. */
    method Mount(containerReady: bool)
      requires Valid()
      modifies this
      ensures Valid()
      ensures old(view) == null && containerReady ==>
        view != null && fresh(view) && view.layers == [] && view.sources == {}
      ensures old(view) != null || !containerReady ==> view == old(view)
      ensures markers == old(markers) && userMarker == old(userMarker) && shown == old(shown)
      ensures routeInfo == old(routeInfo) && routeCoordinates == old(routeCoordinates)
    {
      if containerReady && view == null {
        view := new MapView();
      }
    }

    /** `new mapboxgl.Marker(el).setLngLat(position).addTo(map)`: a new marker,
        shown on the map. */
    method NewMarker(color: string, position: Coord) returns (m: Marker)
      modifies this`shown, this`nextHandle
      ensures m == Marker(old(nextHandle), color, position)
      ensures nextHandle == old(nextHandle) + 1 && shown == old(shown) + {m.handle}
    {
      m, shown, nextHandle := CreateMarker(shown, nextHandle, color, position);
    }

    /** The marker effect. With no map or no locations nothing happens.
        Otherwise markers of ids no longer listed are taken off the map and out
        of the table; markers of listed ids are kept and recoloured; a marker
        is created for every id without one, at the first location with that
        id. The bounds are fitted (`fitted`) only when the table has one entry
        per location. */
    method SyncMarkers(locations: seq<Location>, selected: Option<Location>) returns (fitted: bool)
      requires MarkersValid()
      modifies this`markers, this`shown, this`nextHandle
      ensures MarkersValid()
      ensures view == null || locations == [] ==>
        markers == old(markers) && shown == old(shown) && !fitted
      ensures view != null && locations != [] ==>
        && Synced(old(markers), old(nextHandle), markers, shown, locations, selected)
        && (fitted <==> |markers| == |locations|)
    {
      if view != null && locations != [] {
        var after, nowShown, nowNext := Reconcile(markers, userMarker, shown, nextHandle, locations, selected);
        markers, shown, nextHandle := after, nowShown, nowNext;
        fitted := |after| == |locations|;
      } else {
        fitted := false;
      }
    }

    /** The route effect's branch for a missing map, user location or
        selection: the route line and its source are taken off the map, the
        user marker is removed, and the route information and coordinates are
        cleared. */
    method ClearRoute()
      requires Valid()
      modifies this, view
      ensures Valid()
      ensures view == old(view) && markers == old(markers)
      ensures view != null ==>
        view.layers == Without(old(view.layers), RouteLayerId)
        && view.sources == old(view.sources) - {RouteLayerId}
      ensures old(userMarker).Some? ==> shown == old(shown) - {old(userMarker).value.handle}
      ensures old(userMarker).None? ==> shown == old(shown)
      ensures userMarker == None && routeInfo == None && routeCoordinates == None
      ensures nextHandle == old(nextHandle)
    {
      if view != null && view.HasLayer(RouteLayerId) {
        view.RemoveLayer(RouteLayerId);
        view.RemoveSource(RouteLayerId);
      }
      if userMarker.Some? {
        shown := shown - {userMarker.value.handle};
      }
      userMarker := None;
      routeInfo := None;
      routeCoordinates := None;
    }

    /** `drawRoute` once the directions answer is in. `request` is the
        origin and destination asked for. Without a route nothing changes.
        Otherwise the first route is used: its coordinates and information are
        stored, the old route line is replaced by a single new one on top, the
        user marker is placed at the origin (created if there was none), and
        the information is reported. */
    method DrawRoute(userLocation: (real, real), destination: Location, answer: Directions)
      returns (request: (Coord, Coord), result: DrawResult)
      requires Valid() && view != null
      modifies this, view
      ensures Valid()
      ensures view == old(view) && markers == old(markers)
      ensures request == (Origin(userLocation), Position(destination))
      ensures answer.Thrown? ==> result == Failed(MessageOr(answer.cause, RouteErrorFallback))
      ensures answer.Answer? && !HasRoute(answer) ==> result == NoRoute
      ensures !HasRoute(answer) ==>
        && view.layers == old(view.layers) && view.sources == old(view.sources)
        && userMarker == old(userMarker) && shown == old(shown) && nextHandle == old(nextHandle)
        && routeInfo == old(routeInfo) && routeCoordinates == old(routeCoordinates)
      ensures HasRoute(answer) ==>
        var route := answer.routes.value[0];
        && routeCoordinates == Some(route.coordinates)
        && routeInfo == Some(RouteInfo(route.distance, route.duration))
        && result == Drawn(RouteInfo(route.distance, route.duration))
        && view.layers == Without(old(view.layers), RouteLayerId) + [RouteLayerId]
        && view.sources == old(view.sources) + {RouteLayerId}
        && userMarker.Some? && userMarker.value.position == request.0
        && (old(userMarker).Some? ==>
              userMarker.value.handle == old(userMarker).value.handle
              && shown == old(shown) && nextHandle == old(nextHandle))
        && (old(userMarker).None? ==>
              userMarker.value.handle == old(nextHandle)
              && shown == old(shown) + {old(nextHandle)} && nextHandle == old(nextHandle) + 1)
    {
      var origin := Origin(userLocation);
      request := (origin, Position(destination));
      match answer
      case Thrown(cause) =>
        result := Failed(MessageOr(cause, RouteErrorFallback));
      case Answer(routes) =>
        if routes.None? || routes.value == [] {
          result := NoRoute;
          return;
        }
        var route := routes.value[0];
        routeCoordinates := Some(route.coordinates);
        RedrawRouteLayer(view);
        if userMarker.None? {
          var marker := NewMarker(UserColor, origin);
          userMarker := Some(marker);
        } else {
          userMarker := Some(userMarker.value.(position := origin));
        }
        var info := RouteInfo(route.distance, route.duration);
        routeInfo := Some(info);
        result := Drawn(info);
    }

    /** The route effect: clear the route when the map, the user location or
        the selection is missing, otherwise draw the route to the selection.
        `request` and `result` are `None` exactly when the route is cleared. */
    method RouteEffect(userLocation: Option<(real, real)>, selected: Option<Location>, answer: Directions)
      returns (request: Option<(Coord, Coord)>, result: Option<DrawResult>)
      requires Valid()
      modifies this, view
      ensures Valid()
      ensures view == old(view) && markers == old(markers)
      ensures request.None? <==> view == null || userLocation.None? || selected.None?
      ensures request.None? <==> result.None?
      ensures request.None? ==>
        && userMarker == None && routeInfo == None && routeCoordinates == None && nextHandle == old(nextHandle)
        && (view != null ==>
              view.layers == Without(old(view.layers), RouteLayerId)
              && view.sources == old(view.sources) - {RouteLayerId})
        && (old(userMarker).Some? ==> shown == old(shown) - {old(userMarker).value.handle})
        && (old(userMarker).None? ==> shown == old(shown))
      ensures request.Some? ==>
        request.value == (Origin(userLocation.value), Position(selected.value))
      ensures request.Some? && answer.Thrown? ==>
        result.value == Failed(MessageOr(answer.cause, RouteErrorFallback))
      ensures request.Some? && answer.Answer? && !HasRoute(answer) ==> result.value == NoRoute
      ensures request.Some? && !HasRoute(answer) ==>
        && view.layers == old(view.layers) && view.sources == old(view.sources)
        && userMarker == old(userMarker) && shown == old(shown) && nextHandle == old(nextHandle)
        && routeInfo == old(routeInfo) && routeCoordinates == old(routeCoordinates)
      ensures request.Some? && HasRoute(answer) ==>
        var route := answer.routes.value[0];
        && routeCoordinates == Some(route.coordinates)
        && routeInfo == Some(RouteInfo(route.distance, route.duration))
        && result.value == Drawn(RouteInfo(route.distance, route.duration))
        && view.layers == Without(old(view.layers), RouteLayerId) + [RouteLayerId]
        && view.sources == old(view.sources) + {RouteLayerId}
        && userMarker.Some? && userMarker.value.position == request.value.0
        && (old(userMarker).Some? ==>
              userMarker.value.handle == old(userMarker).value.handle
              && shown == old(shown) && nextHandle == old(nextHandle))
        && (old(userMarker).None? ==>
              userMarker.value.handle == old(nextHandle)
              && shown == old(shown) + {old(nextHandle)} && nextHandle == old(nextHandle) + 1)
    {
      if view == null || userLocation.None? || selected.None? {
        ClearRoute();
        return None, None;
      }
      var req, res := DrawRoute(userLocation.value, selected.value, answer);
      request, result := Some(req), Some(res);
    }
  }

  /** Drawing a route twice in a row leaves one route line, on top. */
  lemma {:induction false} RedrawKeepsOneLine(layers: seq<string>)
    requires Distinct(layers)
    ensures var once := Without(layers, RouteLayerId) + [RouteLayerId];
      Without(once, RouteLayerId) + [RouteLayerId] == once
  {
    var base := Without(layers, RouteLayerId);
    WithoutIdempotent(layers, RouteLayerId);
    WithoutAppend(base, RouteLayerId);
  }

  lemma {:induction false} WithoutAppend(s: seq<string>, id: string)
    requires id !in s
    ensures Without(s + [id], id) == s
  {
    if s != [] {
      assert (s + [id])[1..] == s[1..] + [id];
      WithoutAppend(s[1..], id);
    } else {
      assert [id][1..] == [];
    }
  }
}
