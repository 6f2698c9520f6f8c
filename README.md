# Locations front end — verified model

This project models the logic inside a small Next.js front end for a list of
places ("locais"). The front end shows the places on a Mapbox map, draws a driving route from
the user's position to the selected place with a stream of particles along it,
and lets the user create, edit and delete places through a form dialog.

The modules follow the program's files:

- `domain.dfy` (`Domain`): the shared shapes. These are the stored location and the
  draft sent to the backend, longitude-then-latitude positions (section 3.1.1
  of RFC 7946), what a rejected promise can throw, and how a promise settles.
- `format.dfy` (`Format`): `formatDistance` and `formatDuration`. Each is paired
  with a parser of the labels it produces and read-back lemmas.
- `api.dfy` (`Api`): the `ApiClientError` constructor and how `apiClient`
  classifies a reply (204 No Content, section 15.3.5 of RFC 9110; OK; error;
  connection failure).
- `map_surface.dfy` (`MapSurface`): the part of the map widget the components
  change, namely the stack of style layers (distinct ids) and the set of data sources.
- `route_particles.dfy` (`RouteParticles`): the particle layer. This covers the particle
  count, segment indexing, interpolation and the perpendicular offset, the
  in-place fill of the position and colour buffers, per-frame positions, and
  the add/remove lifecycle.
- `location_map.dfy` (`LocationMap`): the map component. This covers marker table
  reconciliation, clearing the route, drawing a route and the route effect.
- `locations_hook.dfy` (`LocationsHook`): the `useLocations` fetch-state
  machine.
- `location_form.dfy` (`LocationForm`): the form dialog's reset, field edits
  and submit sequence.
- `locations_view.dfy` (`LocationsView`): the page's handlers, its selection,
  the dialog mode and target, the pending delete, and the requests the page sends out.

Code that updates state step by step is modelled as classes with `modifies`
frames. The map widget, the marker table, the hook's state record, the form
and the page are modelled this way, and so are the particle buffers, which are
arrays filled in place. Pure computations are functions with lemmas.

## Model

| member | source | states |
|---|---|---|
| Domain.MessageOr | src/features/locations/hooks/useLocations.ts:42-45 | an `Error` gives its message; any other thrown value gives the fallback text |
| Api.ApiUrl | src/lib/api.ts:3 | the environment URL when set and non-empty, otherwise `http://localhost:3000`; never empty |
| Api.Join | src/lib/api.ts:11 | `Array.join`: a join of one or more parts is as long as its parts plus one separator between each pair |
| Api.JoinContainsPart | src/lib/api.ts:11 | part i of a join sits at offset (lengths of the earlier parts + i separators) |
| Api.JoinSeparator | src/lib/api.ts:11 | right after every part but the last comes the separator |
| Api.JoinLayout | src/lib/api.ts:11 | a join is laid out as its parts joined by the separator (`JoinedBy`): its length, every part at its offset, and the separator after every part but the last |
| Api.JoinedByTail | src/lib/api.ts:11 | dropping the first part and its separator from such a layout leaves the layout of the remaining parts |
| Api.JoinedByIsJoin | src/lib/api.ts:11 | the layout determines the text: any text laid out as the parts joined by the separator is their join |
| Api.MessageText | src/lib/api.ts:11 | a string message is kept; a missing message gives ""; a one-element list gives that element; an empty list gives ""; a longer list gives its parts in order, each at its offset, with ", " right after each but the last, which by `JoinedByIsJoin` is exactly their join with ", " |
| Api.NewApiClientError | src/lib/api.ts:5-14 | status code and error label are kept, the message is normalised, and the name is "ApiClientError" |
| Api.BuildRequest | src/lib/api.ts:20-29 | the URL is base + endpoint; caller headers are kept; Content-Type is JSON unless the caller set it; method and body pass through |
| Api.ApiClient | src/lib/api.ts:16-56 | iff-characterisation of each result: 204 gives no content; an OK reply with a body gives its data; any other reply whose error fields can be read gives an `ApiClientError` built from them; a network failure, an unreadable body, or an error body whose field access throws (a `null` body) gives a connection error "Erro ao conectar com a API: " + the thrown message or "Erro desconhecido" |
| Api.Ok | src/lib/api.ts:38 | `response.ok` holds exactly for the 2xx status class |
| Api.NoContentIgnoresBody | src/lib/api.ts:31-33 | a 204 reply is classified without reading its body |
| Format.RoundHalfUp | src/lib/mapbox.ts:28 | `Math.round`: the integer k with k - 1/2 <= x < k + 1/2 |
| Format.RoundHalfUpUnique | src/lib/mapbox.ts:28 | that integer is the only one in the half-open window |
| Format.NatToString | src/lib/mapbox.ts:28-30 | a natural number is written as one or more decimal digits, with a leading zero only for 0 |
| Format.IntToString | src/lib/mapbox.ts:28 | an integer is written ending in a digit, all digits when it is not negative |
| Format.ParseNatToString | src/lib/mapbox.ts:28 | the decimal text of a natural number reads back as that number |
| Format.ParseIntToString | src/lib/mapbox.ts:28 | the decimal text of an integer, with its sign, reads back as that integer |
| Format.FormatDistance | src/lib/mapbox.ts:26-31 | below 1000 m the label ends in a digit and "m"; from 1000 m on it ends in "<digit>.<digit>km" |
| Format.MetresLabelReadsBack | src/lib/mapbox.ts:28 | a metre label "<k>m" reads back as k, negative k included |
| Format.KilometresLabelReadsBack | src/lib/mapbox.ts:30 | a kilometre label built from t tenths reads back as t tenths |
| Format.FormatDistanceReadsBack | src/lib/mapbox.ts:26-31 | below 1000 the label reads back as "<k>m" with k the nearest metre count; from 1000 on as "<d>.<d>km" within 0.05 km of the distance |
| Format.DistanceJustBelowThreshold | src/lib/mapbox.ts:27-28 | 999.5 <= m < 1000 shows "1000m": the threshold is tested before rounding |
| Format.DistanceAtThreshold | src/lib/mapbox.ts:27-30 | 1000 m shows "1.0km" |
| Format.DurationMinutes | src/lib/mapbox.ts:34 | the minute count is seconds/60 rounded half up |
| Format.FormatDuration | src/lib/mapbox.ts:33-41 | every label ends in a digit and "min", and has an "h" exactly when the rounded minutes reach 60 |
| Format.MinutesLabelReadsBack | src/lib/mapbox.ts:36-37 | a minute label "<m>min" reads back as m and is never mistaken for an hour label |
| Format.HoursLabelReadsBack | src/lib/mapbox.ts:38-40 | an hour label "<h>h <r>min" reads back as h hours and r minutes |
| Format.FormatDurationReadsBack | src/lib/mapbox.ts:33-41 | below 60 rounded minutes the label reads back as "<m>min"; otherwise as "<h>h <r>min" with h*60 + r = minutes, r < 60 and h >= 1 |
| Format.DurationRoundsBeforeThreshold | src/lib/mapbox.ts:34-40 | 3570 s shows "1h 0min": rounding precedes the threshold |
| MapSurface.Without | src/components/client/Map.tsx:135-137 | every occurrence of the id is removed and nothing else; the order is kept; a list without repeats stays without repeats |
| MapSurface.WithoutIdempotent | src/components/client/RouteParticles.tsx:180-184 | removing an id twice is the same as removing it once |
| MapSurface.WithoutPresent | src/components/client/Map.tsx:135-137 | removing a present id from a list without repeats drops exactly one entry |
| MapSurface.MapView.constructor | src/components/client/Map.tsx:48-53 | a new map has no layers and no sources |
| MapSurface.MapView.AddLayer | src/components/client/Map.tsx:185-198 | the new layer goes on top; the sources are unchanged |
| MapSurface.MapView.RemoveLayer | src/components/client/Map.tsx:136 | exactly that layer leaves the stack; the sources are unchanged |
| MapSurface.MapView.AddSource | src/components/client/Map.tsx:180-183 | the source is added; the layers are unchanged |
| MapSurface.MapView.RemoveSource | src/components/client/Map.tsx:137 | the source is removed; the layers are unchanged |
| RouteParticles.ParticleCount | src/components/client/RouteParticles.tsx:33-34 | 150 particles below 768 px width, 500 otherwise |
| RouteParticles.Frac | src/components/client/RouteParticles.tsx:129 | `x % 1` for x >= 0 lies in [0,1) and differs from x by a whole number |
| RouteParticles.Progress | src/components/client/RouteParticles.tsx:124-129 | progress lies in [0,1) and is 0 at the start |
| RouteParticles.SegmentStart | src/components/client/RouteParticles.tsx:130 | the start index is inside the route; with two or more points a next point exists; progress 0 starts at point 0 |
| RouteParticles.SegmentEnd | src/components/client/RouteParticles.tsx:131 | the end index is inside the route: the next point, or the last point itself |
| RouteParticles.InitialIndex | src/components/client/RouteParticles.tsx:52-53 | every particle starts on a route point, never on the last one of a longer route, and particle 0 starts on point 0 |
| RouteParticles.Perpendicular | src/components/client/RouteParticles.tsx:140-145 | a zero-length segment gives (0,0) with no division; otherwise a non-zero vector orthogonal to the segment |
| RouteParticles.ParticleCoord | src/components/client/RouteParticles.tsx:129-151 | with no cross-track offset the particle's longitude lies between its segment's end points, and so does its latitude before the latitude offset is added |
| RouteParticles.ZeroLengthSegment | src/components/client/RouteParticles.tsx:140-151 | on a zero-length segment the particle sits on the point, moved only by offsetY in latitude |
| RouteParticles.SinglePointRoute | src/components/client/RouteParticles.tsx:130-151 | a one-point route puts every particle on that point plus its latitude offset |
| RouteParticles.AnimationStart | src/components/client/RouteParticles.tsx:124-151 | at elapsed time 0 every particle is at the first route point, moved only by its own offsets |
| RouteParticles.OnRoutePoint | src/components/client/RouteParticles.tsx:129-151 | with no fraction of a segment left the particle sits on its route point, moved only by its offsets |
| RouteParticles.Flatten | src/components/client/RouteParticles.tsx:45 | the flat buffer has three slots per particle |
| RouteParticles.FlattenAt | src/components/client/RouteParticles.tsx:155-157 | slot 3i+k of the buffer is coordinate k of particle i and lies inside the buffer |
| RouteParticles.InitialPoints | src/components/client/RouteParticles.tsx:51-59 | one starting point per particle |
| RouteParticles.FramePoints | src/components/client/RouteParticles.tsx:128-153 | one frame position per particle |
| RouteParticles.ColorBuffer | src/components/client/RouteParticles.tsx:47 | the colour buffer has three slots per particle |
| RouteParticles.ColorAt | src/components/client/RouteParticles.tsx:73-76 | slots 3i..3i+2 hold particle i's tint (0, 0.4·blue, blue) |
| RouteParticles.Speed | src/components/client/RouteParticles.tsx:65 | a draw in [0,1) gives a speed in [0.8, 1.3) |
| RouteParticles.Size | src/components/client/RouteParticles.tsx:67 | a draw in [0,1) gives a size in [1.05, 1.75) on mobile and [1.8, 3.0) otherwise |
| RouteParticles.CrossOffset | src/components/client/RouteParticles.tsx:69-70 | a draw in [0,1) gives a cross-track offset in [-0.0000075, 0.0000075) |
| RouteParticles.LatitudeOffset | src/components/client/RouteParticles.tsx:71 | a draw in [0,1) gives a latitude offset in [-0.000004, 0.000004) |
| RouteParticles.Blue | src/components/client/RouteParticles.tsx:73 | a draw in [0,1) gives a blue intensity in [0.7, 1.0) |
| RouteParticles.Tint | src/components/client/RouteParticles.tsx:74-76 | three channels: no red, green at 0.4 of the blue, and the blue in [0.7, 1.0) for a draw in [0,1) |
| RouteParticles.SpeedsAt | src/components/client/RouteParticles.tsx:65 | particle i's speed is 0.5 times draw 5i plus 0.8 |
| RouteParticles.SizesAt | src/components/client/RouteParticles.tsx:67 | particle i's size comes from draw 5i+1 and the mobile flag |
| RouteParticles.OffsetsAt | src/components/client/RouteParticles.tsx:69-71 | slots 2i and 2i+1 hold particle i's cross-track and latitude offsets, from draws 5i+2 and 5i+3 |
| RouteParticles.PutSlot | src/components/client/RouteParticles.tsx:61-63 | after the write the buffer's first 3i+3 slots are the earlier 3i slots followed by the point's x, y, z, and the later slots are unchanged |
| RouteParticles.PutTint | src/components/client/RouteParticles.tsx:73-76 | after the write the buffer's first 3i+3 slots are the earlier 3i slots followed by the tint (0, 0.4·blue, blue), and the later slots are unchanged |
| RouteParticles.PutOne | src/components/client/RouteParticles.tsx:65-67 | after the write the first i+1 slots are the earlier i slots followed by the value, and the later slots are unchanged |
| RouteParticles.PutPair | src/components/client/RouteParticles.tsx:69-71 | after the write the first 2i+2 slots are the earlier 2i slots followed by the two offsets, and the later slots are unchanged |
| RouteParticles.PlaceParticle | src/components/client/RouteParticles.tsx:51-77 | one turn of the loop extends every buffer's filled prefix by particle i's entries and leaves every later slot unchanged |
| RouteParticles.PlaceParticles | src/components/client/RouteParticles.tsx:51-77 | after the loop, positions are the flattened initial points and every particle's speed, size, offsets and colour come from its own five random draws |
| RouteParticles.ParticleLayer.OnAdd | src/components/client/RouteParticles.tsx:40-77 | the layer allocates fresh buffers sized by the particle count and fills them as `PlaceParticles` states |
| RouteParticles.MoveParticle | src/components/client/RouteParticles.tsx:128-157 | one turn of the render loop extends the position buffer's filled prefix by particle i's frame position and leaves every later slot unchanged |
| RouteParticles.ParticleLayer.Render | src/components/client/RouteParticles.tsx:112-158 | the position buffer becomes the flattened frame positions for the elapsed time; nothing else changes |
| RouteParticles.RemoveParticleLayer | src/components/client/RouteParticles.tsx:180-184 | the particle layer is off the map afterwards and nothing else changes |
| RouteParticles.ShowParticles | src/components/client/RouteParticles.tsx:16-34 | with no map or an empty route only the old layer is removed; otherwise the old layer is replaced by one fresh layer on top, sized for the viewport |
| RouteParticles.RemoveTwice | src/components/client/RouteParticles.tsx:180-184 | running the cleanup twice is harmless |
| LocationMap.Position | src/components/client/Map.tsx:108 | a marker sits at (longitude, latitude) |
| LocationMap.MarkerColor | src/components/client/Map.tsx:80-81 | blue "#3b82f6" exactly for the selected id, red "#ef4444" otherwise |
| LocationMap.Ids | src/components/client/Map.tsx:69 | every location's id is in the set |
| LocationMap.IdWitness | src/components/client/Map.tsx:69 | every id in the set comes from some location |
| LocationMap.IdsSnoc | src/components/client/Map.tsx:69 | one more location adds exactly its id |
| LocationMap.IdCount | src/components/client/Map.tsx:124 | there are at most as many ids as locations, and equally many exactly when no id repeats, so bounds are fitted only for lists without repeated ids |
| LocationMap.FirstPositions | src/components/client/Map.tsx:78-85 | the recorded ids are exactly the listed ids |
| LocationMap.FirstPositionIsFirst | src/components/client/Map.tsx:83-108 | the position recorded for an id is that of the first location with that id |
| LocationMap.Origin | src/components/client/Map.tsx:148 | the user's [lat, lng] pair becomes (lng, lat) |
| LocationMap.DropUnlisted | src/components/client/Map.tsx:71-76 | the table keeps exactly the listed ids with their markers unchanged; dropped markers are off the map; consistency is kept |
| LocationMap.PlaceOne | src/components/client/Map.tsx:79-121 | an existing marker only changes colour; a missing one is created with the next handle at the position and shown; other entries are unchanged |
| LocationMap.PlacedStep | src/components/client/Map.tsx:78-122 | one more location keeps the second loop's invariant |
| LocationMap.PlaceNext | src/components/client/Map.tsx:79-121 | one turn of the second loop moves its invariant from i locations to i+1 |
| LocationMap.PlaceListed | src/components/client/Map.tsx:78-122 | every listed id has a marker coloured for the selection; old markers keep identity and position; new markers have new handles and sit at their id's first location |
| LocationMap.Reconcile | src/components/client/Map.tsx:69-122 | the table afterwards is `Synced` with the list: one entry per listed id, recoloured, survivors unchanged in identity and position, new ones new, removed ones off the map |
| LocationMap.LocationMapView.constructor | src/components/client/Map.tsx:35-43 | no map, no markers, no user marker, no route |
| LocationMap.LocationMapView.Mount | src/components/client/Map.tsx:45-55 | a map is created once, only when the container exists and no map exists yet |
| LocationMap.CreateMarker | src/components/client/Map.tsx:107-118 | a new marker gets the next handle, the given colour and position; its handle joins the shown set and the next handle moves on by one |
| LocationMap.LocationMapView.NewMarker | src/components/client/Map.tsx:107-118 | a new marker gets the next handle and is put on the map; nothing else changes |
| LocationMap.LocationMapView.SyncMarkers | src/components/client/Map.tsx:66-131 | with no map or no locations nothing changes and nothing is fitted; otherwise the table is `Synced` with the list and bounds are fitted exactly when the table has one entry per location |
| LocationMap.LocationMapView.ClearRoute | src/components/client/Map.tsx:134-143 | the route layer and source are gone, the user marker is off the map and cleared, and the route info and coordinates are cleared; the marker table and the next handle are unchanged |
| LocationMap.RedrawRouteLayer | src/components/client/Map.tsx:176-198 | an old route line and source are removed and new ones added: the line is once in the stack, on top, and the source is present |
| LocationMap.LocationMapView.DrawRoute | src/components/client/Map.tsx:146-243 | asks for (user lng/lat, destination lng/lat); with no route nothing changes, and a thrown answer reports its message or the fallback; otherwise routes[0] supplies coordinates and info, a single route line ends on top, and the user marker is moved to the origin keeping its handle, or created with the next handle, which alone joins the shown markers |
| LocationMap.LocationMapView.RouteEffect | src/components/client/Map.tsx:133-250 | clears exactly when the map, user location or selection is missing, with everything `ClearRoute` states; otherwise it asks for the route to the selection with everything `DrawRoute` states about the answer |
| LocationMap.RedrawKeepsOneLine | src/components/client/Map.tsx:176-198 | drawing twice leaves the same single route line on top |
| LocationsHook.Started | src/features/locations/hooks/useLocations.ts:23-27 | a start raises the matching flag and clears the error, keeping the list and the other flag |
| LocationsHook.Settled | src/features/locations/hooks/useLocations.ts:29-47 | after the request both flags are down; the error is present exactly on failure; success gives the data, failure an empty list and the message or "Erro ao carregar locais" |
| LocationsHook.TransitionsKeepConsistent | src/features/locations/hooks/useLocations.ts:22-47 | an error is only ever shown with no list and nothing in flight |
| LocationsHook.LocationsState.constructor | src/features/locations/hooks/useLocations.ts:15-20 | initial state: no locations, loading, not refetching, no error |
| LocationsHook.LocationsState.Start | src/features/locations/hooks/useLocations.ts:23-27 | the state becomes `Started` of the old state |
| LocationsHook.LocationsState.Settle | src/features/locations/hooks/useLocations.ts:30-46 | the state becomes `Settled` of the outcome |
| LocationsHook.LocationsState.FetchLocations | src/features/locations/hooks/useLocations.ts:22-48 | the in-flight state is `Started`, the final state is `Settled`, and consistency holds throughout |
| LocationsHook.LocationsState.Refetch | src/features/locations/hooks/useLocations.ts:56 | always refetch mode: the list and the loading flag stay while the request is in flight |
| LocationForm.Read | src/components/client/LocationFormModal.tsx:73 | exactly the two coordinate entries are numbers |
| LocationForm.ReadDetermines | src/components/client/LocationFormModal.tsx:22-28 | a form record is determined by its five entries |
| LocationForm.DraftOf | src/components/client/LocationFormModal.tsx:34-40 | the form takes the location's five fields |
| LocationForm.Stored | src/features/locations/types/location.ts:1-16 | a draft stored under an id copies back to the same draft |
| LocationForm.DraftOfStoredRoundTrip | src/components/client/LocationFormModal.tsx:34-40 | copying a location into the form loses only its id |
| LocationForm.ResetDraft | src/components/client/LocationFormModal.tsx:32-50 | edit mode with a location copies it; otherwise the form is blank at (-22.9068, -43.1729), the initial form |
| LocationForm.Changed | src/components/client/LocationFormModal.tsx:67-75 | the named entry holds the text, parsed for a coordinate; every other entry is unchanged |
| LocationForm.ChangeIdempotent | src/components/client/LocationFormModal.tsx:70-74 | the same edit twice is the same edit once |
| LocationForm.ChangesCommute | src/components/client/LocationFormModal.tsx:70-74 | edits of different inputs commute |
| LocationForm.SubmitEnded | src/components/client/LocationFormModal.tsx:57-64 | the dialog closes exactly on success; on failure it shows the message or "Erro ao salvar local" |
| LocationForm.FormState.constructor | src/components/client/LocationFormModal.tsx:22-30 | blank form, not loading, no error |
| LocationForm.FormState.Reset | src/components/client/LocationFormModal.tsx:32-50 | the form becomes `ResetDraft` |
| LocationForm.FormState.HandleChange | src/components/client/LocationFormModal.tsx:67-75 | the form becomes `Changed` of the old form |
| LocationForm.FormState.Submit | src/components/client/LocationFormModal.tsx:52-65 | the form record is submitted while loading with no error; it ends as `SubmitEnded` with loading down |
| LocationsView.UserLocation | src/components/client/LocationsView.tsx:33-36 | [latitude, longitude] exactly when both are known |
| LocationsView.RouteStartsAtUser | src/components/client/LocationsView.tsx:33-36 | the route's origin is the user's (longitude, latitude) |
| LocationsView.SubmitRequest | src/components/client/LocationsView.tsx:92-96 | create mode creates the draft; edit mode updates the edited location's id, or fails when there is none |
| LocationsView.FailedSaveClosesDialog | src/components/client/LocationsView.tsx:92-112 | as written, a save that fails, whatever it throws, closes the dialog and shows no error |
| LocationsView.DialogReportsSave | src/components/client/LocationFormModal.tsx:57-64 | corrected: the dialog closes exactly on success and otherwise shows the save error |
| LocationsView.LocationsPage.constructor | src/components/client/LocationsView.tsx:25-31 | no selection, dialog closed in create mode, nothing edited or pending, no requests |
| LocationsView.LocationsPage.Select | src/components/client/LocationsView.tsx:282 | the card's location becomes the selection |
| LocationsView.LocationsPage.StartRoute | src/components/client/LocationsView.tsx:38-44 | the user's position is requested only when a location is selected |
| LocationsView.LocationsPage.CancelRoute | src/components/client/LocationsView.tsx:46-51 | the selection is cleared |
| LocationsView.LocationsPage.CreateNew | src/components/client/LocationsView.tsx:53-57 | the dialog opens in create mode with nothing to edit |
| LocationsView.LocationsPage.EditLocation | src/components/client/LocationsView.tsx:59-63 | the dialog opens in edit mode on the location |
| LocationsView.LocationsPage.CloseModal | src/components/client/LocationsView.tsx:385-388 | the dialog closes with nothing to edit |
| LocationsView.LocationsPage.AskDelete | src/components/client/LocationsView.tsx:65-67 | the location awaits confirmation |
| LocationsView.LocationsPage.CancelDelete | src/components/client/LocationsView.tsx:442 | nothing awaits confirmation |
| LocationsView.LocationsPage.ConfirmDelete | src/components/client/LocationsView.tsx:69-90 | with nothing pending it is a no-op; otherwise the confirmation is dismissed and the delete request is sent |
| LocationsView.LocationsPage.DeleteSucceeded | src/components/client/LocationsView.tsx:78-83 | the selection is cleared only when the selection seen at confirmation was the deleted id; the list is refetched |
| LocationsView.LocationsPage.Submit | src/components/client/LocationsView.tsx:92-112 | sends `SubmitRequest`; from an open dialog a request is always sent |
| LocationsView.LocationsPage.SaveSucceeded | src/components/client/LocationsView.tsx:99-103 | the dialog closes, nothing is edited, and the list is refetched |
| LocationsView.LocationsPage.SubmitDialog | src/components/client/LocationsView.tsx:92-112 | corrected flow: success refetches and closes; failure keeps the dialog open on the same target with the save error |

## Left out

- Rendering: all JSX, animations, toasts, popups, DOM element styling and hover listeners. The route info panel's formatting is covered by `Format`.
- `getRoute` and the other location service calls are network calls. Their results are inputs (`Directions`, `Fetched`, `Settlement`, `FetchOutcome`).
- Three.js/WebGL work: the scene, material, renderer, projection matrix and repaint. The particle layer's `onRemove` disposal is also left out.
- `mapboxgl.MercatorCoordinate.fromLngLat` is a function parameter (`Projection`). `Math.sqrt` is a parameter constrained by `IsSqrt`. The `Math.random` draws are a sequence of values in [0,1).
- Floating point: numbers are real numbers, so Float32 rounding, NaN from `parseFloat`, and the exponent form of `toFixed` for huge values are not modelled.
- RouteParticles.Perpendicular: states the zero guard and orthogonality, not that the vector has unit length (the division by the square root).
- RouteParticles.ParticleLayer.Render: the guard for missing particles or coordinates cannot fail once the layer is built, so it is not modelled.
- Elapsed time is an input `elapsed >= 0`, not a clock.
- Async ordering and races are not modelled. For example, `drawRoute` can resolve after the selection changed, fetches can overlap, and `drawRoute` can wait for the map's `load` event. Each effect runs to completion in one step.
- The unmount cleanup of the map component (Map.tsx:57-63) is not modelled: it tears everything down.
- Marker objects are modelled as values with a handle. The handle stands for the marker object, and `shown` is the set of handles on the map. Aliasing of the marker objects themselves is not represented. "Keeps its marker" means "keeps its handle".
- Popups, marker elements and the `fitBounds` padding and animation options are presentation. Fitting the bounds is reported as a flag.
- LocationForm.FormState.HandleChange: the input's `name` attribute is one of the five field names. An input with another name would add a property, which the form does not have.
- HTML input constraints (`required`, `min`, `max`, `minLength`) are enforced by the browser, not by this code.
- The location service wrappers and the card component hold no logic. `src/features/locations/services/locationService.ts` and `src/components/client/LocationCard.tsx` are not part of this model.
- The particle position follows the code where the design description differs. The final latitude adds `offsetY` straight to the latitude (RouteParticles.tsx:151) instead of along the route.

## Findings

| source | as written | input that shows it | evidently intended | confidence | as-written member | corrected member |
|---|---|---|---|---|---|---|
| src/components/client/LocationsView.tsx:92-112 | `handleSubmit` starts the create/update request but neither awaits nor returns it, so the form's `await onSubmit(formData)` resolves at once and `onClose` runs whatever the request does | create mode; the create request rejects with `Error("network down")` | the form awaits the request: it closes on success and shows the save error (its `error` cell, "Erro ao salvar local" fallback) on failure | medium, not executed | LocationsView.FailedSaveClosesDialog | LocationsView.DialogReportsSave |
