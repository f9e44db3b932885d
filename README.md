# Weather tile zoom policy and vector map symbol primitives (Dafny model)

This project models two small pieces of the OsmAnd core map library.

**Weather tile resource provider.** Raw weather data comes in two layers: Low, rasterized at zoom 4, and High, rasterized at zoom 7. Each layer can serve requested zooms within a tolerance. Low covers 2 levels below and 2 above its zoom. High covers 0 below and 5 above. `WeatherLayerByZoom` picks the layer that backs a requested zoom. It checks Low first, then High, and returns Undefined when neither window holds the zoom. The model states the resulting windows exactly ([2, 6] for Low, [7, 12] for High) for every integer zoom. It also proves these facts:

- the chosen layer covers the zoom;
- the two windows are disjoint, so the priority order never decides;
- each layer's own zoom maps back to that layer;
- zooming in never moves from High back to Low.

The request objects (`ValueRequest`, `TileRequest`, `DownloadGeoTileRequest`) are classes. Their default constructors set the documented defaults. A static `Copy` overwrites every field of the destination in place. `Clone` returns a fresh object equal to the source. The cancellation token (`QueryController`) is shared by reference, not duplicated. `Data`, the result of a tile request, is a class with fields that are set once.

**Vector map symbol.** A `VectorMapSymbol` carries a primitive type and an optional shared `VerticesAndIndices` buffer, which can be set, read and released. Three static generators allocate a vertex array, fill it in a loop through an advancing write position, and install it on the symbol:

- the circle is a triangle fan: a centre, `pointsCount` rim points, and a last vertex that copies the x and z of the first rim point;
- the ring is a line loop of `pointsCount` rim points;
- the 3D model becomes triangles whose vertices have normals. Position and normal are copied verbatim. The colour comes from the vertex itself when it has no material. Otherwise it is the custom colour registered under the material's name, falling back to the material's colour.

Each generator is proved against a specification function (`CircleVertices`, `CirclePoints`, `VertexColor`). The structural facts (vertex counts, elevation, colours, the fan closure) are proved about those functions. Float coordinates stay symbolic: a rim coordinate is the term "radius times cos (or sin) of the angle of point i out of n", never a number.

Files: `CommonTypes.dfy` (zoom levels, points, tile ids, colours), `WeatherTileResourceProvider.dfy`, `VectorMapSymbol.dfy`.

## Model

| member | source | states |
|---|---|---|
| `WeatherTileResourceProvider.GeoTileZoom` | src/Map/WeatherTileResourceProvider.cpp:80-83 | the geo tile zoom equals the Low layer's tile zoom (4) |
| `WeatherTileResourceProvider.TileZoom` | src/Map/WeatherTileResourceProvider.cpp:85-96 | Low gives 4, High gives 7, any other layer gives 4 |
| `WeatherTileResourceProvider.MaxMissingDataZoomShift` | src/Map/WeatherTileResourceProvider.cpp:116-124 | over-zoom tolerance: 2 for Low, 5 for High, 0 otherwise |
| `WeatherTileResourceProvider.MaxMissingDataUnderZoomShift` | src/Map/WeatherTileResourceProvider.cpp:126-134 | under-zoom tolerance: 2 for Low, 0 for High, 0 otherwise |
| `WeatherTileResourceProvider.WeatherLayerByZoom` | src/Map/WeatherTileResourceProvider.cpp:98-114 | for every integer zoom: Low iff 2 <= zoom <= 6, High iff 7 <= zoom <= 12, Undefined iff zoom < 2 or zoom > 12 |
| `WeatherTileResourceProvider.WeatherLayerByZoomMatchesWindows` | src/Map/WeatherTileResourceProvider.cpp:101-113 | a returned data layer has the zoom inside its [tile zoom - under shift, tile zoom + over shift] window, and Undefined is returned exactly when neither the Low nor the High window holds the zoom |
| `WeatherTileResourceProvider.WeatherLayerByZoomChoosesCoveringLayer` | src/Map/WeatherTileResourceProvider.cpp:101-111 | any data layer whose window holds the zoom is the layer returned, so the Low-before-High order never changes the answer |
| `WeatherTileResourceProvider.WeatherLayerOfTileZoom` | src/Map/WeatherTileResourceProvider.cpp:85-114 | each data layer's own tile zoom is served by that layer |
| `WeatherTileResourceProvider.WeatherLayerByZoomMonotone` | src/Map/WeatherTileResourceProvider.cpp:98-114 | of two covered zooms, the larger never maps to Low while the smaller maps to High |
| `WeatherTileResourceProvider.ValueRequest.constructor` | src/Map/WeatherTileResourceProvider.cpp:151-156 | default request: point (0, 0), InvalidZoomLevel, band 0, no token |
| `WeatherTileResourceProvider.ValueRequest.CopyOf` | src/Map/WeatherTileResourceProvider.cpp:158-161 | the copy constructor yields a request with all fields equal to the source's |
| `WeatherTileResourceProvider.ValueRequest.Copy` | src/Map/WeatherTileResourceProvider.cpp:167-173 | the destination gets the source's prior point31, zoom, band and token object; only the destination changes, so copying a request onto itself leaves it unchanged |
| `WeatherTileResourceProvider.ValueRequest.Clone` | src/Map/WeatherTileResourceProvider.cpp:175-178 | a fresh request whose fields all equal this one's, sharing its token |
| `WeatherTileResourceProvider.TileRequest.constructor` | src/Map/WeatherTileResourceProvider.cpp:180-187 | default request: Raster, zero tile id, InvalidZoomLevel, no bands, no token, version 0, ignoreVersion false |
| `WeatherTileResourceProvider.TileRequest.CopyOf` | src/Map/WeatherTileResourceProvider.cpp:189-192 | the copy constructor yields a request with all seven fields equal to the source's |
| `WeatherTileResourceProvider.TileRequest.Copy` | src/Map/WeatherTileResourceProvider.cpp:198-207 | the destination gets the source's prior weatherType, tileId, zoom, bands, token object, version and ignoreVersion; only the destination changes, so copying a request onto itself leaves it unchanged |
| `WeatherTileResourceProvider.TileRequest.Clone` | src/Map/WeatherTileResourceProvider.cpp:209-212 | a fresh request whose seven fields all equal this one's, sharing its token |
| `WeatherTileResourceProvider.DownloadGeoTileRequest.constructor` | src/Map/WeatherTileResourceProvider.cpp:214-217 | default request: forceDownload false, no token |
| `WeatherTileResourceProvider.DownloadGeoTileRequest.CopyOf` | src/Map/WeatherTileResourceProvider.cpp:219-222 | the copy constructor yields a request with all fields equal to the source's |
| `WeatherTileResourceProvider.DownloadGeoTileRequest.Copy` | src/Map/WeatherTileResourceProvider.cpp:228-234 | the destination gets the source's prior topLeft, bottomRight, forceDownload and token object; only the destination changes, so copying a request onto itself leaves it unchanged |
| `WeatherTileResourceProvider.DownloadGeoTileRequest.Clone` | src/Map/WeatherTileResourceProvider.cpp:236-239 | a fresh request whose fields all equal this one's, sharing its token |
| `WeatherTileResourceProvider.Data.constructor` | src/Map/WeatherTileResourceProvider.cpp:241-255 | the result holds exactly the given tile id, zoom, alpha presence, density factor, image reference and contour map; the contour map defaults to empty |
| `VectorMapSymbol.VectorMapSymbol.constructor` | src/Map/VectorMapSymbol.cpp:5-13 | a new symbol has no buffer, primitive type Invalid, scale type Raw and scale 1 |
| `VectorMapSymbol.VerticesAndIndices.constructor` | src/Map/VectorMapSymbol.cpp:20-31 | a new buffer has no position, vertices, normals, indices or part sizes; both counts are 0; zoom is InvalidZoomLevel; isDenseObject is false |
| `VectorMapSymbol.VectorMapSymbol.GetVerticesAndIndices` | src/Map/VectorMapSymbol.cpp:66-71 | returns the installed buffer (or null), shared rather than copied |
| `VectorMapSymbol.VectorMapSymbol.SetVerticesAndIndices` | src/Map/VectorMapSymbol.cpp:73-78 | afterwards the getter returns exactly the buffer passed; no other field changes |
| `VectorMapSymbol.VectorMapSymbol.ReleaseVerticesAndIndices` | src/Map/VectorMapSymbol.cpp:80-85 | afterwards the getter returns null; no other field changes |
| `VectorMapSymbol.CirclePoints` | src/Map/VectorMapSymbol.cpp:120-132 | the first n rim points, as the loop emits them: n vertices, point i at (radius cos, absent elevation, radius sin) of angle i out of pointsCount, each with the given colour |
| `VectorMapSymbol.CircleVertices` | src/Map/VectorMapSymbol.cpp:107-139 | pointsCount + 2 vertices; vertex 0 has x = z = 0; rim vertex i is point i - 1; every vertex has absent elevation and the given colour; the last vertex's x and z equal vertex 1's |
| `VectorMapSymbol.CircleContainsRing` | src/Map/VectorMapSymbol.cpp:120-132 | the rim of the fan, vertices 1 to pointsCount, is exactly the ring of the same size (the pointsCount points CirclePoints gives) |
| `VectorMapSymbol.VectorMapSymbol.GenerateCirclePrimitive` | src/Map/VectorMapSymbol.cpp:87-142 | defaults: opaque white, 360 points, radius 1; with 0 points: buffer released, primitive type unchanged; otherwise TriangleFan and a fresh buffer holding exactly CircleVertices (pointsCount + 2 vertices, allocated without wrap-around), verticesCount = array length, no normals, no indices, not dense; scale untouched |
| `VectorMapSymbol.VectorMapSymbol.GenerateRingLinePrimitive` | src/Map/VectorMapSymbol.cpp:144-184 | defaults: opaque white, 360 points, radius 1; with 0 points: buffer released, primitive type unchanged; otherwise LineLoop and a fresh buffer holding exactly CirclePoints of all pointsCount points, no normals, no indices, not dense; scale untouched |
| `VectorMapSymbol.AllocatedCircleVertexCount` | src/Map/VectorMapSymbol.cpp:108-109 | the allocated vertex count as written, in 32-bit unsigned arithmetic: it equals pointsCount + 2 exactly when pointsCount < 2^32 - 2, and is at most 1 otherwise |
| `VectorMapSymbol.CircleAllocationWraps` | src/Map/VectorMapSymbol.cpp:108-139 | for pointsCount 2^32 - 2 or 2^32 - 1 the wrapped allocation is smaller than the fan of pointsCount + 2 vertices the generator writes |
| `VectorMapSymbol.VertexColor` | src/Map/VectorMapSymbol.cpp:213-220 | material index -1 gives the vertex's own colour; otherwise the custom colour under the material's name if present, else the material's colour |
| `VectorMapSymbol.NoCustomColorsKeepModelColors` | src/Map/VectorMapSymbol.cpp:213-220 | with an empty custom colour table every vertex keeps the colour the model gives it |
| `VectorMapSymbol.CustomColorOverridesMaterial` | src/Map/VectorMapSymbol.cpp:217-219 | registering a custom colour under a vertex's material name makes that vertex take it |
| `VectorMapSymbol.CustomColorsIgnoredWithoutMaterial` | src/Map/VectorMapSymbol.cpp:213-214 | custom colours never affect a vertex without a material |
| `VectorMapSymbol.VectorMapSymbol.GenerateModel3DPrimitive` | src/Map/VectorMapSymbol.cpp:186-227 | Triangles; a fresh buffer of exactly as many vertices with normals as the model has vertices; vertex i copies position and normal of model vertex i and has VertexColor; no plain vertices, no indices; isDenseObject true |

## Left out

- The operations that forward to the private implementation are not part of this model: `obtainValue`, `obtainValueAsync`, `obtainData`, `obtainDataAsync`, `downloadGeoTiles`, `downloadGeoTilesAsync`, `setBandSettings`, `getCurrentRequestVersion`, `closeProvider`, and the provider's constructor and destructor. Their bodies are in `WeatherTileResourceProvider_P`, which is not part of this model. They involve thread pools, web I/O, caching and cancellation.
- The web client, the cache path and the projection resource path are not modelled. They are only passed through to the private implementation.
- The read/write locks around the symbol's buffer are not modelled. Get, set and release are plain field reads and writes.
- Destructors and memory release (`delete`, `delete[]`) are not modelled. Ownership is left to Dafny's heap.
- Floating-point values are not computed. Trigonometric coordinates are symbolic terms. The fourth vertex component (NaN) is dropped. Colours, positions, normals, the scale and the density factor are exact reals that are only copied. `AbsentElevation` is exactly -13e9 rather than the nearest single-precision value.
- Skia images and contour geometry are opaque references (`Image`, `GeoContour`). Only their identity is kept.
- The `MapSymbol` base class and its symbol group are not modelled.
- The declarations in the headers (`CommonTypes.h`, `VectorMapSymbol.h`, `Model3D.h`, `WeatherTileResourceProvider.h`) are not part of this model. `InvalidZoomLevel` is taken as -1. The enum members used in the two source files come from there. `WeatherType.Contour`, the three `AlphaChannelPresence` members and `ScaleType.In31`/`InMeters` are assumed from those headers, and nothing in the model depends on them. The field types follow the two source files. `partSizes` holds a sequence of integers.
- WeatherTileResourceProvider.DownloadGeoTileRequest.constructor: does not state the default `topLeft` and `bottomRight`, which come from the default constructor of `LatLon`, which is not part of this model.
- The generators take `pointsCount` as an unbounded natural rather than a 32-bit unsigned integer. The circle generator allocates `pointsCount + 2` vertices without wrap-around (see Findings).
- VectorMapSymbol.VectorMapSymbol.GenerateModel3DPrimitive: requires every material index to be -1 or a valid index into the materials. The source indexes the materials unchecked, so any other index is undefined behaviour there.

## Findings

| source | as written | input that shows it | evidently intended | confidence | as-written member | corrected member |
|---|---|---|---|---|---|---|
| src/Map/VectorMapSymbol.cpp:108-139 | `pointsCount + 2` is computed in 32-bit unsigned arithmetic, so it wraps; the array gets 0 or 1 vertices, and the generator then writes the centre, `pointsCount` rim points and the closing vertex into it | `pointsCount` = 2^32 - 1: one vertex is allocated and 2^32 + 1 are written | allocate `pointsCount + 2` vertices, the size of the fan | high on 32-bit `unsigned int`; not executed | `VectorMapSymbol.AllocatedCircleVertexCount`, `VectorMapSymbol.CircleAllocationWraps` | `VectorMapSymbol.VectorMapSymbol.GenerateCirclePrimitive` (allocates exactly `pointsCount + 2` and fills it with `CircleVertices`) |
