# Well-feature region enrichment

This project models the region-enrichment path of a small ETL script. The
script fetches groundwater-well Locations and their Things from a
SensorThings API. It rewrites each Thing's property map through a
per-agency factory (NMBGMR or OSE). It tags each well with its state,
HUC8 watershed, place and county, and collects the results as GeoJSON
point features in the order they were fetched.

Modules:

- `Wrappers` (wrappers.dfy): `Option` and `Result`.
- `GeoJson` (geojson.dfy): decoded JSON values, positions, boundary
  geometries, boundary-layer features (`Region`) and output `Feature`s.
- `Topo` (topo.dfy): `within`, which is a first-match linear search
  (`FirstContaining` and `Resolve` specify it and the `Within` method runs
  the loop). It also holds the module-global boundary cache as the class
  `BoundaryCache` with its `entries` map, and `get_huc8`, `get_place` and
  `get_county` as `GetRegion` over the enum `Layer`. Each `Layer` pairs a
  boundary file with its attribute key. `get_state` is the constant `GetState`.
- `Wells` (wells.dfy): the two property factories are methods that rewrite
  `Thing.properties` in place. They are specified by the functions
  `NmbgmrProps` and `OseProps`. `feature_factory` is the method
  `FeatureFactory`. It is specified by the function `FeatureSpec`, whose
  meaning the lemma `FeatureSpecMeaning` states. The comprehension in
  `get_geojson_features` is a loop over `Pairs(items)`, the (location, thing)
  pairs in item-major order.

Abstractions:

- Shapely's `shape(g).contains(Point(p))` is a parameter
  `contains: (Geometry, Position) -> bool`.
- Reading `data/boundaries/<name>` and calling `geojson.load(...)['features']`
  is the cache's constant `files: string -> seq<Region>`, keyed by path.
- Python's `float(...)` is concrete for null, booleans, integers, floats,
  lists and dicts. Parsing a string is a parameter
  `parseNumeral: string -> Option<real>`, and `None` stands for a raised exception.

Behaviour the code has and the model keeps:

- A containing region whose properties lack the target key makes `within`
  raise `KeyError`. This is `Lookup.MissingKey`. It aborts `feature_factory`
  and the whole comprehension, so the first failing pair decides the error.
- Python's `within` returns `None` both when no region contains the point and
  when the first containing region maps the key to JSON null
  (`NoneMeansNoRegionOrNull`).
- The region values are the raw `HUC8`/`GEOID` attributes and the integer 35.
  The code wraps nothing in `https://geoconnex.us/ref/...` URLs, and the model
  follows the code.
- The boundary cache's ghost `loads` log records every file read. Its
  invariant `Valid()` states that each name is read at most once and that
  every entry is the parsed content of its file.

## Model

| member | source | states |
|---|---|---|
| `Topo.FirstContaining` | topo.py:24-27 | The index found is that of a region containing the point, and no earlier region contains it. It is absent exactly when no region in the list contains the point. |
| `Topo.Resolve` | topo.py:22-27 | The answer is absent exactly when no region contains the point. Otherwise it is the target attribute of the first containing region, or a KeyError naming the key when that region lacks it. |
| `Topo.Within` | topo.py:22-27 | The in-order loop with early return computes `Resolve`. The regions are a value and are only read. |
| `Topo.FirstMatchWins` | topo.py:24-27 | Once region i contains the point, the regions after i do not affect the answer. The first match wins and overlaps are not resolved. |
| `Topo.NonContainingPrefix` | topo.py:24-27 | Putting regions that do not contain the point in front of a layer leaves the answer unchanged. |
| `Topo.FirstContainingShift` | topo.py:24-26 | Behind a prefix of non-containing regions, the first match moves by the prefix length. |
| `Topo.NoneMeansNoRegionOrNull` | topo.py:24-27 | The Python result is `None` exactly when no region contains the point, or when the first containing region maps the key to null. |
| `Topo.GetState` | topo.py:57-58 | Every location gets state 35. |
| `Topo.BoundaryCache.constructor` | topo.py:30 | The cache starts empty and no file has been read. |
| `Topo.BoundaryCache.GetBoundaries` | topo.py:33-39 | The result is the parsed file, and afterwards `name` is cached with that value. Only the entry for `name` is added. A cached name causes no read and leaves the cache unchanged. An uncached name is read once. `Valid()` (each file read at most once, entries equal file contents) is kept. |
| `Topo.BoundaryCache.GetRegion` | topo.py:42-54 | `get_huc8`/`get_place`/`get_county` equal `within` over the layer's file with key `HUC8`/`GEOID`/`GEOID`. The cache gains only that layer's entry. |
| `Wells.OseProps` | generate_wells_gpkg.py:65-69 | Sets `id` to the location name and `agency_id` to the thing name. Every other key and value is unchanged. |
| `Wells.OsePropsFactory` | generate_wells_gpkg.py:65-69 | Rewrites the thing's own map to `OseProps` of its old map and returns that same map. |
| `Wells.NmbgmrProps` | generate_wells_gpkg.py:51-62 | Sets `id` and `agency_id` and drops `@nmbgmr.point_id`. `welldepth` becomes the parsed value when present and parseable, and 0.0 otherwise. All other keys are unchanged, and the key set is stated exactly. |
| `Wells.NmbgmrPropsFactory` | generate_wells_gpkg.py:51-62 | Rewrites the thing's own map in place to `NmbgmrProps` of its old map and returns that map. The second `float` never fails. |
| `Wells.Enrich` | generate_wells_gpkg.py:75-79 | Adds exactly `sta` (the self link followed by `?$expand=Datastreams/Observations`), `state`, `huc8`, `place` and `county`. All other keys of the factory's map are kept. |
| `Wells.FeatureSpecMeaning` | generate_wells_gpkg.py:73-83 | Fails exactly when one of the three lookups raises, with the first raising key. Otherwise the feature's point is the location's coordinates. Its keys are the factory map's keys plus `sta`, `state`, `huc8`, `place` and `county`. `sta` is the self link with the observations expansion, `state` is 35, and the three region values are the `within` results (null when no region contains the point). Every other key keeps the factory's value. |
| `Wells.ApplyFactory` | generate_wells_gpkg.py:74 | Applies the chosen agency factory. The thing's map becomes `NmbgmrProps` or `OseProps` of its old map, and the same map is returned. |
| `Wells.FeatureFactory` | generate_wells_gpkg.py:73-83 | Computes `FeatureSpec` of the thing's old properties. On success the feature's map is the thing's own map. The cache stays valid and only gains boundary-layer entries. |
| `Wells.Pairs` | generate_wells_gpkg.py:86 | The flattened pair list has one entry per thing, as many as the sum of the items' thing counts. |
| `Wells.PairsAt` | generate_wells_gpkg.py:86 | Item-major order: thing j of item i sits at the total thing count of items before i, plus j. |
| `Wells.GetGeojsonFeatures` | generate_wells_gpkg.py:85-86 | On success there is one feature per pair, in order, each equal to `FeatureSpec` of its pair's original properties (`FeatureResults`). On failure the error is that of the first failing pair, and all earlier pairs succeed. |
| `Wells.FactoriesAgree` | generate_wells_gpkg.py:51-69 | The two factories agree on every key except `@nmbgmr.point_id` and `welldepth`. |
| `Wells.NmbgmrPropsIdempotent` | generate_wells_gpkg.py:51-62 | Running the NMBGMR factory again on its own output changes nothing. |
| `Wells.OsePropsIdempotent` | generate_wells_gpkg.py:65-69 | Running the OSE factory again on its own output changes nothing. |
| `Wells.RegionsDependOnLocationOnly` | generate_wells_gpkg.py:76-79 | Two things at one location get the same state, watershed, place and county, and fail or succeed together. |
| `Wells.CountyOnlyScenario` | generate_wells_gpkg.py:73-83 | For layers of any size: a well that no watershed or place region contains, and whose first containing county region has GEOID `"35001"`, gets county `"35001"`, null `huc8` and `place`, depth 0.0 when it had none, and its `id` and `agency_id`. |

## Left out

- `rget` (generate_wells_gpkg.py:23-48) is left out: it is HTTP fetching, JSON decoding and next-link pagination. Its result is the `items` parameter of `GetGeojsonFeatures`.
- `write_gpkg`, `main` and the `print` diagnostics are left out: they are GeoPackage file output, the script entry point and logging.
- Shapely geometry is not modelled. Containment is an uninterpreted parameter, so its boundary convention is whatever the library does.
- Opening and parsing boundary files is not modelled. Loading is total, so missing or malformed files (which raise in the code) are not modelled. `os.path.join` is modelled as joining with `/`, the POSIX separator. The Windows `\` separator is not modelled, and no property depends on it because the file contents are an uninterpreted function of the path.
- FeatureSpecMeaning: states that the feature's point is the location's coordinates exactly. The `Point` of the `geojson` library (version 2.5 and later) rounds each coordinate to 6 decimal places by default, and that rounding is not modelled. It is float arithmetic, and the library's version is not pinned here.
- Python floats are modelled as reals. Rounding of large integers, `OverflowError` on huge integers (caught, which gives 0), and `nan`/`inf` strings are not modelled.
- Dict insertion order, which decides column order in the output file, is not modelled.
- `Location` and `Thing` are typed records. The `KeyError` that a record missing `name`, `properties`, `@iot.selfLink`, `location` or `Things` would raise is not modelled. The self link is taken to be a string.
- Boundary geometries are `Polygon` or `MultiPolygon`. The other GeoJSON geometry types that `shape` accepts are not modelled. Containment is a parameter, so no property depends on the geometry type.
- Positions are two-dimensional. A third coordinate is not modelled.
- GetGeojsonFeatures: requires that no Thing object appears twice in the items, which holds for freshly decoded JSON. After a failure it says nothing about the things' property maps, because the run is aborted.
- The boundary cache is single-threaded, as in the code. Concurrent first use of a name is not modelled.
