/** Property assembly for the well features: the per-agency property
    factories that rewrite a thing's property map in place, the feature
    factory that adds the observation link and the four region values, and
    the flattening of (location, thing) pairs into the feature list. */
module Wells {
  import opened Wrappers
  import opened GeoJson
  import opened Topo

  /** Python's `float(s)` on a string: a numeral parses, anything else raises
      (`None` here). Supplied by the runtime and left abstract. */
  type NumeralParser = string -> Option<real>

  const ID_KEY := "id"
  const AGENCY_ID_KEY := "agency_id"
  const POINT_ID_KEY := "@nmbgmr.point_id"
  const WELL_DEPTH_KEY := "welldepth"
  const STA_KEY := "sta"
  const STATE_KEY := "state"
  const HUC8_KEY := "huc8"
  const PLACE_KEY := "place"
  const COUNTY_KEY := "county"
  const OBSERVATIONS_EXPAND := "?$expand=Datastreams/Observations"

  /** The keys `feature_factory` writes after the agency factory has run. */
  function EnrichKeys(): set<string> {
    {STA_KEY, STATE_KEY, HUC8_KEY, PLACE_KEY, COUNTY_KEY}
  }

  /** A SensorThings "Thing" as decoded from the API: its `name` and
      `@iot.selfLink` are only read, its `properties` dict is rewritten in place. */
  class Thing {
    const name: Value
    const selfLink: string
    var properties: PropertyMap

    constructor (name: Value, selfLink: string, properties: PropertyMap)
      ensures this.name == name && this.selfLink == selfLink && this.properties == properties
    {
      this.name := name;
      this.selfLink := selfLink;
      this.properties := properties;
    }
  }

  /** A SensorThings "Location" with its Things expanded: `loc['name']`,
      `loc['location']['coordinates']` and `loc['Things']`. */
  datatype Location = Location(name: Value, coordinates: Position, things: seq<Thing>)

  /** Which property factory `get_geojson_features` was handed. */
  datatype Agency = Nmbgmr | Ose

  /** Python's `float(v)` on a decoded JSON value; `None` where it raises. */
  function ToFloat(v: Value, parseNumeral: NumeralParser): Option<real> {
    match v
    case Null => None
    case Bool(b) => Some(if b then 1.0 else 0.0)
    case Int(i) => Some(i as real)
    case Float(f) => Some(f)
    case Str(s) => parseNumeral(s)
    case Array(_) => None
    case Object(_) => None
  }

  /** The well depth the NMBGMR factory settles on: the parsed `welldepth`,
      or 0 when it is absent or does not parse. */
  function WellDepth(parseNumeral: NumeralParser, props: PropertyMap): real {
    if WELL_DEPTH_KEY in props then ToFloat(props[WELL_DEPTH_KEY], parseNumeral).GetOr(0.0) else 0.0
  }

  /** The property map `ose_props_factory` leaves behind. */
  function OseProps(locName: Value, thingName: Value, props: PropertyMap): (r: PropertyMap)
    ensures r.Keys == props.Keys + {ID_KEY, AGENCY_ID_KEY}
    ensures r[ID_KEY] == locName && r[AGENCY_ID_KEY] == thingName
    ensures forall k :: k in props && k != ID_KEY && k != AGENCY_ID_KEY ==> r[k] == props[k]
  {
    props[ID_KEY := locName][AGENCY_ID_KEY := thingName]
  }

  /** The property map `nmbgmr_props_factory` leaves behind. */
  function NmbgmrProps(parseNumeral: NumeralParser, locName: Value, thingName: Value, props: PropertyMap): (r: PropertyMap)
    ensures r.Keys == props.Keys - {POINT_ID_KEY} + {ID_KEY, AGENCY_ID_KEY, WELL_DEPTH_KEY}
    ensures POINT_ID_KEY !in r
    ensures r[ID_KEY] == locName && r[AGENCY_ID_KEY] == thingName
    ensures WELL_DEPTH_KEY in props && ToFloat(props[WELL_DEPTH_KEY], parseNumeral).Some? ==>
      r[WELL_DEPTH_KEY] == Float(ToFloat(props[WELL_DEPTH_KEY], parseNumeral).value)
    ensures WELL_DEPTH_KEY !in props || ToFloat(props[WELL_DEPTH_KEY], parseNumeral).None? ==>
      r[WELL_DEPTH_KEY] == Float(0.0)
    ensures forall k :: k in props && k !in {ID_KEY, AGENCY_ID_KEY, POINT_ID_KEY, WELL_DEPTH_KEY} ==> r[k] == props[k]
  {
    (props[ID_KEY := locName][AGENCY_ID_KEY := thingName] - {POINT_ID_KEY} - {WELL_DEPTH_KEY})
      [WELL_DEPTH_KEY := Float(WellDepth(parseNumeral, props))]
  }

  /** The property map the chosen factory leaves behind. */
  function FactoryProps(agency: Agency, parseNumeral: NumeralParser, locName: Value, thingName: Value, props: PropertyMap): PropertyMap {
    match agency
    case Nmbgmr => NmbgmrProps(parseNumeral, locName, thingName, props)
    case Ose => OseProps(locName, thingName, props)
  }

  /** `nmbgmr_props_factory(loc, thing)`: rewrites `thing['properties']` in
      place and returns that same dict. */
  method NmbgmrPropsFactory(parseNumeral: NumeralParser, loc: Location, thing: Thing) returns (props: PropertyMap)
    modifies thing
    ensures thing.properties == NmbgmrProps(parseNumeral, loc.name, thing.name, old(thing.properties))
    ensures props == thing.properties
  {
    thing.properties := thing.properties[ID_KEY := loc.name];
    thing.properties := thing.properties[AGENCY_ID_KEY := thing.name];
    thing.properties := thing.properties - {POINT_ID_KEY};
    var raw := if WELL_DEPTH_KEY in thing.properties then thing.properties[WELL_DEPTH_KEY] else Int(0);
    thing.properties := thing.properties - {WELL_DEPTH_KEY};
    var wd: Value;
    match ToFloat(raw, parseNumeral) {
      case Some(x) => wd := Float(x);
      case None => wd := Int(0);
    }
    var depth := ToFloat(wd, parseNumeral);
    assert depth.Some?;
    thing.properties := thing.properties[WELL_DEPTH_KEY := Float(depth.value)];
    props := thing.properties;
  }

  /** `ose_props_factory(loc, thing)`: rewrites `thing['properties']` in place
      and returns that same dict. */
  method OsePropsFactory(loc: Location, thing: Thing) returns (props: PropertyMap)
    modifies thing
    ensures thing.properties == OseProps(loc.name, thing.name, old(thing.properties))
    ensures props == thing.properties
  {
    thing.properties := thing.properties[ID_KEY := loc.name];
    thing.properties := thing.properties[AGENCY_ID_KEY := thing.name];
    props := thing.properties;
  }

  /** The additions `feature_factory` makes to the factory's map: the
      observation link, the state and the three looked-up regions. */
  function Enrich(base: PropertyMap, selfLink: string, state: int, huc8: Value, place: Value, county: Value): (p: PropertyMap)
    ensures p.Keys == base.Keys + EnrichKeys()
    ensures p[STA_KEY] == Str(selfLink + OBSERVATIONS_EXPAND)
    ensures p[STATE_KEY] == Int(state)
    ensures p[HUC8_KEY] == huc8 && p[PLACE_KEY] == place && p[COUNTY_KEY] == county
    ensures forall k :: k in base && k !in EnrichKeys() ==> p[k] == base[k]
  {
    base[STA_KEY := Str(selfLink + OBSERVATIONS_EXPAND)][STATE_KEY := Int(state)]
      [HUC8_KEY := huc8][PLACE_KEY := place][COUNTY_KEY := county]
  }

  /** What `feature_factory(loc, thing)` builds from the thing's properties
      `props` before the call, or the key of the `KeyError` it raises. */
  function FeatureSpec(files: string -> seq<Region>, contains: Containment, parseNumeral: NumeralParser,
                       agency: Agency, loc: Location, thing: Thing, props: PropertyMap): Result<Feature, string>
  {
    var huc8 := RegionOf(files, contains, Huc8, loc.coordinates);
    var place := RegionOf(files, contains, Place, loc.coordinates);
    var county := RegionOf(files, contains, County, loc.coordinates);
    if huc8.MissingKey? then Failure(huc8.key)
    else if place.MissingKey? then Failure(place.key)
    else if county.MissingKey? then Failure(county.key)
    else
      var base := FactoryProps(agency, parseNumeral, loc.name, thing.name, props);
      Success(Feature(Enrich(base, thing.selfLink, GetState(loc.coordinates), AsValue(huc8), AsValue(place), AsValue(county)), loc.coordinates))
  }

  /** `feature_factory` fails exactly when one of the three lookups raises,
      with the key of the first one that does. Otherwise its feature sits at
      the location's point, and its map is the factory's map plus exactly the
      observation link, the state and the three region values. */
  lemma FeatureSpecMeaning(files: string -> seq<Region>, contains: Containment, parseNumeral: NumeralParser,
                           agency: Agency, loc: Location, thing: Thing, props: PropertyMap)
    ensures var r := FeatureSpec(files, contains, parseNumeral, agency, loc, thing, props);
      var huc8 := RegionOf(files, contains, Huc8, loc.coordinates);
      var place := RegionOf(files, contains, Place, loc.coordinates);
      var county := RegionOf(files, contains, County, loc.coordinates);
      && (r.Failure? <==> huc8.MissingKey? || place.MissingKey? || county.MissingKey?)
      && (r.Failure? ==> r.error == if huc8.MissingKey? then Huc8.Key() else Place.Key())
      && (r.Success? ==>
            var p := r.value.properties;
            var base := FactoryProps(agency, parseNumeral, loc.name, thing.name, props);
            && r.value.geometry == loc.coordinates
            && p.Keys == base.Keys + EnrichKeys()
            && p[STA_KEY] == Str(thing.selfLink + OBSERVATIONS_EXPAND)
            && p[STATE_KEY] == Int(35)
            && p[HUC8_KEY] == AsValue(huc8)
            && p[PLACE_KEY] == AsValue(place)
            && p[COUNTY_KEY] == AsValue(county)
            && forall k :: k in base && k !in EnrichKeys() ==> p[k] == base[k])
  {
  }

  /** `factory(loc, thing)` for the factory `get_geojson_features` was handed. */
  method ApplyFactory(parseNumeral: NumeralParser, agency: Agency, loc: Location, thing: Thing) returns (props: PropertyMap)
    modifies thing
    ensures thing.properties == FactoryProps(agency, parseNumeral, loc.name, thing.name, old(thing.properties))
    ensures props == thing.properties
  {
    match agency {
      case Nmbgmr => props := NmbgmrPropsFactory(parseNumeral, loc, thing);
      case Ose => props := OsePropsFactory(loc, thing);
    }
  }

  /** The inner `feature_factory(loc, thing)` of `get_geojson_features`: run
      the agency factory, then add the observation link and the four region
      values to the same dict, and pair it with the location's point. */
  method FeatureFactory(cache: BoundaryCache, contains: Containment, parseNumeral: NumeralParser,
                        agency: Agency, loc: Location, thing: Thing) returns (r: Result<Feature, string>)
    requires cache.Valid()
    modifies cache, thing
    ensures cache.Valid()
    ensures r == FeatureSpec(cache.files, contains, parseNumeral, agency, loc, thing, old(thing.properties))
    ensures r.Success? ==> r.value.properties == thing.properties
    ensures old(cache.entries).Keys <= cache.entries.Keys <= old(cache.entries).Keys + LayerFiles()
  {
    var props := ApplyFactory(parseNumeral, agency, loc, thing);
    thing.properties := props[STA_KEY := Str(thing.selfLink + OBSERVATIONS_EXPAND)];
    thing.properties := thing.properties[STATE_KEY := Int(GetState(loc.coordinates))];
    var huc8 := cache.GetRegion(contains, Huc8, loc.coordinates);
    if huc8.MissingKey? {
      return Failure(huc8.key);
    }
    thing.properties := thing.properties[HUC8_KEY := AsValue(huc8)];
    var place := cache.GetRegion(contains, Place, loc.coordinates);
    if place.MissingKey? {
      return Failure(place.key);
    }
    thing.properties := thing.properties[PLACE_KEY := AsValue(place)];
    var county := cache.GetRegion(contains, County, loc.coordinates);
    if county.MissingKey? {
      return Failure(county.key);
    }
    thing.properties := thing.properties[COUNTY_KEY := AsValue(county)];
    r := Success(Feature(thing.properties, loc.coordinates));
  }

  /** The number of things over all locations: the sum of `len(i['Things'])`. */
  function ThingCount(items: seq<Location>): nat {
    if items == [] then 0 else |items[0].things| + ThingCount(items[1..])
  }

  /** The (location, thing) pairs `for i in items for thing in i['Things']`
      visits, in that order. */
  function Pairs(items: seq<Location>): (r: seq<(Location, Thing)>)
    ensures |r| == ThingCount(items)
  {
    if items == [] then []
    else
      seq(|items[0].things|, j requires 0 <= j < |items[0].things| => (items[0], items[0].things[j]))
        + Pairs(items[1..])
  }

  /** Item-major order: the `j`-th thing of the `i`-th location comes right
      after all things of the locations before it. */
  lemma {:induction false} PairsAt(items: seq<Location>, i: nat, j: nat)
    requires i < |items| && j < |items[i].things|
    ensures ThingCount(items[..i]) + j < |Pairs(items)|
    ensures Pairs(items)[ThingCount(items[..i]) + j] == (items[i], items[i].things[j])
  {
    if i == 0 {
      assert items[..0] == [];
    } else {
      PairsAt(items[1..], i - 1, j);
      assert items[..i][1..] == items[1..][..i - 1];
      assert items[1..][i - 1] == items[i];
    }
  }

  /** The property maps of the things of `pairs`, in order. */
  ghost function PropsOf(pairs: seq<(Location, Thing)>): seq<PropertyMap>
    reads set k | 0 <= k < |pairs| :: pairs[k].1
  {
    seq(|pairs|, k reads set k | 0 <= k < |pairs| :: pairs[k].1 requires 0 <= k < |pairs| => pairs[k].1.properties)
  }

  /** Every thing the flattening visits. */
  function ThingsOf(items: seq<Location>): set<Thing> {
    set k | 0 <= k < |Pairs(items)| :: Pairs(items)[k].1
  }

  /** What `feature_factory` yields for each pair, given each thing's
      properties before the run. */
  function FeatureResults(files: string -> seq<Region>, contains: Containment, parseNumeral: NumeralParser,
                          agency: Agency, pairs: seq<(Location, Thing)>, before: seq<PropertyMap>): seq<Result<Feature, string>>
    requires |before| == |pairs|
  {
    seq(|pairs|, m requires 0 <= m < |pairs| =>
      FeatureSpec(files, contains, parseNumeral, agency, pairs[m].0, pairs[m].1, before[m]))
  }

  /** The snapshot holds each pair's map, and there is one expected result per pair. */
  lemma SnapshotShape(files: string -> seq<Region>, contains: Containment, parseNumeral: NumeralParser,
                      agency: Agency, pairs: seq<(Location, Thing)>)
    ensures |PropsOf(pairs)| == |pairs|
    ensures forall m :: 0 <= m < |pairs| ==> PropsOf(pairs)[m] == pairs[m].1.properties
    ensures |FeatureResults(files, contains, parseNumeral, agency, pairs, PropsOf(pairs))| == |pairs|
  {
  }

  /** The list comprehension of `get_geojson_features`: one feature per
      (location, thing) pair, in order; the first `KeyError` aborts the run.
      `items` is what the paginated API fetch returned. */
  method GetGeojsonFeatures(cache: BoundaryCache, contains: Containment, parseNumeral: NumeralParser,
                            agency: Agency, items: seq<Location>) returns (r: Result<seq<Feature>, string>)
    requires cache.Valid()
    requires forall a, b :: 0 <= a < b < |Pairs(items)| ==> Pairs(items)[a].1 != Pairs(items)[b].1
    modifies cache, ThingsOf(items)
    ensures cache.Valid()
    ensures var expected := FeatureResults(cache.files, contains, parseNumeral, agency, Pairs(items), old(PropsOf(Pairs(items))));
      && (r.Success? ==> |r.value| == ThingCount(items) && forall k :: 0 <= k < |expected| ==> expected[k] == Success(r.value[k]))
      && (r.Failure? ==>
            exists k :: 0 <= k < |expected| && expected[k] == Failure(r.error) && forall m :: 0 <= m < k ==> expected[m].Success?)
    ensures old(cache.entries).Keys <= cache.entries.Keys <= old(cache.entries).Keys + LayerFiles()
  {
    var pairs := Pairs(items);
    ghost var before := PropsOf(pairs);
    ghost var expected := FeatureResults(cache.files, contains, parseNumeral, agency, pairs, before);
    SnapshotShape(cache.files, contains, parseNumeral, agency, pairs);
    assert expected == FeatureResults(cache.files, contains, parseNumeral, agency, Pairs(items), old(PropsOf(Pairs(items))));
    var features: seq<Feature> := [];
    var k := 0;
    while k < |pairs|
      invariant 0 <= k <= |pairs| && |features| == k
      invariant cache.Valid()
      invariant forall m :: 0 <= m < k ==> expected[m] == Success(features[m])
      invariant forall m :: k <= m < |pairs| ==> pairs[m].1.properties == before[m]
      invariant old(cache.entries).Keys <= cache.entries.Keys <= old(cache.entries).Keys + LayerFiles()
    {
      var f := FeatureFactory(cache, contains, parseNumeral, agency, pairs[k].0, pairs[k].1);
      assert f == expected[k];
      if f.Failure? {
        assert forall m :: 0 <= m < k ==> expected[m].Success?;
        assert k < |expected| && expected[k] == Failure(f.error);
        return Failure(f.error);
      }
      ghost var done := features;
      features := features + [f.value];
      forall m | 0 <= m <= k ensures expected[m] == Success(features[m]) {
        if m < k {
          assert features[m] == done[m];
        }
      }
      k := k + 1;
    }
    return Success(features);
  }

  /** Both factories agree on every key but the two the NMBGMR one also rewrites. */
  lemma FactoriesAgree(parseNumeral: NumeralParser, locName: Value, thingName: Value, props: PropertyMap, k: string)
    requires k != POINT_ID_KEY && k != WELL_DEPTH_KEY
    ensures k in OseProps(locName, thingName, props) <==> k in NmbgmrProps(parseNumeral, locName, thingName, props)
    ensures k in OseProps(locName, thingName, props) ==>
      OseProps(locName, thingName, props)[k] == NmbgmrProps(parseNumeral, locName, thingName, props)[k]
  {
  }

  /** The NMBGMR normalisation is idempotent: a map it has produced is left
      as it is by a second run with the same names. */
  lemma NmbgmrPropsIdempotent(parseNumeral: NumeralParser, locName: Value, thingName: Value, props: PropertyMap)
    ensures var once := NmbgmrProps(parseNumeral, locName, thingName, props);
      NmbgmrProps(parseNumeral, locName, thingName, once) == once
  {
  }

  /** The OSE normalisation is idempotent. */
  lemma OsePropsIdempotent(locName: Value, thingName: Value, props: PropertyMap)
    ensures var once := OseProps(locName, thingName, props);
      OseProps(locName, thingName, once) == once
  {
  }

  /** The region values depend on the location only: two things at one
      location get the same state, watershed, place and county. */
  lemma RegionsDependOnLocationOnly(files: string -> seq<Region>, contains: Containment, parseNumeral: NumeralParser,
                                    agency: Agency, loc: Location, t1: Thing, p1: PropertyMap, t2: Thing, p2: PropertyMap)
    ensures FeatureSpec(files, contains, parseNumeral, agency, loc, t1, p1).Success? <==>
            FeatureSpec(files, contains, parseNumeral, agency, loc, t2, p2).Success?
    ensures FeatureSpec(files, contains, parseNumeral, agency, loc, t1, p1).Success? ==>
      forall key :: key in {STATE_KEY, HUC8_KEY, PLACE_KEY, COUNTY_KEY} ==>
        FeatureSpec(files, contains, parseNumeral, agency, loc, t1, p1).value.properties[key] ==
        FeatureSpec(files, contains, parseNumeral, agency, loc, t2, p2).value.properties[key]
  {
  }

  /** A well inside county 35001 and outside every watershed and place: the
      NMBGMR feature carries the raw county GEOID, null watershed and place,
      and the default depth. The layers may hold any number of regions; the
      county layer's first region containing the well, at index `i`, is
      county 35001. */
  lemma CountyOnlyScenario(files: string -> seq<Region>, contains: Containment, parseNumeral: NumeralParser,
                           loc: Location, thing: Thing, props: PropertyMap, i: nat)
    requires var h := files(BoundaryPath(Huc8.FileName()));
      forall j :: 0 <= j < |h| ==> !contains(h[j].geometry, loc.coordinates)
    requires var p := files(BoundaryPath(Place.FileName()));
      forall j :: 0 <= j < |p| ==> !contains(p[j].geometry, loc.coordinates)
    requires var c := files(BoundaryPath(County.FileName()));
      && i < |c| && contains(c[i].geometry, loc.coordinates)
      && (forall j :: 0 <= j < i ==> !contains(c[j].geometry, loc.coordinates))
      && "GEOID" in c[i].properties && c[i].properties["GEOID"] == Str("35001")
    requires WELL_DEPTH_KEY !in props
    ensures var r := FeatureSpec(files, contains, parseNumeral, Nmbgmr, loc, thing, props);
      && r.Success?
      && r.value.properties[COUNTY_KEY] == Str("35001")
      && r.value.properties[HUC8_KEY] == Null
      && r.value.properties[PLACE_KEY] == Null
      && r.value.properties[WELL_DEPTH_KEY] == Float(0.0)
      && r.value.properties[ID_KEY] == loc.name
      && r.value.properties[AGENCY_ID_KEY] == thing.name
  {
    var regions := files(BoundaryPath(County.FileName()));
    assert FirstContaining(contains, regions, loc.coordinates) == Some(i);
    assert RegionOf(files, contains, County, loc.coordinates) == Found(Str("35001"));
    assert RegionOf(files, contains, Huc8, loc.coordinates) == NoRegion;
    assert RegionOf(files, contains, Place, loc.coordinates) == NoRegion;
    FeatureSpecMeaning(files, contains, parseNumeral, Nmbgmr, loc, thing, props);
  }
}
