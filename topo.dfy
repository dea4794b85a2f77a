/** Region lookup: the first-match containment search over a boundary layer,
    the memoising cache of boundary layers, and the four region lookups
    (watershed, place, county, state) built from them. */
module Topo {
  import opened Wrappers
  import opened GeoJson

  /** Outcome of `within`: no region contains the point (Python `None`), the
      target attribute of the first containing region, or the `KeyError`
      raised when that region has no such attribute. */
  datatype Lookup = NoRegion | Found(value: Value) | MissingKey(key: string)

  /** The value Python's `within` hands back when it does not raise. */
  function AsValue(l: Lookup): Value
    requires !l.MissingKey?
  {
    if l.Found? then l.value else Null
  }

  /** Index of the first region, in list order, whose geometry contains `pt`. */
  function FirstContaining(contains: Containment, regions: seq<Region>, pt: Position): (r: Option<nat>)
    ensures r.Some? ==> r.value < |regions| && contains(regions[r.value].geometry, pt)
    ensures r.Some? ==> forall j :: 0 <= j < r.value ==> !contains(regions[j].geometry, pt)
    ensures r.None? <==> forall j :: 0 <= j < |regions| ==> !contains(regions[j].geometry, pt)
  {
    if regions == [] then None
    else if contains(regions[0].geometry, pt) then Some(0)
    else
      match FirstContaining(contains, regions[1..], pt)
      case None => None
      case Some(i) => Some(i + 1)
  }

  /** What `within(loc, regions, targetkey)` yields for a point: the target
      attribute of the first containing region. */
  function Resolve(contains: Containment, regions: seq<Region>, pt: Position, key: string): (r: Lookup)
    ensures r.NoRegion? <==> forall j :: 0 <= j < |regions| ==> !contains(regions[j].geometry, pt)
    ensures r.Found? ==>
      exists i :: (0 <= i < |regions| && contains(regions[i].geometry, pt)
        && (forall j :: 0 <= j < i ==> !contains(regions[j].geometry, pt))
        && key in regions[i].properties && r.value == regions[i].properties[key])
    ensures r.MissingKey? ==>
      r.key == key &&
      exists i :: (0 <= i < |regions| && contains(regions[i].geometry, pt)
        && (forall j :: 0 <= j < i ==> !contains(regions[j].geometry, pt))
        && key !in regions[i].properties)
  {
    match FirstContaining(contains, regions, pt)
    case None => NoRegion
    case Some(i) =>
      if key in regions[i].properties then Found(regions[i].properties[key]) else MissingKey(key)
  }

  /** `within`: walk the regions in order and answer from the first one whose
      geometry contains the point; fall off the loop with `None`. */
  method Within(contains: Containment, pt: Position, regions: seq<Region>, key: string) returns (r: Lookup)
    ensures r == Resolve(contains, regions, pt, key)
  {
    var i := 0;
    while i < |regions|
      invariant 0 <= i <= |regions|
      invariant forall j :: 0 <= j < i ==> !contains(regions[j].geometry, pt)
    {
      if contains(regions[i].geometry, pt) {
        assert FirstContaining(contains, regions, pt) == Some(i);
        if key in regions[i].properties {
          return Found(regions[i].properties[key]);
        }
        return MissingKey(key);
      }
      i := i + 1;
    }
    assert FirstContaining(contains, regions, pt) == None;
    return NoRegion;
  }

  /** The first containing region decides: given a region at index `i` that
      contains the point, every region after it is irrelevant, however much
      it overlaps. */
  lemma {:induction false} FirstMatchWins(contains: Containment, regions: seq<Region>, pt: Position, key: string, i: nat)
    requires i < |regions| && contains(regions[i].geometry, pt)
    ensures Resolve(contains, regions, pt, key) == Resolve(contains, regions[..i + 1], pt, key)
  {
    var f := FirstContaining(contains, regions, pt);
    var g := FirstContaining(contains, regions[..i + 1], pt);
    assert regions[..i + 1][i] == regions[i];
    assert g.Some? && g.value <= i;
    assert regions[..i + 1][g.value] == regions[g.value];
    assert f == g;
  }

  /** Shifting a layer behind regions that do not contain the point shifts the
      first match by the same amount. */
  lemma {:induction false} FirstContainingShift(contains: Containment, prefix: seq<Region>, rest: seq<Region>, pt: Position)
    requires forall j :: 0 <= j < |prefix| ==> !contains(prefix[j].geometry, pt)
    ensures FirstContaining(contains, prefix + rest, pt) ==
      match FirstContaining(contains, rest, pt)
      case None => None
      case Some(k) => Some(|prefix| + k)
  {
    if prefix == [] {
      assert prefix + rest == rest;
    } else {
      FirstContainingShift(contains, prefix[1..], rest, pt);
      assert (prefix + rest)[1..] == prefix[1..] + rest;
      assert (prefix + rest)[0] == prefix[0];
    }
  }

  /** Regions that do not contain the point can be put in front of a layer
      without changing what `within` answers. */
  lemma NonContainingPrefix(contains: Containment, prefix: seq<Region>, rest: seq<Region>, pt: Position, key: string)
    requires forall j :: 0 <= j < |prefix| ==> !contains(prefix[j].geometry, pt)
    ensures Resolve(contains, prefix + rest, pt, key) == Resolve(contains, rest, pt, key)
  {
    FirstContainingShift(contains, prefix, rest, pt);
    var f := FirstContaining(contains, rest, pt);
    if f.Some? {
      assert (prefix + rest)[|prefix| + f.value] == rest[f.value];
    }
  }

  /** Python cannot tell "no region" from "the first containing region maps the
      key to JSON null": both come back as `None`. */
  lemma NoneMeansNoRegionOrNull(contains: Containment, regions: seq<Region>, pt: Position, key: string)
    requires !Resolve(contains, regions, pt, key).MissingKey?
    ensures AsValue(Resolve(contains, regions, pt, key)) == Null <==>
      (forall j :: 0 <= j < |regions| ==> !contains(regions[j].geometry, pt))
      || (exists i :: (0 <= i < |regions| && contains(regions[i].geometry, pt)
           && (forall j :: 0 <= j < i ==> !contains(regions[j].geometry, pt))
           && key in regions[i].properties && regions[i].properties[key] == Null))
  {
  }

  /** `os.path.join('data', 'boundaries', name)` with the POSIX separator. */
  function BoundaryPath(name: string): string {
    "data/boundaries/" + name
  }

  /** The three spatially resolved layers: each pairs a boundary file with the
      attribute that identifies a region in it. */
  datatype Layer = Huc8 | Place | County {
    function FileName(): string {
      match this
      case Huc8 => "wbdhu8_a_nm.geojson"
      case Place => "tl_2015_35_place.geojson"
      case County => "tl_2018_nm_county.geojson"
    }

    function Key(): string {
      match this
      case Huc8 => "HUC8"
      case Place => "GEOID"
      case County => "GEOID"
    }
  }

  /** The names of all boundary files the lookups ever load. */
  function LayerFiles(): set<string> {
    {Huc8.FileName(), Place.FileName(), County.FileName()}
  }

  /** What a lookup against `layer` yields for a point, given the boundary files. */
  function RegionOf(files: string -> seq<Region>, contains: Containment, layer: Layer, pt: Position): Lookup {
    Resolve(contains, files(BoundaryPath(layer.FileName())), pt, layer.Key())
  }

  /** `get_state`: the state is not resolved spatially; every location is in
      New Mexico, FIPS code 35. */
  function GetState(pt: Position): (r: int)
    ensures r == 35
  {
    35
  }

  /** The module-global `__cache__` of boundary layers, keyed by file name and
      filled at most once per name. `files` stands for the contents of the
      boundary files on disk as `geojson.load(...)['features']` parses them. */
  class BoundaryCache {
    const files: string -> seq<Region>
    var entries: map<string, seq<Region>>
    /** The names whose file has been read, in the order they were read. */
    ghost var loads: seq<string>

    /** Every entry is the parsed content of its file, and every file was
        read exactly once: the names read are the cached names, with no repeats. */
    ghost predicate Valid()
      reads this
    {
      && (forall n :: n in entries ==> entries[n] == files(BoundaryPath(n)))
      && (forall n :: n in entries <==> n in loads)
      && (forall a, b :: 0 <= a < b < |loads| ==> loads[a] != loads[b])
    }

    /** The cache starts empty and nothing has been read. */
    constructor (files: string -> seq<Region>)
      ensures Valid()
      ensures this.files == files && entries == map[] && loads == []
    {
      this.files := files;
      entries := map[];
      loads := [];
    }

    /** `get_boundaries(name)`: read and parse the file on first use, then
        answer from the cache. */
    method GetBoundaries(name: string) returns (regions: seq<Region>)
      requires Valid()
      modifies this
      ensures Valid()
      ensures regions == files(BoundaryPath(name))
      ensures entries == old(entries)[name := regions]
      ensures name in old(entries) ==> regions == old(entries)[name] && entries == old(entries) && loads == old(loads)
      ensures name !in old(entries) ==> loads == old(loads) + [name]
    {
      if name !in entries {
        var features := files(BoundaryPath(name));
        entries := entries[name := features];
        loads := loads + [name];
      }
      regions := entries[name];
    }

    /** `get_huc8`, `get_place` and `get_county`: fetch the layer's boundaries
        through the cache and search them for the point. */
    method GetRegion(contains: Containment, layer: Layer, pt: Position) returns (r: Lookup)
      requires Valid()
      modifies this
      ensures Valid()
      ensures r == RegionOf(files, contains, layer, pt)
      ensures entries == old(entries)[layer.FileName() := files(BoundaryPath(layer.FileName()))]
      ensures layer.FileName() in old(entries) ==> entries == old(entries) && loads == old(loads)
      ensures old(entries).Keys <= entries.Keys <= old(entries).Keys + LayerFiles()
    {
      var regions := GetBoundaries(layer.FileName());
      r := Within(contains, pt, regions, layer.Key());
    }
  }
}
