// Map loading: validation of a map's JSON configuration, its conversion into
// a loaded map (waypoints and the set of buildable tiles), the per-id cache,
// the enemy path and the buildable-tile lookup. The fetched JSON is passed in
// as a parameter.
module Maps {
  import opened Common

  /** The JSON configuration; `waypoints` are `[x, y]` pairs and may be missing, as may the tiles. */
  datatype MapConfig = MapConfig(id: string, name: string, waypoints: Option<seq<(real, real)>>,
                                 buildableTiles: Option<seq<string>>, background: Option<string>)

  datatype LoadedMap = LoadedMap(id: string, name: string, waypoints: seq<Point>, buildableTiles: set<string>,
                                 background: Option<string>)

  /** The path enemies follow; its total length is not part of this model. */
  datatype Path = Path(waypoints: seq<Point>)

  datatype MapError = FetchFailed | InvalidConfig | TooFewWaypoints

  /** What `loadMapConfig` accepts: an id, a name, and at least two waypoints. */
  predicate WellFormed(c: MapConfig)
  {
    c.id != "" && c.name != "" && c.waypoints.Some? && |c.waypoints.value| >= 2
  }

  /**
   * `loadMapConfig`: a failed fetch (`None`) and a config without id, name
   * or two waypoints are errors; otherwise the config itself.
   */
  function LoadMapConfig(fetched: Option<MapConfig>): (r: Result<MapConfig, MapError>)
    ensures fetched.None? ==> r == Failure(FetchFailed)
    ensures fetched.Some? && !WellFormed(fetched.value) ==> r == Failure(InvalidConfig)
    ensures r.Success? <==> fetched.Some? && WellFormed(fetched.value)
    ensures r.Success? ==> r.value == fetched.value
  {
    if fetched.None? then Failure(FetchFailed)
    else if !WellFormed(fetched.value) then Failure(InvalidConfig)
    else Success(fetched.value)
  }

  function ToWaypoints(pairs: seq<(real, real)>): (ws: seq<Point>)
    ensures |ws| == |pairs|
    ensures forall i :: 0 <= i < |pairs| ==> ws[i] == Point(pairs[i].0, pairs[i].1)
  {
    if pairs == [] then [] else ToWaypoints(pairs[..|pairs| - 1]) + [Point(pairs[|pairs| - 1].0, pairs[|pairs| - 1].1)]
  }

  /**
   * `processMapConfig`: the waypoints in order, each pair as a point, and
   * exactly the listed tiles as the buildable set (none when not listed).
   */
  function ProcessMapConfig(c: MapConfig): (m: LoadedMap)
    requires c.waypoints.Some?
    ensures m.id == c.id && m.name == c.name && m.background == c.background
    ensures |m.waypoints| == |c.waypoints.value|
    ensures forall i :: 0 <= i < |m.waypoints| ==>
      m.waypoints[i] == Point(c.waypoints.value[i].0, c.waypoints.value[i].1)
    ensures c.buildableTiles.None? ==> m.buildableTiles == {}
    ensures c.buildableTiles.Some? ==> forall t :: t in m.buildableTiles <==> t in c.buildableTiles.value
  {
    LoadedMap(c.id, c.name, ToWaypoints(c.waypoints.value),
              if c.buildableTiles.Some? then set t | t in c.buildableTiles.value else {}, c.background)
  }

  /** A map built from an accepted config: named, with an id and at least two waypoints. */
  predicate Usable(m: LoadedMap)
  {
    m.id != "" && m.name != "" && |m.waypoints| >= 2
  }

  lemma ProcessedUsable(c: MapConfig)
    requires WellFormed(c)
    ensures Usable(ProcessMapConfig(c))
  {
  }

  /** `createPath`: fewer than two waypoints throw; otherwise the waypoints as they are. */
  function CreatePath(waypoints: seq<Point>): (r: Result<Path, MapError>)
    ensures r.Success? <==> |waypoints| >= 2
    ensures r.Failure? ==> r.error == TooFewWaypoints
    ensures r.Success? ==> r.value.waypoints == waypoints
  {
    if |waypoints| < 2 then Failure(TooFewWaypoints) else Success(Path(waypoints))
  }

  // ---- the tile key `${Math.floor(x)},${Math.floor(y)}` ----

  function TileKey(i: int, j: int): string
  {
    IntString(i) + "," + IntString(j)
  }

  /** Different cells have different keys: the first comma splits a key back into its two numerals. */
  lemma TileKeyInjective(i: int, j: int, k: int, l: int)
    requires TileKey(i, j) == TileKey(k, l)
    ensures i == k && j == l
  {
    var s := TileKey(i, j);
    var a, b := IntString(i), IntString(k);
    assert s[|a|] == ',' && s[|b|] == ',';
    assert a == s[..|a|] == b;
    IntStringInjective(i, k);
    assert IntString(j) == s[|a| + 1..] == IntString(l);
    IntStringInjective(j, l);
  }

  /** The cells a set of tile keys names. */
  ghost predicate NamesCell(tiles: set<string>, i: int, j: int)
  {
    TileKey(i, j) in tiles
  }

  class MapManager {
    var loadedMaps: map<string, LoadedMap>
    var currentMap: Option<LoadedMap>

    /** Every cached map came from an accepted config. */
    ghost predicate Valid()
      reads this
    {
      forall id :: id in loadedMaps ==> Usable(loadedMaps[id])
    }

    constructor ()
      ensures loadedMaps == map[] && currentMap.None? && Valid()
    {
      loadedMaps := map[];
      currentMap := None;
    }

    /**
     * `loadMap`: a cached id returns its map without loading again;
     * otherwise the fetched config is validated, processed and cached
     * under the id, and an error caches nothing.
     */
    method LoadMap(mapId: string, fetched: Option<MapConfig>) returns (r: Result<LoadedMap, MapError>)
      requires Valid()
      modifies this`loadedMaps
      ensures Valid()
      ensures mapId in old(loadedMaps) ==> r == Success(old(loadedMaps)[mapId]) && loadedMaps == old(loadedMaps)
      ensures mapId !in old(loadedMaps) && LoadMapConfig(fetched).Failure? ==>
        r == Failure(LoadMapConfig(fetched).error) && loadedMaps == old(loadedMaps)
      ensures mapId !in old(loadedMaps) && LoadMapConfig(fetched).Success? ==>
        r == Success(ProcessMapConfig(fetched.value)) && loadedMaps == old(loadedMaps)[mapId := r.value]
      ensures r.Success? ==> Usable(r.value) && mapId in loadedMaps && loadedMaps[mapId] == r.value
    {
      if mapId in loadedMaps {
        return Success(loadedMaps[mapId]);
      }
      var config := LoadMapConfig(fetched);
      if config.Failure? {
        return Failure(config.error);
      }
      var loadedMap := ProcessMapConfig(config.value);
      ProcessedUsable(config.value);
      loadedMaps := loadedMaps[mapId := loadedMap];
      return Success(loadedMap);
    }

    method SetCurrentMap(m: LoadedMap)
      modifies this`currentMap
      ensures currentMap == Some(m)
    {
      currentMap := Some(m);
    }

    function GetCurrentMap(): Option<LoadedMap>
      reads this
    {
      currentMap
    }

    /** `getCurrentPath`: no path without a map, otherwise the path of its waypoints (which may throw). */
    function GetCurrentPath(): (r: Result<Option<Path>, MapError>)
      reads this
      ensures currentMap.None? ==> r == Success(None)
      ensures currentMap.Some? && Usable(currentMap.value) ==> r == Success(Some(Path(currentMap.value.waypoints)))
      ensures currentMap.Some? && |currentMap.value.waypoints| < 2 ==> r == Failure(TooFewWaypoints)
    {
      if currentMap.None? then Success(None)
      else
        match CreatePath(currentMap.value.waypoints)
        case Success(p) => Success(Some(p))
        case Failure(e) => Failure(e)
    }

    /**
     * `canBuildAt`: nowhere without a map, everywhere when the map lists no
     * tiles, and otherwise exactly on the listed tiles, the point's tile
     * being its floored coordinates.
     */
    function CanBuildAt(x: real, y: real): (r: bool)
      reads this
      ensures currentMap.None? ==> !r
      ensures currentMap.Some? && currentMap.value.buildableTiles == {} ==> r
      ensures currentMap.Some? && currentMap.value.buildableTiles != {} ==>
        (r <==> TileKey(x.Floor, y.Floor) in currentMap.value.buildableTiles)
    {
      if currentMap.None? then false
      else if |currentMap.value.buildableTiles| == 0 then true
      else TileKey(x.Floor, y.Floor) in currentMap.value.buildableTiles
    }

    /**
     * With a map that lists tiles, a point can be built on exactly when
     * its cell (i, j) is listed, that is when i <= x < i + 1 and
     * j <= y < j + 1 for a listed key "i,j".
     */
    lemma CanBuildAtCells(x: real, y: real, i: int, j: int)
      requires currentMap.Some? && currentMap.value.buildableTiles != {}
      requires NamesCell(currentMap.value.buildableTiles, i, j)
      ensures CanBuildAt(x, y) <== i as real <= x < i as real + 1.0 && j as real <= y < j as real + 1.0
      ensures !CanBuildAt(x, y) ==> x.Floor != i || y.Floor != j
    {
    }

    /** A listed key is the only one that admits its cell: a point is buildable only inside listed cells. */
    lemma BuildableOnlyInListedCells(x: real, y: real, i: int, j: int)
      requires currentMap.Some? && currentMap.value.buildableTiles == {TileKey(i, j)}
      ensures CanBuildAt(x, y) <==> x.Floor == i && y.Floor == j
    {
      if CanBuildAt(x, y) {
        TileKeyInjective(x.Floor, y.Floor, i, j);
      }
    }

    /** `clearCache`: no cached map and no current map. */
    method ClearCache()
      modifies this
      ensures loadedMaps == map[] && currentMap.None? && Valid()
    {
      loadedMaps := map[];
      currentMap := None;
    }
  }
}
