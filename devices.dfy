/** Device geometry: where the representative DSP block group sits on each
    supported ECP5 device, and the names of the tiles it occupies. */
module Devices {
  import opened Results
  import opened Text

  const SupportedDevices: set<string> := {"LFE5U-25F", "LFE5U-85F", "LFE5UM5G-85F"}

  /** Number of columns in a DSP block group. */
  const GroupWidth: nat := 9

  /** Row and first column of the DSP block group the fuzzers use. */
  datatype Base = Base(row: nat, col0: nat)

  /** The device-to-coordinate map: the historical row-13 group on the 25k part,
      a group on row 34 for both 85k parts; anything else is an error. */
  function DspBase(device: string): (r: Result<Base>)
    ensures r.Ok? <==> device in SupportedDevices
    ensures r.Err? ==> r.error == UnsupportedDevice(device)
  {
    if device == "LFE5U-25F" then Ok(Base(13, 4))
    else if device == "LFE5U-85F" || device == "LFE5UM5G-85F" then Ok(Base(34, 58))
    else Err(UnsupportedDevice(device))
  }

  /** Each column of the group has a primary and a secondary configuration tile. */
  datatype Plane = Primary | Secondary

  function PlaneTileType(plane: Plane): string
  {
    match plane
    case Primary => "MIB_DSP"
    case Secondary => "MIB2_DSP"
  }

  /** `"MIB_R{r}C{c}:{type}{i}"`: the `i`-th tile of the group, at row `r`, column `c`. */
  function TileName(row: nat, col: nat, plane: Plane, i: nat): string
  {
    RowPrefix(row) + ColumnPart(col, plane, i)
  }

  function RowPrefix(row: nat): string
  {
    "MIB_R" + NatToString(row) + "C"
  }

  function ColumnPart(col: nat, plane: Plane, i: nat): string
  {
    NatToString(col) + (":" + TileSuffix(plane, i))
  }

  function TileSuffix(plane: Plane, i: nat): string
  {
    PlaneTileType(plane) + NatToString(i)
  }

  function PlaneAt(k: nat): Plane
  {
    if k % 2 == 0 then Primary else Secondary
  }

  /** `tiles` lists the group at `b`: for each of its columns, the primary tile
      and then the secondary one. */
  ghost predicate IsTileGroup(tiles: seq<string>, b: Base)
  {
    && |tiles| == 2 * GroupWidth
    && forall k :: 0 <= k < |tiles| ==> tiles[k] == TileName(b.row, b.col0 + k / 2, PlaneAt(k), k / 2)
  }

  /** `dsp_tiles_for`: the tiles of the device's DSP group, or the error for an
      unsupported device. */
  method DspTilesFor(device: string) returns (r: Result<seq<string>>)
    ensures r.Ok? <==> device in SupportedDevices
    ensures r.Err? ==> r.error == UnsupportedDevice(device)
    ensures r.Ok? ==> DspBase(device).Ok? && IsTileGroup(r.value, DspBase(device).value)
  {
    var base := DspBase(device);
    if base.Err? {
      return Err(base.error);
    }
    var tiles := GroupTiles(base.value);
    return Ok(tiles);
  }

  /** The loop of `dsp_tiles_for`: for each column of the group, its primary
      tile and then its secondary tile. */
  method GroupTiles(b: Base) returns (tiles: seq<string>)
    ensures IsTileGroup(tiles, b)
  {
    var row, c0 := b.row, b.col0;
    tiles := [];
    for i := 0 to GroupWidth
      invariant |tiles| == 2 * i
      invariant ColumnPairs(tiles, b, i)
    {
      var c := c0 + i;
      tiles := tiles + [TileName(row, c, Primary, i)];
      tiles := tiles + [TileName(row, c, Secondary, i)];
    }
    PairsFormGroup(tiles, b);
  }

  /** The first `n` columns of the group, two entries per column. */
  ghost predicate ColumnPairs(tiles: seq<string>, b: Base, n: nat)
    requires |tiles| == 2 * n
  {
    forall j :: 0 <= j < n ==>
      tiles[2 * j] == TileName(b.row, b.col0 + j, Primary, j) &&
      tiles[2 * j + 1] == TileName(b.row, b.col0 + j, Secondary, j)
  }

  lemma PairsFormGroup(tiles: seq<string>, b: Base)
    requires |tiles| == 2 * GroupWidth && ColumnPairs(tiles, b, GroupWidth)
    ensures IsTileGroup(tiles, b)
  {
    forall k | 0 <= k < |tiles|
      ensures tiles[k] == TileName(b.row, b.col0 + k / 2, PlaneAt(k), k / 2)
    {
      var j := k / 2;
      assert k == 2 * j || k == 2 * j + 1;
    }
  }

  /** The group read column by column: entry `2i` is the primary and entry `2i+1`
      the secondary tile of column `c0 + i`. */
  lemma TileGroupColumns(tiles: seq<string>, b: Base, i: nat)
    requires IsTileGroup(tiles, b)
    requires i < GroupWidth
    ensures tiles[2 * i] == "MIB_R" + NatToString(b.row) + "C" + NatToString(b.col0 + i) + ":MIB_DSP" + NatToString(i)
    ensures tiles[2 * i + 1] == "MIB_R" + NatToString(b.row) + "C" + NatToString(b.col0 + i) + ":MIB2_DSP" + NatToString(i)
  {
    assert (2 * i) / 2 == i && (2 * i + 1) / 2 == i;
    assert PlaneAt(2 * i) == Primary && PlaneAt(2 * i + 1) == Secondary;
    TileNameSpelled(b.row, b.col0 + i, Primary, i);
    TileNameSpelled(b.row, b.col0 + i, Secondary, i);
    PlaneText(Primary);
    PlaneText(Secondary);
  }

  lemma TileNameSpelled(row: nat, col: nat, plane: Plane, i: nat)
    ensures TileName(row, col, plane, i)
         == "MIB_R" + NatToString(row) + "C" + NatToString(col) + (":" + PlaneTileType(plane)) + NatToString(i)
  {
    Regroup(RowPrefix(row), NatToString(col), ":", PlaneTileType(plane), NatToString(i));
  }

  lemma Regroup<T>(a: seq<T>, b: seq<T>, c: seq<T>, d: seq<T>, e: seq<T>)
    ensures a + (b + (c + (d + e))) == a + b + (c + d) + e
  {
  }

  lemma PlaneText(plane: Plane)
    ensures ":" + PlaneTileType(plane) == (if plane == Primary then ":MIB_DSP" else ":MIB2_DSP")
  {
  }

  lemma PlaneTileTypeInjective(p: Plane, q: Plane, x: string, y: string)
    ensures PlaneTileType(p) + x == PlaneTileType(q) + y ==> p == q && x == y
  {
    assert (PlaneTileType(p) + x)[3] == PlaneTileType(p)[3];
    assert (PlaneTileType(q) + y)[3] == PlaneTileType(q)[3];
    assert (PlaneTileType(p) + x)[|PlaneTileType(p)|..] == x;
    assert (PlaneTileType(q) + y)[|PlaneTileType(q)|..] == y;
  }

  lemma ColumnPartInjective(c: nat, p: Plane, i: nat, c': nat, p': Plane, i': nat)
    ensures ColumnPart(c, p, i) == ColumnPart(c', p', i') ==> c == c' && p == p' && i == i'
  {
    if ColumnPart(c, p, i) == ColumnPart(c', p', i') {
      var t, t' := TileSuffix(p, i), TileSuffix(p', i');
      DigitRunSplit(NatToString(c), ":" + t, NatToString(c'), ":" + t');
      assert t == (":" + t)[1..] && t' == (":" + t')[1..];
      NatToStringInjective(c, c');
      TileSuffixInjective(p, i, p', i');
    }
  }

  lemma TileSuffixInjective(p: Plane, i: nat, p': Plane, i': nat)
    ensures TileSuffix(p, i) == TileSuffix(p', i') ==> p == p' && i == i'
  {
    PlaneTileTypeInjective(p, p', NatToString(i), NatToString(i'));
    NatToStringInjective(i, i');
  }

  /** Within one row, a tile name determines its column, plane and index. */
  lemma TileNameInjective(row: nat, c: nat, p: Plane, i: nat, c': nat, p': Plane, i': nat)
    ensures TileName(row, c, p, i) == TileName(row, c', p', i') ==> c == c' && p == p' && i == i'
  {
    var h := RowPrefix(row);
    assert TileName(row, c, p, i)[|h|..] == ColumnPart(c, p, i);
    assert TileName(row, c', p', i')[|h|..] == ColumnPart(c', p', i');
    ColumnPartInjective(c, p, i, c', p', i');
  }

  /** The 18 tiles of a group are pairwise distinct. */
  lemma TileGroupDistinct(tiles: seq<string>, b: Base)
    requires IsTileGroup(tiles, b)
    ensures Distinct(tiles)
  {
    forall j, k | 0 <= j < |tiles| && 0 <= k < |tiles| && j != k
      ensures tiles[j] != tiles[k]
    {
      TileNameInjective(b.row, b.col0 + j / 2, PlaneAt(j), j / 2, b.col0 + k / 2, PlaneAt(k), k / 2);
      HalfAndPlane(j, k);
    }
  }

  /** An index into the group is determined by its column and its plane. */
  lemma HalfAndPlane(j: nat, k: nat)
    ensures j / 2 == k / 2 && PlaneAt(j) == PlaneAt(k) ==> j == k
  {
  }

  /** The two 85k parts share one geometry. */
  lemma SharedGeometry()
    ensures DspBase("LFE5U-85F") == DspBase("LFE5UM5G-85F") == Ok(Base(34, 58))
    ensures DspBase("LFE5U-25F") == Ok(Base(13, 4))
  {
  }
}
