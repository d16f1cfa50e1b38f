/**
 * The offline map-tile store (`services/OfflineTileCache.java`). Tiles live in
 * the directory `cache/tiles` as files `z/x/y.png`; since that path is one-to-one
 * in (z, x, y) (`TilePathInjective`), the directory is modelled as a map from
 * tile to bytes. A pre-cache job walks zooms 12 to 16 around a centre tile and
 * downloads every in-range tile not yet on disk.
 *
 * The Mercator centre tile of each zoom is an input (`centre`), and so is what
 * the tile server would answer for each tile (`upstream`). The `requests` log
 * records the tiles for which an HTTP request was made.
 */
module OfflineTiles {
  import opened Wrappers
  import opened JavaText

  const MinZoom: int := 12
  const MaxZoom: int := 16

  datatype Tile = Tile(z: int, x: int, y: int)

  /** The tile at the search centre for one zoom (`lonToTileX`, `latToTileY`). */
  datatype Centre = Centre(x: int, y: int)

  /** `1 << zoom` for the zooms the job uses. */
  function Pow2(n: nat): (r: nat)
    ensures r >= 1
  {
    if n == 0 then 1 else 2 * Pow2(n - 1)
  }

  /** The tiles that exist at `zoom`: `0 <= x, y < 2^zoom`. */
  predicate InGrid(zoom: nat, x: int, y: int) {
    0 <= x < Pow2(zoom) && 0 <= y < Pow2(zoom)
  }

  /** `Math.max(1, 6 - (zoom - MIN_ZOOM))`: fewer tiles around the centre as the zoom grows. */
  function Radius(zoom: int): (r: int)
    ensures r >= 1
  {
    if 6 - (zoom - MinZoom) > 1 then 6 - (zoom - MinZoom) else 1
  }

  /** Radii 6, 5, 4, 3, 2 over the zooms of a job; never below 1, and never growing with the zoom. */
  lemma RadiusPerZoom(z1: int, z2: int)
    ensures Radius(12) == 6 && Radius(13) == 5 && Radius(14) == 4 && Radius(15) == 3 && Radius(16) == 2
    ensures z2 >= 17 ==> Radius(z2) == 1
    ensures z1 <= z2 ==> Radius(z1) >= Radius(z2)
  {
  }

  // ---------------------------------------------------------------------------
  // File names
  // ---------------------------------------------------------------------------

  /** `getTilePath`: "%d/%d/%d.png", relative to the cache directory. */
  function TilePath(t: Tile): (r: string)
    ensures EndsWith(r, ".png")
  {
    var ps := TilePathParts(t);
    assert ps[1..][1..] == [ps[2]];
    assert Join(ps[1..], '/') == ps[1] + ['/'] + ps[2];
    EndsWithOfSuffix(ps[1] + ['/'], ps[2], ".png");
    EndsWithOfSuffix(ps[0] + ['/'], Join(ps[1..], '/'), ".png");
    Join(ps, '/')
  }

  /** The path is the three numbers, '/' between them, then ".png". */
  lemma TilePathText(t: Tile)
    ensures TilePath(t) == IntToString(t.z) + "/" + IntToString(t.x) + "/" + IntToString(t.y) + ".png"
  {
    var ps := TilePathParts(t);
    assert ps[1..][1..] == [ps[2]];
    assert Join(ps[1..], '/') == ps[1] + "/" + ps[2];
  }

  lemma EndsWithOfSuffix(a: string, b: string, suffix: string)
    requires EndsWith(b, suffix)
    ensures EndsWith(a + b, suffix)
  {
    assert (a + b)[|a + b| - |suffix|..] == b[|b| - |suffix|..];
  }

  /** The three '/'-separated names of a tile's file. */
  function TilePathParts(t: Tile): (r: seq<string>)
    ensures |r| == 3 && forall i :: 0 <= i < 3 ==> '/' !in r[i]
  {
    NoSeparatorIn(t.z, "");
    NoSeparatorIn(t.x, "");
    NoSeparatorIn(t.y, ".png");
    [IntToString(t.z), IntToString(t.x), IntToString(t.y) + ".png"]
  }

  /** A decimal numeral, followed by a suffix without '/', holds no '/' and no '.' before the suffix. */
  lemma NoSeparatorIn(n: int, suffix: string)
    requires '/' !in suffix
    ensures '/' !in IntToString(n) + suffix
    ensures '.' !in IntToString(n)
  {
    var s := IntToString(n);
    assert forall i :: 0 <= i < |s| ==> s[i] != '/' && s[i] != '.';
    assert forall i :: |s| <= i < |s + suffix| ==> (s + suffix)[i] == suffix[i - |s|];
  }

  /** Different tiles are stored in different files. */
  lemma TilePathInjective(a: Tile, b: Tile)
    requires TilePath(a) == TilePath(b)
    ensures a == b
  {
    PiecesOfJoinAll(TilePathParts(a), '/');
    PiecesOfJoinAll(TilePathParts(b), '/');
    var pa, pb := TilePathParts(a), TilePathParts(b);
    assert pa == pb;
    IntToStringInjective(a.z, b.z);
    IntToStringInjective(a.x, b.x);
    assert IntToString(a.y) == pa[2][..|pa[2]| - 4];
    assert IntToString(b.y) == pb[2][..|pb[2]| - 4];
    IntToStringInjective(a.y, b.y);
  }

  // ---------------------------------------------------------------------------
  // One download
  // ---------------------------------------------------------------------------

  /** What the tile server's answer and the copy to disk come to. */
  datatype Download =
      /** A successful response with a body, copied to the file in full. */
    | Delivered(bytes: seq<byte>)
      /** A response that is not successful or has no body: nothing is written. */
    | Refused
      /** An `IOException` before the file is opened (no connection, timeout, directory not made). */
    | Failed
      /** An `IOException` while copying the body: the file keeps what was written so far. */
    | BrokenStream(written: seq<byte>)

  /** The tile directory, the `downloadedTiles` counter and the request log. */
  datatype Store = Store(tiles: map<Tile, seq<byte>>, downloaded: nat, requests: seq<Tile>)

  /** `downloadTile`. */
  function Step(s: Store, t: Tile, upstream: Tile -> Download): Store {
    if t in s.tiles then s
    else
      var asked := s.(requests := s.requests + [t]);
      match upstream(t)
      case Delivered(bytes) => asked.(tiles := s.tiles[t := bytes], downloaded := s.downloaded + 1)
      case Refused => asked
      case Failed => asked
      case BrokenStream(written) => asked.(tiles := s.tiles[t := written])
  }

  /**
   * A cached tile costs no request and changes nothing; otherwise one request is
   * made, and only a complete copy raises the counter. A copy broken off midway
   * leaves its partial file behind, which from then on counts as cached.
   */
  lemma DownloadTileOutcomes(s: Store, t: Tile, upstream: Tile -> Download)
    ensures t in s.tiles ==> Step(s, t, upstream) == s
    ensures t !in s.tiles ==> Step(s, t, upstream).requests == s.requests + [t]
    ensures t !in s.tiles && upstream(t).Delivered? ==>
              Step(s, t, upstream).tiles == s.tiles[t := upstream(t).bytes] && Step(s, t, upstream).downloaded == s.downloaded + 1
    ensures t !in s.tiles && (upstream(t).Refused? || upstream(t).Failed?) ==>
              Step(s, t, upstream).tiles == s.tiles && Step(s, t, upstream).downloaded == s.downloaded
    ensures t !in s.tiles && upstream(t).BrokenStream? ==>
              Step(s, t, upstream).tiles == s.tiles[t := upstream(t).written] && Step(s, t, upstream).downloaded == s.downloaded
  {
  }

  /** How many of `ts` the server delivers in full. */
  function DeliveredCount(ts: seq<Tile>, upstream: Tile -> Download): (n: nat)
    ensures n <= |ts|
  {
    if |ts| == 0 then 0
    else DeliveredCount(ts[..|ts| - 1], upstream) + (if upstream(ts[|ts| - 1]).Delivered? then 1 else 0)
  }

  /** The downloads of `ts`, one after the other. */
  function Steps(s: Store, ts: seq<Tile>, upstream: Tile -> Download): Store {
    Run(s, ts, Fetch(upstream))
  }

  /** `downloadTile` against `upstream`, as one step of a run. */
  function Fetch(upstream: Tile -> Download): (Store, Tile) -> Store {
    (p, t) => Step(p, t, upstream)
  }

  /** The store after `step` has taken the tiles of `ts`, one after the other. */
  function Run(s: Store, ts: seq<Tile>, step: (Store, Tile) -> Store): Store {
    if |ts| == 0 then s else step(Run(s, ts[..|ts| - 1], step), ts[|ts| - 1])
  }

  /** The tiles of `ts` a request goes out for: those not on disk when their turn comes. */
  function Requested(s: Store, ts: seq<Tile>, upstream: Tile -> Download): seq<Tile> {
    if |ts| == 0 then []
    else
      var front := ts[..|ts| - 1];
      var t := ts[|ts| - 1];
      Requested(s, front, upstream) + (if t in Steps(s, front, upstream).tiles then [] else [t])
  }

  /** A tile on disk is never fetched again or overwritten. */
  lemma {:induction false} StepsKeep(s: Store, ts: seq<Tile>, upstream: Tile -> Download)
    ensures forall k :: k in s.tiles ==> k in Steps(s, ts, upstream).tiles && Steps(s, ts, upstream).tiles[k] == s.tiles[k]
    decreases |ts|
  {
    if ts != [] {
      StepsKeep(s, ts[..|ts| - 1], upstream);
    }
  }

  /** The log grows by the requested tiles, each a tile of the run that was not on disk at the start. */
  lemma {:induction false} StepsLog(s: Store, ts: seq<Tile>, upstream: Tile -> Download)
    ensures Steps(s, ts, upstream).requests == s.requests + Requested(s, ts, upstream)
    ensures forall t :: t in Requested(s, ts, upstream) ==> t in ts && t !in s.tiles
    decreases |ts|
  {
    if ts != [] {
      var front := ts[..|ts| - 1];
      StepsLog(s, front, upstream);
      StepsKeep(s, front, upstream);
      assert forall t :: t in front ==> t in ts;
      var q := Requested(s, front, upstream);
      var t := ts[|ts| - 1];
      if t in Steps(s, front, upstream).tiles {
        assert q + [] == q;
      } else {
        assert s.requests + q + [t] == s.requests + (q + [t]);
      }
    }
  }

  /** Every new file follows a request, and the counter grows by the complete copies among the requests. */
  lemma {:induction false} StepsFiles(s: Store, ts: seq<Tile>, upstream: Tile -> Download)
    ensures forall k :: k in Steps(s, ts, upstream).tiles && k !in s.tiles ==> k in Requested(s, ts, upstream)
    ensures Steps(s, ts, upstream).downloaded == s.downloaded + DeliveredCount(Requested(s, ts, upstream), upstream)
    decreases |ts|
  {
    if ts != [] {
      var front := ts[..|ts| - 1];
      StepsFiles(s, front, upstream);
      var q := Requested(s, front, upstream);
      var t := ts[|ts| - 1];
      if t in Steps(s, front, upstream).tiles {
        assert q + [] == q;
      } else {
        assert (q + [t])[..|q|] == q;
      }
    }
  }

  // The loops of the job, level by level. Each level is stated for any `step`,
  // so that what one download does stays out of the reasoning about order.

  lemma {:induction false} RunAppend(s: Store, a: seq<Tile>, b: seq<Tile>, step: (Store, Tile) -> Store)
    ensures Run(s, a + b, step) == Run(Run(s, a, step), b, step)
    decreases |b|
  {
    if b == [] {
      assert a + b == a;
    } else {
      assert (a + b)[..|a + b| - 1] == a + b[..|b| - 1];
      RunAppend(s, a, b[..|b| - 1], step);
    }
  }

  /** One more tile after a run. */
  lemma RunSnoc(s: Store, ts: seq<Tile>, t: Tile, step: (Store, Tile) -> Store)
    ensures Run(s, ts + [t], step) == step(Run(s, ts, step), t)
  {
    assert (ts + [t])[..|ts|] == ts;
  }

  /** The store after rows `ylo..y` of column `x`, taken tile by tile as the inner loop does. */
  function AfterRows(s: Store, zoom: nat, x: int, ylo: int, y: int, step: (Store, Tile) -> Store): Store
    decreases y - ylo
  {
    if y < ylo then s
    else
      var prev := AfterRows(s, zoom, x, ylo, y - 1, step);
      if InGrid(zoom, x, y) then step(prev, Tile(zoom, x, y)) else prev
  }

  /** Row by row is the same as the run over the column's tiles. */
  lemma {:induction false} AfterRowsIsRun(s: Store, zoom: nat, x: int, ylo: int, y: int, step: (Store, Tile) -> Store)
    ensures AfterRows(s, zoom, x, ylo, y, step) == Run(s, Column(zoom, x, ylo, y), step)
    decreases y - ylo
  {
    if y >= ylo {
      AfterRowsIsRun(s, zoom, x, ylo, y - 1, step);
      ColumnSnoc(zoom, x, ylo, y);
      if InGrid(zoom, x, y) {
        RunSnoc(s, Column(zoom, x, ylo, y - 1), Tile(zoom, x, y), step);
      }
    }
  }

  /** The store after columns `xlo..x`, each over rows `ylo..yhi`, as the outer loop does. */
  function AfterColumns(s: Store, zoom: nat, xlo: int, x: int, ylo: int, yhi: int, step: (Store, Tile) -> Store): Store
    decreases x - xlo
  {
    if x < xlo then s
    else AfterRows(AfterColumns(s, zoom, xlo, x - 1, ylo, yhi, step), zoom, x, ylo, yhi, step)
  }

  /** Column by column is the same as the run over the whole block. */
  lemma {:induction false} AfterColumnsIsRun(s: Store, zoom: nat, xlo: int, x: int, ylo: int, yhi: int, step: (Store, Tile) -> Store)
    ensures AfterColumns(s, zoom, xlo, x, ylo, yhi, step) == Run(s, Block(zoom, xlo, x, ylo, yhi), step)
    decreases x - xlo
  {
    if x >= xlo {
      AfterColumnsIsRun(s, zoom, xlo, x - 1, ylo, yhi, step);
      AfterRowsIsRun(AfterColumns(s, zoom, xlo, x - 1, ylo, yhi, step), zoom, x, ylo, yhi, step);
      RunAppend(s, Block(zoom, xlo, x - 1, ylo, yhi), Column(zoom, x, ylo, yhi), step);
    }
  }

  /** The store after one zoom: the columns of the square of radius `Radius(zoom)` around `c`. */
  function AfterSquare(s: Store, zoom: nat, c: Centre, step: (Store, Tile) -> Store): Store {
    AfterColumns(s, zoom, c.x - Radius(zoom), c.x + Radius(zoom), c.y - Radius(zoom), c.y + Radius(zoom), step)
  }

  /** One zoom, column by column, is the run over that zoom's tiles. */
  lemma AfterSquareIsRun(s: Store, zoom: nat, c: Centre, step: (Store, Tile) -> Store)
    ensures AfterSquare(s, zoom, c, step) == Run(s, ZoomTiles(zoom, c), step)
  {
    var r := Radius(zoom);
    var xlo, xhi, ylo, yhi := c.x - r, c.x + r, c.y - r, c.y + r;
    AfterColumnsIsRun(s, zoom, xlo, xhi, ylo, yhi, step);
  }

  /** The store after zooms 12 to `zoom`, zoom `z` taking the store `p` to `zoomStep(p, z)`. */
  function FoldZooms(s: Store, zoomStep: (Store, int) -> Store, zoom: int): Store
    decreases zoom - MinZoom
  {
    if zoom < MinZoom then s else zoomStep(FoldZooms(s, zoomStep, zoom - 1), zoom)
  }

  /** Folding zoom by zoom is the run over all the zooms' tiles when each zoom's step is the run over its own. */
  lemma {:induction false} FoldZoomsIsRun(s: Store, zoomStep: (Store, int) -> Store, perZoom: int -> seq<Tile>, zoom: int, step: (Store, Tile) -> Store)
    requires forall p, z :: MinZoom <= z ==> zoomStep(p, z) == Run(p, perZoom(z), step)
    ensures FoldZooms(s, zoomStep, zoom) == Run(s, Zooms(perZoom, zoom), step)
    decreases zoom - MinZoom
  {
    if zoom >= MinZoom {
      FoldZoomsIsRun(s, zoomStep, perZoom, zoom - 1, step);
      RunAppend(s, Zooms(perZoom, zoom - 1), perZoom(zoom), step);
    }
  }

  /** What the job does at one zoom: the square around that zoom's centre tile, column by column. */
  function SquareStep(centre: int -> Centre, step: (Store, Tile) -> Store): (Store, int) -> Store {
    (p, z) => if z < MinZoom then p else AfterSquare(p, z, CentreAt(centre, z), step)
  }

  /** The store after zooms 12 to `zoom`, taken zoom by zoom as the job does. */
  function AfterZooms(s: Store, centre: int -> Centre, zoom: int, step: (Store, Tile) -> Store): Store {
    FoldZooms(s, SquareStep(centre, step), zoom)
  }

  /** The centre tile at `zoom`. */
  function CentreAt(centre: int -> Centre, zoom: int): Centre {
    centre(zoom)
  }

  /** Zoom by zoom is the same as the run over the job's whole visiting order. */
  lemma AfterZoomsIsRun(s: Store, centre: int -> Centre, zoom: int, step: (Store, Tile) -> Store)
    ensures AfterZooms(s, centre, zoom, step) == Run(s, Batch(centre, zoom), step)
  {
    forall p: Store, z: int | MinZoom <= z ensures SquareStep(centre, step)(p, z) == Run(p, PerZoom(centre)(z), step) {
      AfterSquareIsRun(p, z, CentreAt(centre, z), step);
    }
    FoldZoomsIsRun(s, SquareStep(centre, step), PerZoom(centre), zoom, step);
  }

  // ---------------------------------------------------------------------------
  // The tiles a job visits, in visiting order
  // ---------------------------------------------------------------------------

  /** Row-major tile order: by zoom, then x, then y. */
  predicate Before(a: Tile, b: Tile) {
    a.z < b.z || (a.z == b.z && (a.x < b.x || (a.x == b.x && a.y < b.y)))
  }

  predicate Ascending(ts: seq<Tile>) {
    forall i, j :: 0 <= i < j < |ts| ==> Before(ts[i], ts[j])
  }

  /** The number of integers in `lo..hi`. */
  function Span(lo: int, hi: int): nat {
    if hi < lo then 0 else hi - lo + 1
  }

  /** The inner loop of `downloadTilesForZoom`: y from `ylo` to `yhi`, tiles outside the grid skipped. */
  function Column(zoom: nat, x: int, ylo: int, yhi: int): seq<Tile>
    decreases yhi - ylo
  {
    if yhi < ylo then []
    else Column(zoom, x, ylo, yhi - 1) + (if InGrid(zoom, x, yhi) then [Tile(zoom, x, yhi)] else [])
  }

  /** One more row of a column. */
  lemma ColumnSnoc(zoom: nat, x: int, ylo: int, y: int)
    requires ylo <= y
    ensures InGrid(zoom, x, y) ==> Column(zoom, x, ylo, y) == Column(zoom, x, ylo, y - 1) + [Tile(zoom, x, y)]
    ensures !InGrid(zoom, x, y) ==> Column(zoom, x, ylo, y) == Column(zoom, x, ylo, y - 1)
  {
    assert Column(zoom, x, ylo, y - 1) + [] == Column(zoom, x, ylo, y - 1);
  }

  /** A column holds exactly its in-grid tiles, in increasing y, at most one per row. */
  lemma {:induction false} ColumnFacts(zoom: nat, x: int, ylo: int, yhi: int)
    ensures forall t :: t in Column(zoom, x, ylo, yhi) <==>
              t.z == zoom && t.x == x && ylo <= t.y <= yhi && InGrid(zoom, x, t.y)
    ensures Ascending(Column(zoom, x, ylo, yhi))
    ensures |Column(zoom, x, ylo, yhi)| <= Span(ylo, yhi)
    decreases yhi - ylo
  {
    if yhi >= ylo {
      ColumnFacts(zoom, x, ylo, yhi - 1);
      var p := Column(zoom, x, ylo, yhi - 1);
      if InGrid(zoom, x, yhi) {
        AscendingJoin(p, [Tile(zoom, x, yhi)]);
      } else {
        assert p + [] == p;
      }
    }
  }

  /** Both loops of `downloadTilesForZoom`: x from `xlo` to `xhi`, each a column over `ylo..yhi`. */
  function Block(zoom: nat, xlo: int, xhi: int, ylo: int, yhi: int): seq<Tile>
    decreases xhi - xlo
  {
    if xhi < xlo then [] else Block(zoom, xlo, xhi - 1, ylo, yhi) + Column(zoom, xhi, ylo, yhi)
  }

  /** A block holds exactly the in-grid tiles of its rectangle. */
  lemma {:induction false} BlockMembers(zoom: nat, xlo: int, xhi: int, ylo: int, yhi: int)
    ensures forall t :: t in Block(zoom, xlo, xhi, ylo, yhi) <==>
              t.z == zoom && xlo <= t.x <= xhi && ylo <= t.y <= yhi && InGrid(zoom, t.x, t.y)
    decreases xhi - xlo
  {
    if xhi >= xlo {
      BlockMembers(zoom, xlo, xhi - 1, ylo, yhi);
      ColumnFacts(zoom, xhi, ylo, yhi);
    }
  }

  /** A block is in row-major order, at most one tile per cell of its rectangle. */
  lemma {:induction false} BlockFacts(zoom: nat, xlo: int, xhi: int, ylo: int, yhi: int)
    ensures Ascending(Block(zoom, xlo, xhi, ylo, yhi))
    ensures |Block(zoom, xlo, xhi, ylo, yhi)| <= Span(xlo, xhi) * Span(ylo, yhi)
    decreases xhi - xlo
  {
    if xhi >= xlo {
      var p := Block(zoom, xlo, xhi - 1, ylo, yhi);
      var c := Column(zoom, xhi, ylo, yhi);
      BlockFacts(zoom, xlo, xhi - 1, ylo, yhi);
      BlockMembers(zoom, xlo, xhi - 1, ylo, yhi);
      ColumnFacts(zoom, xhi, ylo, yhi);
      AscendingJoin(p, c);
      var w := Span(ylo, yhi);
      assert Span(xlo, xhi) * w == Span(xlo, xhi - 1) * w + w;
    }
  }

  /** Two ascending runs, all of the first before all of the second, make one. */
  lemma AscendingJoin(p: seq<Tile>, c: seq<Tile>)
    requires Ascending(p) && Ascending(c)
    requires forall a, b :: a in p && b in c ==> Before(a, b)
    ensures Ascending(p + c)
  {
    forall i, j | 0 <= i < j < |p + c| ensures Before((p + c)[i], (p + c)[j]) {
      if j >= |p| && i < |p| {
        assert (p + c)[i] in p && (p + c)[j] in c;
      }
    }
  }

  /** `downloadTilesForZoom` around the centre tile `c`. */
  function ZoomTiles(zoom: nat, c: Centre): seq<Tile> {
    var radius := Radius(zoom);
    Block(zoom, c.x - radius, c.x + radius, c.y - radius, c.y + radius)
  }

  /**
   * One zoom visits exactly the in-grid tiles within `Radius(zoom)` of the centre
   * on both axes.
   */
  lemma ZoomTilesMembers(zoom: nat, c: Centre)
    ensures forall t :: t in ZoomTiles(zoom, c) <==>
              t.z == zoom && c.x - Radius(zoom) <= t.x <= c.x + Radius(zoom)
              && c.y - Radius(zoom) <= t.y <= c.y + Radius(zoom) && InGrid(zoom, t.x, t.y)
  {
    var radius := Radius(zoom);
    BlockMembers(zoom, c.x - radius, c.x + radius, c.y - radius, c.y + radius);
  }

  /** Every tile of one zoom has that zoom. */
  lemma ZoomTilesZoom(zoom: nat, c: Centre)
    ensures forall t :: t in ZoomTiles(zoom, c) ==> t.z == zoom
  {
    ZoomTilesMembers(zoom, c);
  }

  /** The tiles of one zoom come in visiting order, at most (2r + 1)² of them. */
  lemma ZoomTilesFacts(zoom: nat, c: Centre)
    ensures Ascending(ZoomTiles(zoom, c))
    ensures |ZoomTiles(zoom, c)| <= (2 * Radius(zoom) + 1) * (2 * Radius(zoom) + 1)
  {
    var radius := Radius(zoom);
    BlockFacts(zoom, c.x - radius, c.x + radius, c.y - radius, c.y + radius);
    assert Span(c.x - radius, c.x + radius) == 2 * radius + 1;
    assert Span(c.y - radius, c.y + radius) == 2 * radius + 1;
  }

  /** The zoom loop of the job, up to and including zoom `upto`, each zoom around its own centre tile. */
  /** Zooms 12 to `upto`, one after the other, zoom `z` contributing `perZoom(z)`. */
  function Zooms(perZoom: int -> seq<Tile>, upto: int): seq<Tile>
    decreases upto - MinZoom
  {
    if upto < MinZoom then [] else Zooms(perZoom, upto - 1) + perZoom(upto)
  }

  /** Each zoom from 12 up contributes tiles of that zoom only. */
  ghost predicate Layered(perZoom: int -> seq<Tile>) {
    forall z, t :: MinZoom <= z && t in perZoom(z) ==> t.z == z
  }

  lemma {:induction false} ZoomsVisitsOnly(perZoom: int -> seq<Tile>, upto: int, t: Tile)
    requires Layered(perZoom) && t in Zooms(perZoom, upto)
    ensures MinZoom <= t.z <= upto && t in perZoom(t.z)
    decreases upto - MinZoom
  {
    if t in Zooms(perZoom, upto - 1) {
      ZoomsVisitsOnly(perZoom, upto - 1, t);
    }
  }

  lemma {:induction false} ZoomsVisits(perZoom: int -> seq<Tile>, upto: int, t: Tile)
    requires MinZoom <= t.z <= upto && t in perZoom(t.z)
    ensures t in Zooms(perZoom, upto)
    decreases upto - MinZoom
  {
    if t.z < upto {
      ZoomsVisits(perZoom, upto - 1, t);
    }
  }

  lemma {:induction false} ZoomsAscending(perZoom: int -> seq<Tile>, upto: int)
    requires Layered(perZoom) && forall z :: MinZoom <= z ==> Ascending(perZoom(z))
    ensures Ascending(Zooms(perZoom, upto))
    decreases upto - MinZoom
  {
    if upto >= MinZoom {
      var p, q := Zooms(perZoom, upto - 1), perZoom(upto);
      ZoomsAscending(perZoom, upto - 1);
      forall a, b | a in p && b in q ensures Before(a, b) {
        ZoomsVisitsOnly(perZoom, upto - 1, a);
      }
      AscendingJoin(p, q);
    }
  }

  /** What a job visits at each zoom: the square around that zoom's centre tile. */
  function PerZoom(centre: int -> Centre): int -> seq<Tile> {
    z => if z < MinZoom then [] else ZoomTiles(z, CentreAt(centre, z))
  }

  /** The zoom loop of the job, zooms 12 to `upto`. */
  function Batch(centre: int -> Centre, upto: int): seq<Tile> {
    Zooms(PerZoom(centre), upto)
  }

  lemma PerZoomFacts(centre: int -> Centre)
    ensures Layered(PerZoom(centre))
    ensures forall z :: MinZoom <= z ==> Ascending(PerZoom(centre)(z))
  {
    forall z, t | MinZoom <= z && t in PerZoom(centre)(z) ensures t.z == z {
      ZoomTileZoom(z, CentreAt(centre, z), t);
    }
    forall z | MinZoom <= z ensures Ascending(PerZoom(centre)(z)) {
      ZoomTilesFacts(z, CentreAt(centre, z));
    }
  }

  /** A job visits the tiles of each zoom from 12 up, and nothing else. */
  lemma BatchMembers(centre: int -> Centre, upto: int)
    ensures forall t :: t in Batch(centre, upto) <==> MinZoom <= t.z <= upto && t in ZoomTiles(t.z, CentreAt(centre, t.z))
  {
    PerZoomFacts(centre);
    forall t: Tile | t in Batch(centre, upto) ensures MinZoom <= t.z <= upto && t in ZoomTiles(t.z, CentreAt(centre, t.z)) {
      ZoomsVisitsOnly(PerZoom(centre), upto, t);
    }
    forall t: Tile | MinZoom <= t.z <= upto && t in ZoomTiles(t.z, CentreAt(centre, t.z)) ensures t in Batch(centre, upto) {
      ZoomsVisits(PerZoom(centre), upto, t);
    }
  }

  /** A job visits zoom after zoom, each zoom in visiting order. */
  lemma BatchAscending(centre: int -> Centre, upto: int)
    ensures Ascending(Batch(centre, upto))
  {
    PerZoomFacts(centre);
    ZoomsAscending(PerZoom(centre), upto);
  }

  lemma ZoomTileZoom(zoom: nat, c: Centre, t: Tile)
    requires t in ZoomTiles(zoom, c)
    ensures t.z == zoom
  {
    ZoomTilesZoom(zoom, c);
  }

  /** Every tile of a job lies in the grid of a zoom from 12 to 16. */
  lemma BatchInGrid(centre: int -> Centre)
    ensures forall t :: t in Batch(centre, MaxZoom) ==> MinZoom <= t.z <= MaxZoom && InGrid(t.z, t.x, t.y)
  {
    BatchMembers(centre, MaxZoom);
    forall t | t in Batch(centre, MaxZoom) ensures MinZoom <= t.z <= MaxZoom && InGrid(t.z, t.x, t.y) {
      ZoomTilesMembers(t.z, CentreAt(centre, t.z));
    }
  }

  /** A job visits at most 13² + 11² + 9² + 7² + 5² = 445 tiles. */
  lemma BatchSize(centre: int -> Centre)
    ensures |Batch(centre, MaxZoom)| <= 445
  {
    RadiusPerZoom(12, 16);
    ZoomTilesFacts(12, CentreAt(centre, 12));
    ZoomTilesFacts(13, CentreAt(centre, 13));
    ZoomTilesFacts(14, CentreAt(centre, 14));
    ZoomTilesFacts(15, CentreAt(centre, 15));
    ZoomTilesFacts(16, CentreAt(centre, 16));
    assert |Batch(centre, 11)| == 0;
    assert |Batch(centre, 12)| <= 169;
    assert |Batch(centre, 13)| <= 169 + 121;
    assert |Batch(centre, 14)| <= 169 + 121 + 81;
    assert |Batch(centre, 15)| <= 169 + 121 + 81 + 49;
  }

  /** An ascending sequence holds each tile once. */
  lemma AscendingDistinct(ts: seq<Tile>)
    requires Ascending(ts)
    ensures forall i, j :: 0 <= i < j < |ts| ==> ts[i] != ts[j]
  {
    forall i, j | 0 <= i < j < |ts| ensures ts[i] != ts[j] {
      assert Before(ts[i], ts[j]);
    }
  }

  /** The requests made while downloading an ascending run are ascending too. */
  lemma {:induction false} RequestedAscending(s: Store, ts: seq<Tile>, upstream: Tile -> Download)
    requires Ascending(ts)
    ensures Ascending(Requested(s, ts, upstream))
    decreases |ts|
  {
    if ts != [] {
      var front := ts[..|ts| - 1];
      var t := ts[|ts| - 1];
      assert Ascending(front);
      RequestedAscending(s, front, upstream);
      StepsLog(s, front, upstream);
      var earlier := Requested(s, front, upstream);
      if t !in Steps(s, front, upstream).tiles {
        forall a | a in earlier ensures Before(a, t) {
          var k :| 0 <= k < |front| && front[k] == a;
          assert ts[k] == a;
        }
        AscendingJoin(earlier, [t]);
      } else {
        assert earlier + [] == earlier;
      }
    }
  }

  /**
   * What one job asks of the tile server: at most 445 requests, each for a
   * distinct tile inside the grid of a zoom from 12 to 16 that was not on disk
   * when the job began; the counter grows by at most the number of requests.
   */
  lemma BatchRequests(s: Store, centre: int -> Centre, upstream: Tile -> Download)
    ensures var made := Requested(s, Batch(centre, MaxZoom), upstream);
      && Steps(s, Batch(centre, MaxZoom), upstream).requests == s.requests + made
      && |made| <= 445
      && (forall t :: t in made ==> MinZoom <= t.z <= MaxZoom && InGrid(t.z, t.x, t.y) && t !in s.tiles)
      && (forall i, j :: 0 <= i < j < |made| ==> made[i] != made[j])
      && s.downloaded <= Steps(s, Batch(centre, MaxZoom), upstream).downloaded <= s.downloaded + |made|
  {
    var ts := Batch(centre, MaxZoom);
    var made := Requested(s, ts, upstream);
    StepsLog(s, ts, upstream);
    StepsFiles(s, ts, upstream);
    BatchSize(centre);
    BatchAscending(centre, MaxZoom);
    BatchInGrid(centre);
    RequestedAscending(s, ts, upstream);
    AscendingDistinct(made);
    CountBound(made, ts);
  }

  /** A sequence of distinct elements of `ts` is no longer than `ts`. */
  lemma CountBound(f: seq<Tile>, ts: seq<Tile>)
    requires forall i :: 0 <= i < |f| ==> f[i] in ts
    requires forall i, j :: 0 <= i < j < |f| ==> f[i] != f[j]
    ensures |f| <= |ts|
  {
    var fs := set i | 0 <= i < |f| :: f[i];
    var all := set t | t in ts;
    assert fs <= all;
    assert all == fs + (all - fs);
    DistinctCard(f);
    SeqSetCard(ts);
  }

  lemma {:induction false} DistinctCard(f: seq<Tile>)
    requires forall i, j :: 0 <= i < j < |f| ==> f[i] != f[j]
    ensures |set i | 0 <= i < |f| :: f[i]| == |f|
  {
    if f != [] {
      var front := f[..|f| - 1];
      DistinctCard(front);
      var a := set i | 0 <= i < |front| :: front[i];
      assert (set i | 0 <= i < |f| :: f[i]) == a + {f[|f| - 1]};
      assert f[|f| - 1] !in a;
    }
  }

  lemma {:induction false} SeqSetCard(ts: seq<Tile>)
    ensures |set t | t in ts| <= |ts|
  {
    if ts != [] {
      var front := ts[..|ts| - 1];
      SeqSetCard(front);
      assert (set t | t in ts) == (set t | t in front) + {ts[|ts| - 1]};
    }
  }

  // ---------------------------------------------------------------------------
  // The cache object
  // ---------------------------------------------------------------------------

  /** How `preCacheTilesAroundLocation` returns. */
  datatype PreCacheStart =
    | AlreadyRunning
    | Started
      /** `runAsync` threw `RejectedExecutionException` because the executor was shut down. */
    | Rejected

  class TileCache {
    var tiles: map<Tile, seq<byte>>
    var isDownloading: bool
    var downloadedTiles: nat
    ghost var requests: seq<Tile>
    var executorShutdown: bool

    ghost function State(): Store
      reads this
    {
      Store(tiles, downloadedTiles, requests)
    }

    /** A cache over the tiles already on disk, with its executor ready. */
    constructor (onDisk: map<Tile, seq<byte>>)
      ensures tiles == onDisk && !isDownloading && downloadedTiles == 0 && requests == [] && !executorShutdown
    {
      tiles, isDownloading, downloadedTiles, requests, executorShutdown := onDisk, false, 0, [], false;
    }

    /**
     * The guard of `preCacheTilesAroundLocation`: nothing while a job runs;
     * otherwise the flag is raised and the counter reset before the job is handed
     * to the executor. A shut-down executor refuses the job and the flag stays up.
     */
    method StartPreCache() returns (r: PreCacheStart)
      modifies this
      ensures old(isDownloading) ==> r == AlreadyRunning && unchanged(this)
      ensures !old(isDownloading) ==> r == (if executorShutdown then Rejected else Started)
      ensures !old(isDownloading) ==> isDownloading && downloadedTiles == 0
      ensures tiles == old(tiles) && requests == old(requests) && executorShutdown == old(executorShutdown)
    {
      if isDownloading {
        return AlreadyRunning;
      }
      isDownloading := true;
      downloadedTiles := 0;
      r := if executorShutdown then Rejected else Started;
    }

    /** The job handed to the executor: zooms 12 to 16 in turn, then the flag comes down. */
    method RunBatch(centre: int -> Centre, upstream: Tile -> Download)
      modifies this
      ensures State() == Steps(old(State()), Batch(centre, MaxZoom), upstream)
      ensures !isDownloading && executorShutdown == old(executorShutdown)
    {
      ghost var s0 := State();
      var zoom := MinZoom;
      while zoom <= MaxZoom
        invariant MinZoom <= zoom <= MaxZoom + 1
        invariant State() == AfterZooms(s0, centre, zoom - 1, Fetch(upstream))
        invariant executorShutdown == old(executorShutdown)
      {
        var c := CentreAt(centre, zoom);
        DownloadTilesForZoom(zoom, c, upstream);
        zoom := zoom + 1;
      }
      isDownloading := false;
      AfterZoomsIsRun(s0, centre, MaxZoom, Fetch(upstream));
    }

    /** `downloadTilesForZoom` around the centre tile `c`: the columns of the square, left to right. */
    method DownloadTilesForZoom(zoom: nat, c: Centre, upstream: Tile -> Download)
      modifies this
      ensures State() == AfterSquare(old(State()), zoom, c, Fetch(upstream))
      ensures isDownloading == old(isDownloading) && executorShutdown == old(executorShutdown)
    {
      var radius := Radius(zoom);
      var xlo, xhi, ylo, yhi := c.x - radius, c.x + radius, c.y - radius, c.y + radius;
      ghost var s0 := State();
      var x := xlo;
      while x <= xhi
        invariant xlo <= x <= xhi + 1
        invariant State() == AfterColumns(s0, zoom, xlo, x - 1, ylo, yhi, Fetch(upstream))
        invariant isDownloading == old(isDownloading) && executorShutdown == old(executorShutdown)
      {
        DownloadColumn(zoom, x, ylo, yhi, upstream);
        x := x + 1;
      }
    }

    /** The inner loop of `downloadTilesForZoom`: the in-grid rows of column `x`, top to bottom. */
    method DownloadColumn(zoom: nat, x: int, ylo: int, yhi: int, upstream: Tile -> Download)
      modifies this
      ensures State() == AfterRows(old(State()), zoom, x, ylo, yhi, Fetch(upstream))
      ensures isDownloading == old(isDownloading) && executorShutdown == old(executorShutdown)
    {
      ghost var s0 := State();
      var y := ylo;
      while y <= yhi
        invariant y == ylo || ylo <= y <= yhi + 1
        invariant State() == AfterRows(s0, zoom, x, ylo, y - 1, Fetch(upstream))
        invariant isDownloading == old(isDownloading) && executorShutdown == old(executorShutdown)
      {
        if 0 <= x && 0 <= y && x < Pow2(zoom) && y < Pow2(zoom) {
          DownloadTile(Tile(zoom, x, y), upstream);
        }
        y := y + 1;
      }
    }

    /** `downloadTile`: skip a tile on disk, else request it and write what arrives. */
    method DownloadTile(t: Tile, upstream: Tile -> Download)
      modifies this
      ensures State() == Step(old(State()), t, upstream)
      ensures isDownloading == old(isDownloading) && executorShutdown == old(executorShutdown)
    {
      if t in tiles {
        return;
      }
      requests := requests + [t];
      var outcome := upstream(t);
      match outcome
      case Delivered(bytes) =>
        tiles := tiles[t := bytes];
        downloadedTiles := downloadedTiles + 1;
      case Refused =>
      case Failed =>
      case BrokenStream(written) =>
        tiles := tiles[t := written];
    }

    /** `isTileCached`: the tile's file exists. */
    predicate IsTileCached(z: int, x: int, y: int)
      reads this
    {
      Tile(z, x, y) in tiles
    }

    /** `getCachedTile`: the file's bytes when it exists, else null. */
    function GetCachedTile(z: int, x: int, y: int): (r: Option<seq<byte>>)
      reads this
      ensures r.Some? <==> IsTileCached(z, x, y)
      ensures r.Some? ==> r.value == tiles[Tile(z, x, y)]
    {
      if Tile(z, x, y) in tiles then Some(tiles[Tile(z, x, y)]) else None
    }

    /** `getCachedTileCount`: the `.png` files under the directory, one per stored tile. */
    function GetCachedTileCount(): (r: nat)
      reads this
      ensures r == |tiles.Keys|
      ensures r == 0 <==> tiles == map[]
    {
      |tiles.Keys|
    }

    /** `clearCache`: every file is deleted. */
    method ClearCache()
      modifies this
      ensures tiles == map[] && GetCachedTileCount() == 0
      ensures forall z, x, y :: !IsTileCached(z, x, y)
      ensures isDownloading == old(isDownloading) && downloadedTiles == old(downloadedTiles)
      ensures requests == old(requests) && executorShutdown == old(executorShutdown)
    {
      tiles := map[];
    }

    /** `shutdown`: the flag comes down and the executor stops taking jobs. */
    method Shutdown()
      modifies this
      ensures !isDownloading && executorShutdown
      ensures tiles == old(tiles) && downloadedTiles == old(downloadedTiles) && requests == old(requests)
    {
      isDownloading := false;
      executorShutdown := true;
    }
  }
}
