/**
 * The local tile responder (`services/LocalTileServer.java`): an HTTP server on
 * localhost port 8765 whose handler, mounted at "/tiles", answers a request for
 * `/tiles/{z}/{x}/{y}.png` with the cached tile's bytes, or with 404.
 *
 * The request path is taken as the handler sees it, already decoded by
 * `getRequestURI().getPath()`. Whether the socket binds is an input to `Start`.
 */
module TileServer {
  import opened Wrappers
  import opened JavaText
  import opened OfflineTiles

  const Port: int := 8765

  /** What the handler sends: a status, the headers it sets, and the bytes it writes. */
  datatype Response = Response(status: int, headers: seq<(string, string)>, body: seq<byte>)

  /** The headers of a tile answer: a PNG image that clients may keep for one day (86400 seconds). */
  function TileHeaders(): seq<(string, string)> {
    [("Content-Type", "image/png"), ("Cache-Control", "max-age=86400")]
  }

  const NotFoundText: string := "Tile not found"

  /** `sendNotFound`: status 404, no header set, and the bytes of "Tile not found". */
  function NotFound(): (r: Response)
    ensures r.status == 404 && r.headers == [] && |r.body| == |NotFoundText|
  {
    Response(404, [], AsciiBytes(NotFoundText))
  }

  /**
   * The tile a request path names, or `None` where the handler answers 404 before
   * looking at the cache: `split("/")` must give five parts, the fifth ending in
   * ".png", and parts 2, 3 and the fifth with every ".png" removed must each be an
   * `int` numeral. Part 1, the context, is never looked at.
   */
  function RequestedTile(path: string): (r: Option<Tile>)
    ensures r.Some? ==> IsInt32(r.value.z) && IsInt32(r.value.x) && IsInt32(r.value.y)
    ensures r.Some? ==> |Split(path, '/')| == 5 && EndsWith(Split(path, '/')[4], ".png")
  {
    var parts := Split(path, '/');
    if |parts| != 5 || !EndsWith(parts[4], ".png") then None
    else
      match (ParseInt(parts[2]), ParseInt(parts[3]), ParseInt(Replace(parts[4], ".png", "")))
      case (Some(z), Some(x), Some(y)) => Some(Tile(z, x, y))
      case _ => None
  }

  /** `TileHandler.handle` over the tiles on disk. */
  function Respond(path: string, tiles: map<Tile, seq<byte>>): (r: Response)
    ensures r.status == 200 <==> RequestedTile(path).Some? && RequestedTile(path).value in tiles
    ensures r.status == 200 ==> r.headers == TileHeaders() && r.body == tiles[RequestedTile(path).value]
    ensures r.status != 200 ==> r == NotFound()
  {
    match RequestedTile(path)
    case Some(t) => if t in tiles then Response(200, TileHeaders(), tiles[t]) else NotFound()
    case None => NotFound()
  }

  /** `/{context}/{z}/{x}/{y}.png`: the path of a tile request, and with "{z}", "{x}", "{y}" the URL template's. */
  function RequestPath(context: string, z: string, x: string, y: string): string {
    "/" + context + "/" + z + "/" + x + "/" + y + ".png"
  }

  /** The request path of tile `t`, with its numbers written by `String.valueOf`. */
  function TileRequestPath(context: string, t: Tile): string {
    RequestPath(context, IntToString(t.z), IntToString(t.x), IntToString(t.y))
  }

  /** The parts a tile's request path is made of: an empty part, the context, and the three parts of the tile path. */
  function RequestParts(context: string, t: Tile): (r: seq<string>)
    ensures |r| == 5 && r[4] != []
  {
    ["", context] + TilePathParts(t)
  }

  /** The parts, joined by '/', are the request path. */
  lemma JoinRequestParts(context: string, t: Tile)
    ensures Join(RequestParts(context, t), '/') == TileRequestPath(context, t)
  {
    var ps := TilePathParts(t);
    var all := RequestParts(context, t);
    assert all[1..] == [context] + ps && ([context] + ps)[1..] == ps;
    var j := Join(ps, '/');
    assert Join(all, '/') == "" + "/" + (context + "/" + j);
    TileRequestPathOfCachePath(context, t);
  }

  /** A tile's request path splits into its parts. */
  lemma SplitOfTileRequestPath(context: string, t: Tile)
    requires '/' !in context
    ensures Split(TileRequestPath(context, t), '/') == RequestParts(context, t)
  {
    JoinRequestParts(context, t);
    PiecesOfJoinAll(RequestParts(context, t), '/');
    assert TileRequestPath(context, t)[0] == '/';
  }

  /** With a '/' after it, the same path splits into the same parts: `split` drops the trailing empty part. */
  lemma SplitOfTileRequestPathSlash(context: string, t: Tile)
    requires '/' !in context
    ensures Split(TileRequestPath(context, t) + "/", '/') == RequestParts(context, t)
  {
    var all := RequestParts(context, t);
    JoinRequestParts(context, t);
    JoinSnoc(all, "", '/');
    assert TileRequestPath(context, t) + "/" == Join(all + [""], '/');
    PiecesOfJoinAll(all + [""], '/');
    assert (all + [""])[..5] == all;
    assert (TileRequestPath(context, t) + "/")[0] == '/';
  }

  /** The last part of a tile path ends in ".png", and removing every ".png" leaves the numeral. */
  lemma LastPartOfTilePath(n: int)
    ensures EndsWith(IntToString(n) + ".png", ".png")
    ensures Replace(IntToString(n) + ".png", ".png", "") == IntToString(n)
  {
    var ns := IntToString(n);
    assert (ns + ".png")[|ns + ".png"| - 4..] == ".png";
    assert '.' !in ns by {
      forall i | 0 <= i < |ns| ensures ns[i] != '.' {
        assert IsDigit(ns[i]) || ns[i] == '-';
      }
    }
    ReplaceSkipsPrefix(ns, ".png", ".png", "");
    assert Replace(".png", ".png", "") == "";
    assert ns + "" == ns;
  }

  /** A path that splits into a tile's request parts names that tile. */
  lemma RequestedTileOfParts(path: string, context: string, t: Tile)
    requires Split(path, '/') == RequestParts(context, t)
    requires IsInt32(t.z) && IsInt32(t.x) && IsInt32(t.y)
    ensures RequestedTile(path) == Some(t)
  {
    LastPartOfTilePath(t.y);
    IntToStringRoundTrip(t.z);
    IntToStringRoundTrip(t.x);
    IntToStringRoundTrip(t.y);
  }

  /**
   * The handler reads back the coordinates of every `int` tile, whatever the
   * context segment, with or without a trailing '/'; with "tiles" as the context
   * this is the URL template filled in.
   */
  lemma RequestedTileOfPath(context: string, t: Tile)
    requires '/' !in context
    requires IsInt32(t.z) && IsInt32(t.x) && IsInt32(t.y)
    ensures RequestedTile(TileRequestPath(context, t)) == Some(t)
    ensures RequestedTile(TileRequestPath(context, t) + "/") == Some(t)
  {
    SplitOfTileRequestPath(context, t);
    RequestedTileOfParts(TileRequestPath(context, t), context, t);
    SplitOfTileRequestPathSlash(context, t);
    RequestedTileOfParts(TileRequestPath(context, t) + "/", context, t);
  }

  /** A cached tile asked for by its path is served with its bytes; an uncached one gets 404. */
  lemma RespondToTilePath(context: string, t: Tile, tiles: map<Tile, seq<byte>>)
    requires '/' !in context
    requires IsInt32(t.z) && IsInt32(t.x) && IsInt32(t.y)
    ensures t in tiles ==> Respond(TileRequestPath(context, t), tiles) == Response(200, TileHeaders(), tiles[t])
    ensures t !in tiles ==> Respond(TileRequestPath(context, t), tiles) == NotFound()
  {
    RequestedTileOfPath(context, t);
  }

  /** The request path ends in the tile's path in the cache directory. */
  lemma TileRequestPathOfCachePath(context: string, t: Tile)
    ensures TileRequestPath(context, t) == "/" + context + "/" + TilePath(t)
  {
    TilePathText(t);
    var zs, xs, ys := IntToString(t.z), IntToString(t.x), IntToString(t.y);
    var tail := zs + "/" + xs + "/" + ys + ".png";
    assert RequestPath(context, zs, xs, ys) == "/" + context + "/" + tail by {
      assert RequestPath(context, zs, xs, ys) == ("/" + context + "/") + tail;
    }
  }

  /** A path of the wrong shape gets 404 without the cache being asked. */
  lemma WrongShapeNotFound(path: string, tiles: map<Tile, seq<byte>>)
    requires |Split(path, '/')| != 5 || !EndsWith(Split(path, '/')[4], ".png")
    ensures RequestedTile(path).None? && Respond(path, tiles) == NotFound()
  {
  }

  class LocalTileServer {
    const tileCache: TileCache
    /** `server != null`: a server was created by some earlier start. */
    var hasServer: bool
    var isRunning: bool

    /** Only a created server can be running. */
    predicate Valid()
      reads this
    {
      isRunning ==> hasServer
    }

    constructor (tileCache: TileCache)
      ensures this.tileCache == tileCache && !hasServer && !isRunning && Valid()
    {
      this.tileCache := tileCache;
      hasServer, isRunning := false, false;
    }

    /**
     * `start`: nothing while running; otherwise a server is created and started
     * when the address binds, and an `IOException` from binding changes nothing.
     */
    method Start(bindOk: bool)
      modifies this
      ensures old(isRunning) ==> hasServer == old(hasServer) && isRunning
      ensures !old(isRunning) && bindOk ==> hasServer && isRunning
      ensures !old(isRunning) && !bindOk ==> hasServer == old(hasServer) && !isRunning
      ensures old(Valid()) ==> Valid()
    {
      if isRunning {
        return;
      }
      if bindOk {
        hasServer := true;
        isRunning := true;
      }
    }

    /** `stop`: with a server, it stops and the flag comes down; the reference to it is kept. */
    method Stop()
      modifies this
      ensures hasServer == old(hasServer)
      ensures old(hasServer) ==> !isRunning
      ensures !old(hasServer) ==> isRunning == old(isRunning)
      ensures old(Valid()) ==> Valid() && !isRunning
    {
      if hasServer {
        isRunning := false;
      }
    }

    predicate IsRunning()
      reads this
    {
      isRunning
    }

    /** `getTileUrl`: the same template whatever the state. */
    function GetTileUrl(): (r: string)
      ensures r == "http://localhost:8765/tiles/{z}/{x}/{y}.png"
    {
      assert IntToString(Port) == "8765" by {
        assert NatToString(876) == NatToString(87) + [DigitChar(6)];
      }
      "http://localhost:" + IntToString(Port) + RequestPath("tiles", "{z}", "{x}", "{y}")
    }

    /** `TileHandler.handle`, asking the tile cache for the tile the path names. */
    function Handle(path: string): (r: Response)
      reads tileCache
      ensures r == Respond(path, tileCache.tiles)
    {
      match RequestedTile(path)
      case None => NotFound()
      case Some(t) =>
        match tileCache.GetCachedTile(t.z, t.x, t.y)
        case Some(bytes) => Response(200, TileHeaders(), bytes)
        case None => NotFound()
    }
  }
}
