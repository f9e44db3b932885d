/**
 * The stateless zoom/layer policy of the weather tile resource provider and
 * its request and result value objects.
 *
 * Weather data exists at two raw resolutions ("layers"): Low at zoom 4 and
 * High at zoom 7. A requested zoom is served by the first layer, in the
 * order Low then High, whose raw zoom lies within that layer's under-zoom
 * and over-zoom tolerance of the requested zoom.
 */
module WeatherTileResourceProvider {
  import opened CommonTypes

  datatype WeatherLayer = Undefined | Low | High

  datatype WeatherType = Raster | Contour

  datatype AlphaChannelPresence = Unknown | Present | NotPresent

  type BandIndex = int

  // ---------------------------------------------------------------------------
  // Zoom/layer policy
  // ---------------------------------------------------------------------------

  /** The zoom of the raw geo tiles that are downloaded and cached. */
  function GeoTileZoom(): (z: ZoomLevel)
    ensures z == TileZoom(WeatherLayer.Low)
  {
    4
  }

  /** The zoom at which a layer's raw data is rasterized; Low unless High. */
  function TileZoom(layer: WeatherLayer): (z: ZoomLevel)
    ensures layer == WeatherLayer.Low ==> z == 4
    ensures layer == WeatherLayer.High ==> z == 7
    ensures layer == WeatherLayer.Undefined ==> z == 4
  {
    match layer
    case Low => 4
    case High => 7
    case _ => 4
  }

  /** How many zoom levels above its own zoom a layer may still serve. */
  function MaxMissingDataZoomShift(layer: WeatherLayer): (shift: int)
    ensures layer == WeatherLayer.Low ==> shift == 2
    ensures layer == WeatherLayer.High ==> shift == 5
    ensures layer == WeatherLayer.Undefined ==> shift == 0
  {
    if layer == WeatherLayer.Low then 2
    else if layer == WeatherLayer.High then 5
    else 0
  }

  /** How many zoom levels below its own zoom a layer may still serve. */
  function MaxMissingDataUnderZoomShift(layer: WeatherLayer): (shift: int)
    ensures layer == WeatherLayer.Low ==> shift == 2
    ensures layer == WeatherLayer.High ==> shift == 0
    ensures layer == WeatherLayer.Undefined ==> shift == 0
  {
    if layer == WeatherLayer.Low then 2
    else if layer == WeatherLayer.High then 0
    else 0
  }

  /**
   * The zoom window a layer's raw data can serve:
   * [TileZoom - under-zoom shift, TileZoom + over-zoom shift].
   */
  predicate Covers(layer: WeatherLayer, zoom: ZoomLevel)
  {
    TileZoom(layer) - MaxMissingDataUnderZoomShift(layer) <= zoom
    && zoom <= TileZoom(layer) + MaxMissingDataZoomShift(layer)
  }

  /**
   * The layer whose raw data backs a requested zoom: Low if its window holds
   * the zoom, else High if its window does, else Undefined. Total on every
   * integer zoom, InvalidZoomLevel included.
   */
  function WeatherLayerByZoom(zoom: ZoomLevel): (layer: WeatherLayer)
    ensures layer == WeatherLayer.Low <==> 2 <= zoom <= 6
    ensures layer == WeatherLayer.High <==> 7 <= zoom <= 12
    ensures layer == WeatherLayer.Undefined <==> zoom < 2 || zoom > 12
  {
    var lowZoom := TileZoom(WeatherLayer.Low);
    var lowOverZoom := MaxMissingDataZoomShift(WeatherLayer.Low);
    var lowUnderZoom := MaxMissingDataUnderZoomShift(WeatherLayer.Low);
    if zoom >= lowZoom - lowUnderZoom && zoom <= lowZoom + lowOverZoom then
      WeatherLayer.Low
    else
      var highZoom := TileZoom(WeatherLayer.High);
      var highOverZoom := MaxMissingDataZoomShift(WeatherLayer.High);
      var highUnderZoom := MaxMissingDataUnderZoomShift(WeatherLayer.High);
      if zoom >= highZoom - highUnderZoom && zoom <= highZoom + highOverZoom then
        WeatherLayer.High
      else
        WeatherLayer.Undefined
  }

  /**
   * The layer chosen for a zoom covers it, and Undefined is returned exactly
   * when neither data layer covers the zoom.
   */
  lemma WeatherLayerByZoomMatchesWindows(zoom: ZoomLevel)
    ensures WeatherLayerByZoom(zoom) != WeatherLayer.Undefined
            ==> Covers(WeatherLayerByZoom(zoom), zoom)
    ensures WeatherLayerByZoom(zoom) == WeatherLayer.Undefined
            <==> !Covers(WeatherLayer.Low, zoom) && !Covers(WeatherLayer.High, zoom)
  {
  }

  /**
   * The windows of Low and High never overlap, so whichever data layer covers
   * a zoom is the one chosen: the Low-before-High order never decides.
   */
  lemma WeatherLayerByZoomChoosesCoveringLayer(zoom: ZoomLevel, layer: WeatherLayer)
    requires layer != WeatherLayer.Undefined
    requires Covers(layer, zoom)
    ensures WeatherLayerByZoom(zoom) == layer
  {
  }

  /** A data layer's own raw zoom is served by that layer. */
  lemma WeatherLayerOfTileZoom(layer: WeatherLayer)
    requires layer != WeatherLayer.Undefined
    ensures WeatherLayerByZoom(TileZoom(layer)) == layer
  {
  }

  /** Zooming in never moves from the High layer back to the Low one. */
  lemma WeatherLayerByZoomMonotone(zoom1: ZoomLevel, zoom2: ZoomLevel)
    requires zoom1 <= zoom2
    requires WeatherLayerByZoom(zoom1) != WeatherLayer.Undefined
    requires WeatherLayerByZoom(zoom2) != WeatherLayer.Undefined
    ensures !(WeatherLayerByZoom(zoom1) == WeatherLayer.High && WeatherLayerByZoom(zoom2) == WeatherLayer.Low)
  {
  }

  // ---------------------------------------------------------------------------
  // Request and result objects
  // ---------------------------------------------------------------------------

  /**
   * The cancellation token a caller attaches to a request. Requests hold it
   * by reference, so copies of a request share one token.
   */
  class QueryController {
    var aborted: bool
  }

  /** An opaque, immutably shared rasterized image. */
  class Image {
  }

  /** An opaque contour line geometry. */
  class GeoContour {
  }

  /** A request for one sampled value of one band at one point. */
  class ValueRequest {
    var point31: PointI
    var zoom: ZoomLevel
    var band: BandIndex
    var queryController: QueryController?

    /** Every field of this request equals that of `that`; the token is the same object. */
    predicate SameAs(that: ValueRequest)
      reads this, that
    {
      && point31 == that.point31
      && zoom == that.zoom
      && band == that.band
      && queryController == that.queryController
    }

    constructor()
      ensures point31 == PointI(0, 0)
      ensures zoom == InvalidZoomLevel
      ensures band == 0
      ensures queryController == null
    {
      point31 := PointI(0, 0);
      zoom := InvalidZoomLevel;
      band := 0;
      queryController := null;
    }

    /** The copy constructor: a fresh request with the fields of `that`. */
    constructor CopyOf(that: ValueRequest)
      ensures SameAs(that)
    {
      new;
      Copy(this, that);
    }

    /** Overwrites every field of `dst` with the value `src` had; the token is shared.
        Copying a request onto itself leaves it as it was. */
    static method Copy(dst: ValueRequest, src: ValueRequest)
      modifies dst
      ensures dst.point31 == old(src.point31)
      ensures dst.zoom == old(src.zoom)
      ensures dst.band == old(src.band)
      ensures dst.queryController == old(src.queryController)
    {
      dst.point31 := src.point31;
      dst.zoom := src.zoom;
      dst.band := src.band;
      dst.queryController := src.queryController;
    }

    method Clone() returns (r: ValueRequest)
      ensures fresh(r)
      ensures r.SameAs(this)
    {
      r := new ValueRequest.CopyOf(this);
    }
  }

  /** A request for the rasterized image or contours of one tile. */
  class TileRequest {
    var weatherType: WeatherType
    var tileId: TileId
    var zoom: ZoomLevel
    var bands: seq<BandIndex>
    var queryController: QueryController?
    var version: int
    var ignoreVersion: bool

    /** Every field of this request equals that of `that`; the token is the same object. */
    predicate SameAs(that: TileRequest)
      reads this, that
    {
      && weatherType == that.weatherType
      && tileId == that.tileId
      && zoom == that.zoom
      && bands == that.bands
      && queryController == that.queryController
      && version == that.version
      && ignoreVersion == that.ignoreVersion
    }

    constructor()
      ensures weatherType == WeatherType.Raster
      ensures tileId == ZeroTileId
      ensures zoom == InvalidZoomLevel
      ensures bands == []
      ensures queryController == null
      ensures version == 0
      ensures !ignoreVersion
    {
      weatherType := WeatherType.Raster;
      tileId := ZeroTileId;
      zoom := InvalidZoomLevel;
      bands := [];
      queryController := null;
      version := 0;
      ignoreVersion := false;
    }

    /** The copy constructor: a fresh request with the fields of `that`. */
    constructor CopyOf(that: TileRequest)
      ensures SameAs(that)
    {
      new;
      Copy(this, that);
    }

    /** Overwrites every field of `dst` with the value `src` had; the token is shared.
        Copying a request onto itself leaves it as it was. */
    static method Copy(dst: TileRequest, src: TileRequest)
      modifies dst
      ensures dst.weatherType == old(src.weatherType)
      ensures dst.tileId == old(src.tileId)
      ensures dst.zoom == old(src.zoom)
      ensures dst.bands == old(src.bands)
      ensures dst.queryController == old(src.queryController)
      ensures dst.version == old(src.version)
      ensures dst.ignoreVersion == old(src.ignoreVersion)
    {
      dst.weatherType := src.weatherType;
      dst.tileId := src.tileId;
      dst.zoom := src.zoom;
      dst.bands := src.bands;
      dst.queryController := src.queryController;
      dst.version := src.version;
      dst.ignoreVersion := src.ignoreVersion;
    }

    method Clone() returns (r: TileRequest)
      ensures fresh(r)
      ensures r.SameAs(this)
    {
      r := new TileRequest.CopyOf(this);
    }
  }

  /** A request to download the raw geo tiles covering a region. */
  class DownloadGeoTileRequest {
    var topLeft: LatLon
    var bottomRight: LatLon
    var forceDownload: bool
    var queryController: QueryController?

    /** Every field of this request equals that of `that`; the token is the same object. */
    predicate SameAs(that: DownloadGeoTileRequest)
      reads this, that
    {
      && topLeft == that.topLeft
      && bottomRight == that.bottomRight
      && forceDownload == that.forceDownload
      && queryController == that.queryController
    }

    constructor()
      ensures !forceDownload
      ensures queryController == null
    {
      topLeft := LatLon(0.0, 0.0);
      bottomRight := LatLon(0.0, 0.0);
      forceDownload := false;
      queryController := null;
    }

    /** The copy constructor: a fresh request with the fields of `that`. */
    constructor CopyOf(that: DownloadGeoTileRequest)
      ensures SameAs(that)
    {
      new;
      Copy(this, that);
    }

    /** Overwrites every field of `dst` with the value `src` had; the token is shared.
        Copying a request onto itself leaves it as it was. */
    static method Copy(dst: DownloadGeoTileRequest, src: DownloadGeoTileRequest)
      modifies dst
      ensures dst.topLeft == old(src.topLeft)
      ensures dst.bottomRight == old(src.bottomRight)
      ensures dst.forceDownload == old(src.forceDownload)
      ensures dst.queryController == old(src.queryController)
    {
      dst.topLeft := src.topLeft;
      dst.bottomRight := src.bottomRight;
      dst.forceDownload := src.forceDownload;
      dst.queryController := src.queryController;
    }

    method Clone() returns (r: DownloadGeoTileRequest)
      ensures fresh(r)
      ensures r.SameAs(this)
    {
      r := new DownloadGeoTileRequest.CopyOf(this);
    }
  }

  /** The result of a tile request: an image plus the contours of each band. */
  class Data {
    const tileId: TileId
    const zoom: ZoomLevel
    const alphaChannelPresence: AlphaChannelPresence
    const densityFactor: real
    const image: Image?
    const contourMap: map<BandIndex, seq<GeoContour>>

    constructor(tileId: TileId, zoom: ZoomLevel, alphaChannelPresence: AlphaChannelPresence,
                densityFactor: real, image: Image?, contourMap: map<BandIndex, seq<GeoContour>> := map[])
      ensures this.tileId == tileId
      ensures this.zoom == zoom
      ensures this.alphaChannelPresence == alphaChannelPresence
      ensures this.densityFactor == densityFactor
      ensures this.image == image
      ensures this.contourMap == contourMap
    {
      this.tileId := tileId;
      this.zoom := zoom;
      this.alphaChannelPresence := alphaChannelPresence;
      this.densityFactor := densityFactor;
      this.image := image;
      this.contourMap := contourMap;
    }
  }
}
