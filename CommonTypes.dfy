/**
 * Value types shared by the weather tile provider and the vector map symbol:
 * zoom levels, 31-bit tile coordinates, tile ids and ARGB colours.
 */
module CommonTypes {

  /** A map zoom level. Zoom levels are plain integers; -1 marks "no zoom". */
  type ZoomLevel = int

  const InvalidZoomLevel: ZoomLevel := -1

  /** A point in the 31-bit fixed-point coordinate space of the map. */
  datatype PointI = PointI(x: int, y: int)

  /** A geographic point in degrees. */
  datatype LatLon = LatLon(latitude: real, longitude: real)

  /** The id of a tile in the quad-tree tiling scheme. */
  datatype TileId = TileId(x: int, y: int)

  const ZeroTileId: TileId := TileId(0, 0)

  /**
   * A colour with float channels. Channels are only ever copied, never
   * computed on, so an exact real stands for each float.
   */
  datatype ColorARGB = ColorARGB(a: real, r: real, g: real, b: real)

  datatype Option<T> = None | Some(value: T)
}
