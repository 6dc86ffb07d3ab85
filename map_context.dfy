/** The view state shared by the page, the cards and the map: the map object (the
    `map` cell, here `surface`), the zoom, the centre and the markers. Each is an
    independent cell with its own setter. */
module MapContext {
  import opened Types
  import opened Surface

  /** The zoom a card focuses its user at. */
  const FocusedZoom: int := 3
  /** The zoom the view returns to when the selection is cleared. */
  const OverviewZoom: int := 1

  class MapProvider {
    var surface: MapSurface
    var zoom: int
    var center: Coordinate
    var userPoints: seq<UserPoint>

    /** Zoom 0, centre [0, 0], no markers, and a placeholder map with no layers. */
    constructor ()
      ensures zoom == 0 && center == Origin && userPoints == []
      ensures fresh(surface) && surface.Valid() && surface.layers == [] && !surface.attached
    {
      surface := new MapSurface.Empty();
      zoom := 0;
      center := Origin;
      userPoints := [];
    }

    method SetMap(newMap: MapSurface)
      modifies this
      ensures surface == newMap
      ensures zoom == old(zoom) && center == old(center) && userPoints == old(userPoints)
    {
      surface := newMap;
    }

    method SetZoom(newZoom: int)
      modifies this
      ensures zoom == newZoom
      ensures surface == old(surface) && center == old(center) && userPoints == old(userPoints)
    {
      zoom := newZoom;
    }

    method SetCenter(newCenter: Coordinate)
      modifies this
      ensures center == newCenter
      ensures surface == old(surface) && zoom == old(zoom) && userPoints == old(userPoints)
    {
      center := newCenter;
    }

    method SetUserPoints(newUserPoints: seq<UserPoint>)
      modifies this
      ensures userPoints == newUserPoints
      ensures surface == old(surface) && zoom == old(zoom) && center == old(center)
    {
      userPoints := newUserPoints;
    }
  }
}
