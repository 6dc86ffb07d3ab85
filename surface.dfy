/** The map-drawing object the application renders into (an OpenLayers `Map`), seen
    only through what the application does to it: its list of layers, whether it is
    attached to the page, its initial view and the view animations it was asked for.
    A marker layer's drawable features are kept as the sequence of their positions. */
module Surface {
  import opened Types

  /** A layer of the surface: the base tiles, or a vector layer whose source holds
      features. `revision` counts the repaints requested on the source (`changed()`). */
  datatype Layer = TileLayer | VectorLayer(features: seq<Coordinate>, revision: nat)

  /** One `view.animate({zoom, center, duration})` request. */
  datatype Animation = Animation(zoom: int, center: Coordinate, duration: nat)

  class MapSurface {
    var layers: seq<Layer>
    var attached: bool
    var initialZoom: int
    var initialCenter: Coordinate
    var animations: seq<Animation>

    /** The two shapes a surface of this application has: the placeholder with no
        layers, or the base layer followed by the two marker layers. */
    predicate Valid()
      reads this
    {
      layers == [] ||
      (|layers| == 3 && layers[0] == TileLayer && layers[1].VectorLayer? && layers[2].VectorLayer?)
    }

    /** `new Map()`: no layers and not attached. Its view is not part of this model;
        the initial-view fields are filled with placeholders nothing reads. */
    constructor Empty()
      ensures Valid() && layers == [] && !attached && animations == []
    {
      layers := [];
      attached := false;
      initialZoom := 0;
      initialCenter := Origin;
      animations := [];
    }

    /** The surface the map component builds: a tile layer and two empty marker
        layers (selected markers, then the others), with the given initial view. */
    constructor Create(center: Coordinate, zoom: int)
      ensures Valid() && !attached && animations == []
      ensures layers == [TileLayer, VectorLayer([], 0), VectorLayer([], 0)]
      ensures initialZoom == zoom && initialCenter == center
    {
      layers := [TileLayer, VectorLayer([], 0), VectorLayer([], 0)];
      attached := false;
      initialZoom := zoom;
      initialCenter := center;
      animations := [];
    }

    /** `setTarget(element)` / `setTarget(undefined)`. */
    method SetTarget(target: bool)
      modifies this
      ensures attached == target
      ensures layers == old(layers) && animations == old(animations)
      ensures initialZoom == old(initialZoom) && initialCenter == old(initialCenter)
    {
      attached := target;
    }

    /** `getView().animate(...)`: the request is recorded, nothing else changes. */
    method Animate(zoom: int, center: Coordinate, duration: nat)
      modifies this
      ensures animations == old(animations) + [Animation(zoom, center, duration)]
      ensures layers == old(layers) && attached == old(attached)
      ensures initialZoom == old(initialZoom) && initialCenter == old(initialCenter)
    {
      animations := animations + [Animation(zoom, center, duration)];
    }

    /** `source.clear()` on the vector layer at index `k`. */
    method Clear(k: nat)
      requires k < |layers| && layers[k].VectorLayer?
      modifies this
      ensures layers == old(layers)[k := VectorLayer([], old(layers[k].revision))]
      ensures attached == old(attached) && animations == old(animations)
      ensures initialZoom == old(initialZoom) && initialCenter == old(initialCenter)
    {
      layers := layers[k := VectorLayer([], layers[k].revision)];
    }

    /** `source.addFeatures(features)` on the vector layer at index `k`. */
    method AddFeatures(k: nat, features: seq<Coordinate>)
      requires k < |layers| && layers[k].VectorLayer?
      modifies this
      ensures layers == old(layers)[k := VectorLayer(old(layers[k].features) + features, old(layers[k].revision))]
      ensures attached == old(attached) && animations == old(animations)
      ensures initialZoom == old(initialZoom) && initialCenter == old(initialCenter)
    {
      layers := layers[k := VectorLayer(layers[k].features + features, layers[k].revision)];
    }

    /** `source.changed()` on the vector layer at index `k`: asks for a repaint. */
    method Changed(k: nat)
      requires k < |layers| && layers[k].VectorLayer?
      modifies this
      ensures layers == old(layers)[k := VectorLayer(old(layers[k].features), old(layers[k].revision) + 1)]
      ensures attached == old(attached) && animations == old(animations)
      ensures initialZoom == old(initialZoom) && initialCenter == old(initialCenter)
    {
      layers := layers[k := VectorLayer(layers[k].features, layers[k].revision + 1)];
    }
  }
}
