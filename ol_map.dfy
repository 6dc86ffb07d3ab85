/** The map component: it splits the markers into selected and non-selected ones,
    keeps the two marker layers of the surface filled from those two lists, and asks
    the surface to animate towards the current zoom and centre. */
module OLMap {
  import opened Types
  import opened Arrays
  import opened Surface
  import opened MapContext

  /** Length of every view animation, in milliseconds. */
  const AnimationDuration: nat := 500

  /** Index of the layer that draws the selected markers. */
  const SelectedLayer: nat := 1
  /** Index of the layer that draws the other markers. */
  const NonSelectedLayer: nat := 2

  function PointIsSelected(p: UserPoint): bool {
    Truthy(p.isSelected)
  }

  function PointIsNotSelected(p: UserPoint): bool {
    !Truthy(p.isSelected)
  }

  /** `mapUserPoints.filter(p => p.isSelected)`: exactly the markers whose flag is true. */
  function SelectedUserPoints(points: seq<UserPoint>): (r: seq<UserPoint>)
    ensures |r| <= |points|
    ensures forall p :: p in r <==> p in points && Truthy(p.isSelected)
  {
    Filter(points, PointIsSelected)
  }

  /** `mapUserPoints.filter(p => !p.isSelected)`: exactly the markers whose flag is not
      true; a missing flag counts as not selected. */
  function NonSelectedUserPoints(points: seq<UserPoint>): (r: seq<UserPoint>)
    ensures |r| <= |points|
    ensures forall p :: p in r <==> p in points && !Truthy(p.isSelected)
  {
    Filter(points, PointIsNotSelected)
  }

  /** The feature drawn for a marker: a point geometry at its position. */
  function FeatureOf(p: UserPoint): Coordinate {
    p.position
  }

  function Features(points: seq<UserPoint>): seq<Coordinate> {
    Map(points, FeatureOf)
  }

  /** The two marker lists are exactly the truthy and the falsy markers, each in the
      original order; they share no marker and together hold every marker once. */
  lemma PartitionSplits(points: seq<UserPoint>)
    ensures forall p :: p in SelectedUserPoints(points) <==> p in points && Truthy(p.isSelected)
    ensures forall p :: p in NonSelectedUserPoints(points) <==> p in points && !Truthy(p.isSelected)
    ensures Interleaves(points, SelectedUserPoints(points), NonSelectedUserPoints(points))
    ensures |SelectedUserPoints(points)| + |NonSelectedUserPoints(points)| == |points|
    ensures multiset(SelectedUserPoints(points)) + multiset(NonSelectedUserPoints(points)) == multiset(points)
  {
    FilterPartition(points, PointIsSelected, PointIsNotSelected);
    InterleavesMultiset(points, SelectedUserPoints(points), NonSelectedUserPoints(points));
  }

  /** The features of the two marker layers together are the features of all the
      markers, each drawn once, in an order-preserving split. */
  lemma LayersCoverPoints(points: seq<UserPoint>)
    ensures Interleaves(Features(points),
                        Features(SelectedUserPoints(points)), Features(NonSelectedUserPoints(points)))
    ensures multiset(Features(SelectedUserPoints(points))) + multiset(Features(NonSelectedUserPoints(points)))
         == multiset(Features(points))
  {
    PartitionSplits(points);
    MapInterleaves(points, SelectedUserPoints(points), NonSelectedUserPoints(points), FeatureOf);
    InterleavesMultiset(Features(points),
                        Features(SelectedUserPoints(points)), Features(NonSelectedUserPoints(points)));
  }

  /** The layer effect: with fewer than three layers it does nothing; otherwise it
      clears layer 1 and refills it with one feature per selected marker, clears layer
      2 and refills it with one feature per other marker, and asks each for a repaint.
      The base layer and everything else on the surface stay as they were. */
  method SyncLayers(view: MapProvider)
    requires view.surface.Valid()
    modifies view.surface
    ensures view.surface.Valid()
    ensures |old(view.surface.layers)| < 3 ==> view.surface.layers == old(view.surface.layers)
    ensures |old(view.surface.layers)| >= 3 ==>
      view.surface.layers == [
        old(view.surface.layers[0]),
        VectorLayer(Features(SelectedUserPoints(view.userPoints)), old(view.surface.layers[1].revision) + 1),
        VectorLayer(Features(NonSelectedUserPoints(view.userPoints)), old(view.surface.layers[2].revision) + 1)]
    ensures view.surface.attached == old(view.surface.attached) && view.surface.animations == old(view.surface.animations)
    ensures view.surface.initialZoom == old(view.surface.initialZoom)
    ensures view.surface.initialCenter == old(view.surface.initialCenter)
  {
    var surface := view.surface;
    if |surface.layers| < 3 {
      return;
    }
    ghost var before := surface.layers;
    surface.Clear(SelectedLayer);
    var selected := Features(SelectedUserPoints(view.userPoints));
    assert [] + selected == selected;
    surface.AddFeatures(SelectedLayer, selected);
    surface.Changed(SelectedLayer);
    surface.Clear(NonSelectedLayer);
    var others := Features(NonSelectedUserPoints(view.userPoints));
    assert [] + others == others;
    surface.AddFeatures(NonSelectedLayer, others);
    surface.Changed(NonSelectedLayer);
    assert |surface.layers| == 3 && surface.layers[0] == before[0];
  }

  /** The view effect, run whenever the zoom, the centre or the map changes: one
      animation request towards the current zoom and centre. */
  method AnimateView(view: MapProvider)
    modifies view.surface
    ensures view.surface.animations == old(view.surface.animations) + [Animation(view.zoom, view.center, AnimationDuration)]
    ensures view.surface.layers == old(view.surface.layers) && view.surface.attached == old(view.surface.attached)
    ensures view.surface.initialZoom == old(view.surface.initialZoom)
    ensures view.surface.initialCenter == old(view.surface.initialCenter)
  {
    view.surface.Animate(view.zoom, view.center, AnimationDuration);
  }

  /** The mount effect: builds a surface with the base layer, two empty marker layers
      and the current zoom and centre as initial view, attaches it and stores it. */
  method Mount(view: MapProvider) returns (theMap: MapSurface)
    modifies view
    ensures fresh(theMap) && view.surface == theMap
    ensures theMap.Valid() && theMap.attached && theMap.animations == []
    ensures theMap.layers == [TileLayer, VectorLayer([], 0), VectorLayer([], 0)]
    ensures theMap.initialZoom == view.zoom && theMap.initialCenter == view.center
    ensures view.zoom == old(view.zoom) && view.center == old(view.center)
    ensures view.userPoints == old(view.userPoints)
  {
    theMap := new MapSurface.Create(view.center, view.zoom);
    theMap.SetTarget(true);
    view.SetMap(theMap);
  }

  /** The mount effect's cleanup: detaches the surface it built and puts a fresh
      placeholder (no layers) in its place. */
  method Unmount(view: MapProvider, theMap: MapSurface)
    modifies view, theMap
    ensures !theMap.attached && theMap.layers == old(theMap.layers)
    ensures theMap.animations == old(theMap.animations)
    ensures theMap.initialZoom == old(theMap.initialZoom) && theMap.initialCenter == old(theMap.initialCenter)
    ensures fresh(view.surface) && view.surface.Valid() && view.surface.layers == [] && !view.surface.attached
    ensures view.zoom == old(view.zoom) && view.center == old(view.center)
    ensures view.userPoints == old(view.userPoints)
  {
    theMap.SetTarget(false);
    var placeholder := new MapSurface.Empty();
    view.SetMap(placeholder);
  }
}
