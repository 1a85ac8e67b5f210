/**
 * The pure part of the map view: the ten-step colour ramps that encode a
 * magnitude per hundred, and the choice of which markers are drawn for the
 * active layers. Leaflet itself is not modelled; a drawn marker is a value.
 */
module MapComponent {
  import opened Types

  /** Ramp steps per layer. */
  const BucketCount: nat := 10

  /** Width of one ramp step, in magnitude units. */
  const BucketWidth: nat := 100

  /** Fixed radius of every circle marker before any scaling. */
  const BaseRadius: real := 12.0

  /** The blue ramp for resources, lightest first. */
  const ResourcePalette: seq<string> := [
    "#dbeafe", "#bfdbfe", "#93c5fd", "#60a5fa", "#3b82f6",
    "#2563eb", "#1d4ed8", "#1e40af", "#1e3a8a", "#172554"]

  /** The rose ramp for demand, lightest first. */
  const DemandPalette: seq<string> := [
    "#ffe4e6", "#fecdd3", "#fda4af", "#fb7185", "#f43f5e",
    "#e11d48", "#be123c", "#9f1239", "#881337", "#4c0519"]

  /** `Math.floor(m / 100)`: Dafny's division by a positive divisor floors. */
  function Level(m: int): (l: int)
    ensures BucketWidth * l <= m < BucketWidth * (l + 1)
  {
    m / 100
  }

  /** The ramp step a magnitude falls into: its level clamped to 0..9. */
  function BucketIndex(m: int): (k: nat)
    ensures k < BucketCount
    ensures Level(m) <= 0 ==> k == 0
    ensures Level(m) >= 9 ==> k == 9
    ensures 0 < Level(m) < 9 ==> k == Level(m)
  {
    var l := Level(m);
    if l <= 0 then 0 else if l >= 9 then 9 else l
  }

  /** `getResourceColor`: tests the level against 0, 1, ..., 8 in turn. */
  function ResourceColor(capacity: int): (c: string)
    ensures c in ResourcePalette
    ensures c == ResourcePalette[BucketIndex(capacity)]
  {
    var level := Level(capacity);
    if level <= 0 then "#dbeafe"
    else if level == 1 then "#bfdbfe"
    else if level == 2 then "#93c5fd"
    else if level == 3 then "#60a5fa"
    else if level == 4 then "#3b82f6"
    else if level == 5 then "#2563eb"
    else if level == 6 then "#1d4ed8"
    else if level == 7 then "#1e40af"
    else if level == 8 then "#1e3a8a"
    else "#172554"
  }

  /** `getDemandColor`: tests the level against 0, 1, ..., 8 in turn. */
  function DemandColor(count: int): (c: string)
    ensures c in DemandPalette
    ensures c == DemandPalette[BucketIndex(count)]
  {
    var level := Level(count);
    if level <= 0 then "#ffe4e6"
    else if level == 1 then "#fecdd3"
    else if level == 2 then "#fda4af"
    else if level == 3 then "#fb7185"
    else if level == 4 then "#f43f5e"
    else if level == 5 then "#e11d48"
    else if level == 6 then "#be123c"
    else if level == 7 then "#9f1239"
    else if level == 8 then "#881337"
    else "#4c0519"
  }

  function Palette(layer: LayerType): (p: seq<string>)
    ensures |p| == BucketCount
  {
    match layer
    case RESOURCE => ResourcePalette
    case DEMAND => DemandPalette
  }

  /** The colour a magnitude gets on a layer's ramp. */
  function Classify(m: int, layer: LayerType): (c: string)
    ensures c in Palette(layer)
    ensures layer == RESOURCE ==> c !in DemandPalette
    ensures layer == DEMAND ==> c !in ResourcePalette
  {
    match layer
    case RESOURCE => ResourceColor(m)
    case DEMAND => DemandColor(m)
  }

  /** The chain of tests picks the palette entry at the clamped level. */
  lemma ClassifyIsPaletteEntry(m: int, layer: LayerType)
    ensures Classify(m, layer) == Palette(layer)[BucketIndex(m)]
  {
  }

  /** Everything below 100, negatives included, gets the lightest token. */
  lemma LightestBelowOneHundred(m: int, layer: LayerType)
    requires m < BucketWidth
    ensures Classify(m, layer) == Palette(layer)[0]
    ensures Classify(m, RESOURCE) == "#dbeafe" && Classify(m, DEMAND) == "#ffe4e6"
  {
  }

  /** Everything from 900 up gets the darkest token. */
  lemma DarkestFromNineHundred(m: int, layer: LayerType)
    requires m >= 9 * BucketWidth
    ensures Classify(m, layer) == Palette(layer)[BucketCount - 1]
    ensures Classify(m, RESOURCE) == "#172554" && Classify(m, DEMAND) == "#4c0519"
  {
  }

  /** A magnitude in [100k, 100(k+1)) for 1 <= k <= 8 gets step k. */
  lemma MiddleBucket(m: int, k: nat, layer: LayerType)
    requires 1 <= k <= 8
    requires BucketWidth * k <= m < BucketWidth * (k + 1)
    ensures BucketIndex(m) == k
    ensures Classify(m, layer) == Palette(layer)[k]
  {
    ClassifyIsPaletteEntry(m, layer);
  }

  lemma ClassifyExamples()
    ensures Classify(50, RESOURCE) == "#dbeafe"
    ensures Classify(250, RESOURCE) == "#93c5fd"
    ensures Classify(950, RESOURCE) == "#172554"
    ensures Classify(-40, DEMAND) == "#ffe4e6"
  {
  }

  /** A larger magnitude never lands on a lighter step. */
  lemma BucketIndexMonotone(m: int, m': int)
    requires m <= m'
    ensures BucketIndex(m) <= BucketIndex(m')
  {
    assert Level(m) <= Level(m');
  }

  /** The step a token sits at on a ramp, used as its darkness rank. */
  function Rank(palette: seq<string>, c: string): (k: nat)
    requires c in palette
    ensures k < |palette| && palette[k] == c
    ensures forall j :: 0 <= j < k ==> palette[j] != c
  {
    if palette[0] == c then 0 else 1 + Rank(palette[1..], c)
  }

  /** Monotonicity stated on the tokens: the darker colour for the larger magnitude. */
  lemma ClassifyMonotone(m: int, m': int, layer: LayerType)
    requires m <= m'
    ensures Classify(m, layer) in Palette(layer) && Classify(m', layer) in Palette(layer)
    ensures Rank(Palette(layer), Classify(m, layer)) <= Rank(Palette(layer), Classify(m', layer))
  {
    ClassifyIsPaletteEntry(m, layer);
    ClassifyIsPaletteEntry(m', layer);
    BucketIndexMonotone(m, m');
    PalettesDistinct(layer);
  }

  /** Every ramp has ten distinct tokens, so a token determines its step. */
  lemma PalettesDistinct(layer: LayerType)
    ensures forall i, j :: 0 <= i < j < BucketCount ==> Palette(layer)[i] != Palette(layer)[j]
    ensures forall k :: 0 <= k < BucketCount ==> Rank(Palette(layer), Palette(layer)[k]) == k
  {
  }

  /** No resource token is a demand token. */
  lemma PalettesDisjoint(i: nat, j: nat)
    requires i < BucketCount && j < BucketCount
    ensures ResourcePalette[i] != DemandPalette[j]
  {
  }

  /** One drawn circle marker. */
  datatype Marker = Marker(lat: real, lng: real, radius: real, fillColor: string)

  /** What both marker layers hold after a redraw. */
  datatype Scene = Scene(resourceMarkers: seq<Marker>, demandMarkers: seq<Marker>)

  /** The resource layer after its redraw: cleared, then one marker per record when visible. */
  function ResourceMarkers(resources: seq<ResourceItem>, activeLayers: set<LayerType>): (r: seq<Marker>)
    ensures RESOURCE in activeLayers ==> |r| == |resources|
    ensures RESOURCE !in activeLayers ==> r == []
    ensures forall i :: 0 <= i < |r| ==>
      r[i] == Marker(resources[i].lat, resources[i].lng, BaseRadius, ResourceColor(resources[i].capacity))
  {
    if RESOURCE in activeLayers then
      seq(|resources|, i requires 0 <= i < |resources| =>
        Marker(resources[i].lat, resources[i].lng, BaseRadius, ResourceColor(resources[i].capacity)))
    else []
  }

  /** The demand layer after its redraw; only here does the density scale apply. */
  function DemandMarkers(demands: seq<DemandItem>, activeLayers: set<LayerType>, densityScale: real): (r: seq<Marker>)
    ensures DEMAND in activeLayers ==> |r| == |demands|
    ensures DEMAND !in activeLayers ==> r == []
    ensures forall i :: 0 <= i < |r| ==>
      r[i] == Marker(demands[i].lat, demands[i].lng, BaseRadius * densityScale, DemandColor(demands[i].count))
  {
    if DEMAND in activeLayers then
      seq(|demands|, i requires 0 <= i < |demands| =>
        Marker(demands[i].lat, demands[i].lng, BaseRadius * densityScale, DemandColor(demands[i].count)))
    else []
  }

  /** Both marker layers after a redraw: a hidden layer is empty, a shown one has a marker per record. */
  function Render(resources: seq<ResourceItem>, demands: seq<DemandItem>,
                  activeLayers: set<LayerType>, densityScale: real): (sc: Scene)
    ensures |sc.resourceMarkers| == if RESOURCE in activeLayers then |resources| else 0
    ensures |sc.demandMarkers| == if DEMAND in activeLayers then |demands| else 0
    ensures forall m :: m in sc.resourceMarkers ==> m.radius == BaseRadius && m.fillColor in ResourcePalette
    ensures forall m :: m in sc.demandMarkers ==> m.radius == BaseRadius * densityScale && m.fillColor in DemandPalette
  {
    Scene(ResourceMarkers(resources, activeLayers), DemandMarkers(demands, activeLayers, densityScale))
  }

  /** Resource markers keep radius 12 and do not move with the density slider. */
  lemma ResourceMarkersIgnoreDensity(resources: seq<ResourceItem>, demands: seq<DemandItem>,
                                     activeLayers: set<LayerType>, d1: real, d2: real)
    ensures Render(resources, demands, activeLayers, d1).resourceMarkers
         == Render(resources, demands, activeLayers, d2).resourceMarkers
    ensures forall m :: m in Render(resources, demands, activeLayers, d1).resourceMarkers ==> m.radius == BaseRadius
  {
  }

  /** Hiding one layer leaves the other layer's markers as they were. */
  lemma LayersDrawnIndependently(resources: seq<ResourceItem>, demands: seq<DemandItem>,
                                 activeLayers: set<LayerType>, densityScale: real)
    ensures Render(resources, demands, activeLayers - {DEMAND}, densityScale).resourceMarkers
         == Render(resources, demands, activeLayers, densityScale).resourceMarkers
    ensures Render(resources, demands, activeLayers - {RESOURCE}, densityScale).demandMarkers
         == Render(resources, demands, activeLayers, densityScale).demandMarkers
  {
  }
}
