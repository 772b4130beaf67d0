/** What the frame loop draws on a frame: a box per region, the zone outline
    and its label, and the status banner. The raster itself is not modelled;
    a frame's annotation is the sequence of drawing calls made on it. */
module Annotate {
  import opened Zone

  /** A colour as the drawing calls take it: blue, green, red. */
  datatype Colour = Colour(b: int, g: int, r: int)

  const Yellow := Colour(0, 255, 255)
  const Green := Colour(0, 255, 0)
  const Red := Colour(0, 0, 255)

  /** The three texts the loop draws. */
  datatype Text = InLitterBox | LitterBoxZone | CatInLitterBox

  /** The characters each text puts on the frame. */
  function Words(t: Text): string
  {
    match t
    case InLitterBox => "In Litter Box"
    case LitterBoxZone => "Litter Box Zone"
    case CatInLitterBox => "CAT IN LITTER BOX"
  }

  /** One drawing call on the frame: a rectangle between two corners, or a
      text in the simplex font with its origin, scale and colour. */
  datatype Mark =
    | Box(corner: Point, opposite: Point, colour: Colour, thickness: int)
    | Label(text: Text, origin: Point, scale: real, colour: Colour, thickness: int)

  /** The status banner, drawn when motion is in the zone. */
  const Banner := Label(CatInLitterBox, Point(10, 30), 1.0, Red, 2)

  /** The bounding box of a region: yellow in the zone, green outside. */
  function BoxOf(r: Region): Mark
  {
    var c := r.contour;
    Box(Point(c.x, c.y), Point(c.x + c.w, c.y + c.h), if r.inZone then Yellow else Green, 2)
  }

  /** The caption of a region in the zone, 10 pixels above its box. */
  function CaptionOf(r: Region): Mark
  {
    Label(InLitterBox, Point(r.contour.x, r.contour.y - 10), 0.5, Yellow, 2)
  }

  /** The marks of all regions, in region order. */
  function RegionMarks(rs: seq<Region>): seq<Mark>
    decreases |rs|
  {
    if rs == [] then []
    else
      var r := rs[|rs| - 1];
      RegionMarks(rs[..|rs| - 1]) + if r.inZone then [BoxOf(r), CaptionOf(r)] else [BoxOf(r)]
  }

  /** The zone outline and its label. */
  function ZoneMarks(z: Rect): seq<Mark>
  {
    [Box(Point(z.x1, z.y1), Point(z.x2, z.y2), Green, 2),
     Label(LitterBoxZone, Point(z.x1, z.y1 - 10), 0.5, Green, 2)]
  }

  /** Everything drawn on a processed frame: the region marks, then the zone
      marks, which are always drawn, then the banner if the flag is set. */
  function FrameMarks(z: Rect, rs: seq<Region>): (ms: seq<Mark>)
    ensures forall m :: m in ZoneMarks(z) ==> m in ms
    ensures RegionMarks(rs) <= ms
    ensures |ms| == |RegionMarks(rs)| + 2 + (if AnyInZone(rs) then 1 else 0)
    ensures ms[|RegionMarks(rs)|..][..2] == ZoneMarks(z)
    ensures AnyInZone(rs) ==> ms[|ms| - 1] == Banner
  {
    RegionMarks(rs) + ZoneMarks(z) + if AnyInZone(rs) then [Banner] else []
  }

  /** The boxes among some marks, in order. */
  function Boxes(ms: seq<Mark>): seq<Mark>
    decreases |ms|
  {
    if ms == [] then []
    else Boxes(ms[..|ms| - 1]) + if ms[|ms| - 1].Box? then [ms[|ms| - 1]] else []
  }

  lemma {:induction false} BoxesAppend(ms: seq<Mark>, ns: seq<Mark>)
    ensures Boxes(ms + ns) == Boxes(ms) + Boxes(ns)
    decreases |ns|
  {
    if ns == [] {
      assert ms + ns == ms;
    } else {
      var init := ns[..|ns| - 1];
      assert (ms + ns)[..|ms + ns| - 1] == ms + init;
      BoxesAppend(ms, init);
    }
  }

  /** No region mark is the banner. */
  lemma {:induction false} RegionMarksHaveNoBanner(rs: seq<Region>)
    ensures Banner !in RegionMarks(rs)
    decreases |rs|
  {
    if rs != [] {
      RegionMarksHaveNoBanner(rs[..|rs| - 1]);
    }
  }

  /** The banner is on a processed frame exactly when the flag is set. */
  lemma BannerIffMotion(z: Rect, rs: seq<Region>)
    ensures Banner in FrameMarks(z, rs) <==> AnyInZone(rs)
  {
    RegionMarksHaveNoBanner(rs);
  }

  /** Each region gets exactly one box, in region order, yellow when the
      region is in the zone and green otherwise. */
  lemma OneBoxPerRegion(rs: seq<Region>)
    ensures |Boxes(RegionMarks(rs))| == |rs|
    ensures forall i :: 0 <= i < |rs| ==> Boxes(RegionMarks(rs))[i] == BoxOf(rs[i])
    ensures forall i :: 0 <= i < |rs| ==>
      Boxes(RegionMarks(rs))[i].colour == (if rs[i].inZone then Yellow else Green)
  {
    BoxesInOrder(rs);
  }

  lemma {:induction false} BoxesInOrder(rs: seq<Region>)
    ensures |Boxes(RegionMarks(rs))| == |rs|
    ensures forall i :: 0 <= i < |rs| ==> Boxes(RegionMarks(rs))[i] == BoxOf(rs[i])
    decreases |rs|
  {
    if rs != [] {
      var init := rs[..|rs| - 1];
      BoxesInOrder(init);
      LastRegionBox(rs);
      var bs := Boxes(RegionMarks(rs));
      forall i | 0 <= i < |init|
        ensures bs[i] == BoxOf(rs[i])
      {
        assert rs[i] == init[i];
      }
    }
  }

  /** The last region adds exactly its own box. */
  lemma LastRegionBox(rs: seq<Region>)
    requires rs != []
    ensures Boxes(RegionMarks(rs)) == Boxes(RegionMarks(rs[..|rs| - 1])) + [BoxOf(rs[|rs| - 1])]
  {
    var init, r := rs[..|rs| - 1], rs[|rs| - 1];
    if r.inZone {
      assert RegionMarks(rs) == RegionMarks(init) + [BoxOf(r)] + [CaptionOf(r)];
      BoxesAppend(RegionMarks(init) + [BoxOf(r)], [CaptionOf(r)]);
      BoxesAppend(RegionMarks(init), [BoxOf(r)]);
    } else {
      assert RegionMarks(rs) == RegionMarks(init) + [BoxOf(r)];
      BoxesAppend(RegionMarks(init), [BoxOf(r)]);
    }
  }

  /** The texts among some marks, in order. */
  function Labels(ms: seq<Mark>): seq<Mark>
    decreases |ms|
  {
    if ms == [] then []
    else Labels(ms[..|ms| - 1]) + if ms[|ms| - 1].Label? then [ms[|ms| - 1]] else []
  }

  lemma {:induction false} LabelsAppend(ms: seq<Mark>, ns: seq<Mark>)
    ensures Labels(ms + ns) == Labels(ms) + Labels(ns)
    decreases |ns|
  {
    if ns == [] {
      assert ms + ns == ms;
    } else {
      var init := ns[..|ns| - 1];
      assert (ms + ns)[..|ms + ns| - 1] == ms + init;
      LabelsAppend(ms, init);
    }
  }

  /** Every mark is a box or a text, so the two filters account for all marks. */
  lemma {:induction false} BoxesAndLabelsCoverMarks(ms: seq<Mark>)
    ensures |ms| == |Boxes(ms)| + |Labels(ms)|
    decreases |ms|
  {
    if ms != [] {
      BoxesAndLabelsCoverMarks(ms[..|ms| - 1]);
    }
  }

  /** The regions in the zone, in order. */
  function InZoneOnly(rs: seq<Region>): (qs: seq<Region>)
    ensures forall q :: q in qs ==> q in rs && q.inZone
    ensures forall r :: r in rs && r.inZone ==> r in qs
    decreases |rs|
  {
    if rs == [] then []
    else
      var init, r := rs[..|rs| - 1], rs[|rs| - 1];
      assert rs == init + [r];
      InZoneOnly(init) + if r.inZone then [r] else []
  }

  /** The last region adds its caption when it is in the zone, and nothing otherwise. */
  lemma LastRegionLabel(rs: seq<Region>)
    requires rs != []
    ensures Labels(RegionMarks(rs)) == Labels(RegionMarks(rs[..|rs| - 1])) +
      if rs[|rs| - 1].inZone then [CaptionOf(rs[|rs| - 1])] else []
  {
    var init, r := rs[..|rs| - 1], rs[|rs| - 1];
    if r.inZone {
      assert RegionMarks(rs) == RegionMarks(init) + [BoxOf(r)] + [CaptionOf(r)];
      LabelsAppend(RegionMarks(init) + [BoxOf(r)], [CaptionOf(r)]);
      LabelsAppend(RegionMarks(init), [BoxOf(r)]);
    } else {
      assert RegionMarks(rs) == RegionMarks(init) + [BoxOf(r)];
      LabelsAppend(RegionMarks(init), [BoxOf(r)]);
    }
  }

  lemma {:induction false} LabelsInOrder(rs: seq<Region>)
    ensures |Labels(RegionMarks(rs))| == |InZoneOnly(rs)|
    ensures forall i :: 0 <= i < |InZoneOnly(rs)| ==>
      Labels(RegionMarks(rs))[i] == CaptionOf(InZoneOnly(rs)[i])
    decreases |rs|
  {
    if rs != [] {
      var init := rs[..|rs| - 1];
      LabelsInOrder(init);
      LastRegionLabel(rs);
    }
  }

  /** The texts among the region marks are exactly the "In Litter Box"
      captions of the regions in the zone, one each, in region order; every
      other region mark is a box, one per region. */
  lemma {:induction false} CaptionsOnlyInZone(rs: seq<Region>)
    ensures forall m :: m in RegionMarks(rs) && m.Label? ==>
      exists r :: r in rs && r.inZone && m == CaptionOf(r)
    ensures forall r :: r in rs && r.inZone ==> CaptionOf(r) in RegionMarks(rs)
    ensures |Labels(RegionMarks(rs))| == |InZoneOnly(rs)|
    ensures forall i :: 0 <= i < |InZoneOnly(rs)| ==>
      Labels(RegionMarks(rs))[i] == CaptionOf(InZoneOnly(rs)[i])
    ensures |RegionMarks(rs)| == |rs| + |InZoneOnly(rs)|
    decreases |rs|
  {
    if rs != [] {
      var init, r := rs[..|rs| - 1], rs[|rs| - 1];
      assert rs == init + [r];
      CaptionsOnlyInZone(init);
    }
    LabelsInOrder(rs);
    BoxesInOrder(rs);
    BoxesAndLabelsCoverMarks(RegionMarks(rs));
  }

  /** One more region adds its own marks at the end. */
  lemma RegionMarksSnoc(rs: seq<Region>, r: Region)
    ensures RegionMarks(rs + [r]) ==
      RegionMarks(rs) + if r.inZone then [BoxOf(r), CaptionOf(r)] else [BoxOf(r)]
  {
    assert (rs + [r])[..|rs|] == rs;
  }

  /** The frame loop's `for` over the contours: it keeps the flag and draws
      each surviving contour's box, and its caption when the centre is in
      the zone. */
  method ScanContours(contours: seq<Contour>, minArea: real, z: Rect)
    returns (motionInBox: bool, marks: seq<Mark>)
    ensures motionInBox <==>
      exists c :: c in contours && Survives(c, minArea) && InZone(z, Centre(c))
    ensures motionInBox == AnyInZone(Classify(contours, minArea, z))
    ensures marks == RegionMarks(Classify(contours, minArea, z))
  {
    motionInBox := false;
    marks := [];
    for i := 0 to |contours|
      invariant motionInBox == AnyInZone(Classify(contours[..i], minArea, z))
      invariant marks == RegionMarks(Classify(contours[..i], minArea, z))
    {
      var c := contours[i];
      assert contours[..i + 1] == contours[..i] + [c];
      ClassifySnoc(contours[..i], c, minArea, z);
      if c.area > minArea {
        var r := RegionOf(c, z);
        AnyInZoneSnoc(Classify(contours[..i], minArea, z), r);
        RegionMarksSnoc(Classify(contours[..i], minArea, z), r);
        if r.inZone {
          motionInBox := true;
          marks := marks + [BoxOf(r), CaptionOf(r)];
        } else {
          marks := marks + [BoxOf(r)];
        }
      }
    }
    assert contours[..|contours|] == contours;
    MotionIffSurvivorInZone(contours, minArea, z);
  }
}
