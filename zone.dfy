/** Zone classification of one frame's contours: the area filter, the
    bounding-box centre and the inclusive containment test of the
    litter-box monitor's frame loop. */
module Zone {

  /** A pixel position. */
  datatype Point = Point(x: int, y: int)

  /** The litter-box zone in pixel space, from corner (x1, y1) to corner (x2, y2). */
  datatype Rect = Rect(x1: int, y1: int, x2: int, y2: int)

  /** A detected contour, reduced to its area and its upright bounding box
      (x, y, w, h); both come from the vision library. */
  datatype Contour = Contour(area: real, x: int, y: int, w: int, h: int)

  /** A contour that passed the area filter, with its centre and zone verdict. */
  datatype Region = Region(contour: Contour, centre: Point, inZone: bool)

  /** Python's floor division by two, `n // 2`. Dafny's `/` is Euclidean,
      which for a positive divisor rounds down like Python's `//`. */
  function Half(n: int): (q: int)
    ensures 2 * q <= n < 2 * q + 2
  {
    n / 2
  }

  /** The centre of a contour's bounding box: (x + w // 2, y + h // 2). */
  function Centre(c: Contour): (p: Point)
    ensures 2 * (p.x - c.x) <= c.w < 2 * (p.x - c.x) + 2
    ensures 2 * (p.y - c.y) <= c.h < 2 * (p.y - c.y) + 2
  {
    Point(c.x + Half(c.w), c.y + Half(c.h))
  }

  /** Containment with inclusive bounds on both axes: a point on an edge is inside. */
  predicate InZone(z: Rect, p: Point)
  {
    z.x1 <= p.x <= z.x2 && z.y1 <= p.y <= z.y2
  }

  /** The area filter is a strict lower bound. */
  predicate Survives(c: Contour, minArea: real)
  {
    c.area > minArea
  }

  /** The centre and the zone test of one contour. */
  function RegionOf(c: Contour, z: Rect): Region
  {
    var p := Centre(c);
    Region(c, p, InZone(z, p))
  }

  /** The regions of one frame, in contour order: one per contour whose area
      is strictly above the threshold, and none for any other. */
  function Classify(cs: seq<Contour>, minArea: real, z: Rect): (rs: seq<Region>)
    ensures |rs| <= |cs|
    ensures forall r :: r in rs ==>
      r.contour in cs && Survives(r.contour, minArea) && r == RegionOf(r.contour, z)
    ensures forall c :: c in cs && Survives(c, minArea) ==> RegionOf(c, z) in rs
    decreases |cs|
  {
    if cs == [] then []
    else
      var init, last := cs[..|cs| - 1], cs[|cs| - 1];
      assert cs == init + [last];
      var rs := Classify(init, minArea, z);
      if Survives(last, minArea) then rs + [RegionOf(last, z)] else rs
  }

  /** The per-frame flag: some region's centre lies in the zone. */
  predicate AnyInZone(rs: seq<Region>)
  {
    exists r :: r in rs && r.inZone
  }

  /** One more contour adds its region at the end, if it survives. */
  lemma ClassifySnoc(cs: seq<Contour>, c: Contour, minArea: real, z: Rect)
    ensures Classify(cs + [c], minArea, z) ==
      Classify(cs, minArea, z) + if Survives(c, minArea) then [RegionOf(c, z)] else []
  {
    assert (cs + [c])[..|cs|] == cs;
  }

  lemma AnyInZoneSnoc(rs: seq<Region>, r: Region)
    ensures AnyInZone(rs + [r]) == (AnyInZone(rs) || r.inZone)
  {
    assert r in rs + [r];
    assert forall q :: q in rs ==> q in rs + [r];
  }

  /** Regions keep contour order: the regions of a list of contours
      followed by more contours are those of the first list followed by
      those of the rest. */
  lemma {:induction false} ClassifyAppend(cs: seq<Contour>, ds: seq<Contour>, minArea: real, z: Rect)
    ensures Classify(cs + ds, minArea, z) == Classify(cs, minArea, z) + Classify(ds, minArea, z)
    decreases |ds|
  {
    if ds == [] {
      assert cs + ds == cs;
    } else {
      var init, last := ds[..|ds| - 1], ds[|ds| - 1];
      assert cs + ds == (cs + init) + [last];
      assert ds == init + [last];
      ClassifyAppend(cs, init, minArea, z);
      ClassifySnoc(cs + init, last, minArea, z);
      ClassifySnoc(init, last, minArea, z);
    }
  }

  /** How often a region occurs among a frame's regions: as often as its
      contour occurs among the contours, when that contour survives the
      filter and the region is the one computed for it; otherwise never. */
  lemma {:induction false} ClassifyCount(cs: seq<Contour>, minArea: real, z: Rect, r: Region)
    ensures multiset(Classify(cs, minArea, z))[r] ==
      if Survives(r.contour, minArea) && r == RegionOf(r.contour, z)
      then multiset(cs)[r.contour] else 0
    decreases |cs|
  {
    if cs != [] {
      var init, last := cs[..|cs| - 1], cs[|cs| - 1];
      assert cs == init + [last];
      ClassifyCount(init, minArea, z, r);
      assert multiset(cs) == multiset(init) + multiset{last};
      var rs := Classify(init, minArea, z);
      if Survives(last, minArea) {
        assert Classify(cs, minArea, z) == rs + [RegionOf(last, z)];
        assert multiset(Classify(cs, minArea, z)) == multiset(rs) + multiset{RegionOf(last, z)};
      } else {
        assert Classify(cs, minArea, z) == rs;
      }
    }
  }

  /** Reordering the contours reorders the regions and nothing more; in
      particular the per-frame flag does not depend on contour order. */
  lemma ClassifyOrderFree(cs: seq<Contour>, ds: seq<Contour>, minArea: real, z: Rect)
    requires multiset(cs) == multiset(ds)
    ensures multiset(Classify(cs, minArea, z)) == multiset(Classify(ds, minArea, z))
    ensures AnyInZone(Classify(cs, minArea, z)) == AnyInZone(Classify(ds, minArea, z))
  {
    var rs, qs := Classify(cs, minArea, z), Classify(ds, minArea, z);
    forall r: Region
      ensures multiset(rs)[r] == multiset(qs)[r]
    {
      ClassifyCount(cs, minArea, z, r);
      ClassifyCount(ds, minArea, z, r);
    }
    assert multiset(rs) == multiset(qs);
    forall r | r in rs
      ensures r in qs
    {
      assert r in multiset(rs);
    }
    forall r | r in qs
      ensures r in rs
    {
      assert r in multiset(qs);
    }
  }

  /** The flag is set exactly when some contour above the area threshold
      has its centre inside the zone. */
  lemma MotionIffSurvivorInZone(cs: seq<Contour>, minArea: real, z: Rect)
    ensures AnyInZone(Classify(cs, minArea, z)) <==>
      exists c :: c in cs && Survives(c, minArea) && InZone(z, Centre(c))
  {
    var rs := Classify(cs, minArea, z);
    if c :| c in cs && Survives(c, minArea) && InZone(z, Centre(c)) {
      assert RegionOf(c, z) in rs;
    }
  }
}
