/** Grid generation over a drawn polygon (backend/utils/gee_satellite.py):
    a lattice over the polygon's bounding box, walked row by row, keeping a
    cell exactly when its centre passes the ray-casting point-in-polygon test,
    and numbering the kept cells cell-0, cell-1, ... in the order found. */
module GeeSatellite {
  import opened Common

  datatype LatLng = LatLng(lat: real, lng: real)

  datatype Bounds = Bounds(southWest: LatLng, northEast: LatLng)

  datatype GridCell = GridCell(id: string, center: LatLng, bounds: Bounds)

  datatype GridError = EmptyPolygon

  /** The identifier f'cell-{k}'. */
  function CellId(k: nat): string
  {
    "cell-" + NatToString(k)
  }

  lemma CellIdInjective(a: nat, b: nat)
    requires CellId(a) == CellId(b)
    ensures a == b
  {
    assert NatToString(a) == CellId(a)[5..] == CellId(b)[5..] == NatToString(b);
    NatToStringInjective(a, b);
  }

  // ---------------------------------------------------------------------
  // Ray casting (_point_in_polygon)
  // ---------------------------------------------------------------------

  /** The intersection latitude computed for an edge that the horizontal ray can cross. */
  function XIntersect(lng: real, p1: LatLng, p2: LatLng): real
    requires p1.lng != p2.lng
  {
    (lng - p1.lng) * (p2.lat - p1.lat) / (p2.lng - p1.lng) + p1.lat
  }

  /** Whether the edge p1 -> p2 flips the `inside` flag for the point (lat, lng).
      The division is only reached when the two longitudes differ, because the
      strict lower bound of the longitude test already rules out equal ones. */
  predicate EdgeToggles(lat: real, lng: real, p1: LatLng, p2: LatLng)
  {
    && Min(p1.lng, p2.lng) < lng <= Max(p1.lng, p2.lng)
    && lat <= Max(p1.lat, p2.lat)
    && (p1.lat == p2.lat || lat <= XIntersect(lng, p1, p2))
  }

  /** The index i % n of the end point of the i-th edge, for 1 <= i <= n. */
  function Wrap(i: nat, n: nat): (r: nat)
    requires 0 < i <= n
    ensures r == i % n
  {
    if i == n then 0 else i
  }

  /** The `inside` flag after the first k edges polygon[i-1] -> polygon[i % n], 1 <= i <= k. */
  function InsideAfter(lat: real, lng: real, polygon: seq<LatLng>, k: nat): bool
    requires 0 < |polygon| && k <= |polygon|
  {
    if k == 0 then false
    else InsideAfter(lat, lng, polygon, k - 1) != EdgeToggles(lat, lng, polygon[k - 1], polygon[Wrap(k, |polygon|)])
  }

  /** The ray-casting answer for a point: the flag after all n edges, the last
      of which wraps from the final vertex back to the first. */
  predicate InsidePolygon(p: LatLng, polygon: seq<LatLng>)
    requires 0 < |polygon|
  {
    InsideAfter(p.lat, p.lng, polygon, |polygon|)
  }

  /** Whenever the longitude test passes, the edge's longitudes differ, so the
      intersection is always computed before it is read. */
  lemma XIntersectAssignedBeforeRead(lng: real, p1: LatLng, p2: LatLng)
    requires Min(p1.lng, p2.lng) < lng <= Max(p1.lng, p2.lng)
    ensures p1.lng != p2.lng
  {
  }

  /** _point_in_polygon. The polygon is non-empty: its only caller has already
      taken the minimum of the polygon's latitudes, which fails on an empty one. */
  method PointInPolygon(lat: real, lng: real, polygon: seq<LatLng>) returns (inside: bool)
    requires 0 < |polygon|
    ensures inside == InsidePolygon(LatLng(lat, lng), polygon)
  {
    var n := |polygon|;
    inside := false;
    var p1 := polygon[0];
    var xIntersect: Option<real> := None;
    for i := 1 to n + 1
      invariant inside == InsideAfter(lat, lng, polygon, i - 1)
      invariant p1 == polygon[if i <= n then i - 1 else 0]
    {
      var p2 := polygon[Wrap(i, n)];
      if Min(p1.lng, p2.lng) < lng <= Max(p1.lng, p2.lng) {
        if lat <= Max(p1.lat, p2.lat) {
          if p1.lng != p2.lng {
            xIntersect := Some(XIntersect(lng, p1, p2));
          }
          if p1.lat == p2.lat || lat <= xIntersect.value {
            inside := !inside;
          }
        }
      }
      p1 := p2;
    }
  }

  /** Closing the ring (repeating the first vertex at the end) does not change
      the answer: the added edge is degenerate and the wrap edge is already there. */
  lemma ClosingRingKeepsInside(p: LatLng, polygon: seq<LatLng>)
    requires 0 < |polygon|
    ensures InsidePolygon(p, polygon + [polygon[0]]) == InsidePolygon(p, polygon)
  {
    var n := |polygon|;
    var closed := polygon + [polygon[0]];
    ClosedPrefixAgrees(p, polygon, n);
    assert closed[n] == polygon[0] && closed[Wrap(n + 1, n + 1)] == polygon[0];
    assert !EdgeToggles(p.lat, p.lng, closed[n], closed[Wrap(n + 1, n + 1)]);
  }

  lemma {:induction false} ClosedPrefixAgrees(p: LatLng, polygon: seq<LatLng>, k: nat)
    requires 0 < |polygon| && k <= |polygon|
    ensures InsideAfter(p.lat, p.lng, polygon + [polygon[0]], k) == InsideAfter(p.lat, p.lng, polygon, k)
  {
    if k > 0 {
      var n := |polygon|;
      var closed := polygon + [polygon[0]];
      ClosedPrefixAgrees(p, polygon, k - 1);
      assert closed[k - 1] == polygon[k - 1];
      assert closed[Wrap(k, n + 1)] == polygon[Wrap(k, n)];
    }
  }

  // ---------------------------------------------------------------------
  // Bounding box
  // ---------------------------------------------------------------------

  function SeqMin(s: seq<real>): (m: real)
    requires |s| > 0
    ensures forall i :: 0 <= i < |s| ==> m <= s[i]
    ensures exists i :: 0 <= i < |s| && m == s[i]
  {
    if |s| == 1 then s[0]
    else
      var rest := SeqMin(s[1..]);
      assert forall i :: 1 <= i < |s| ==> s[i] == s[1..][i - 1];
      Min(s[0], rest)
  }

  function SeqMax(s: seq<real>): (m: real)
    requires |s| > 0
    ensures forall i :: 0 <= i < |s| ==> s[i] <= m
    ensures exists i :: 0 <= i < |s| && m == s[i]
  {
    if |s| == 1 then s[0]
    else
      var rest := SeqMax(s[1..]);
      assert forall i :: 1 <= i < |s| ==> s[i] == s[1..][i - 1];
      Max(s[0], rest)
  }

  function Lats(polygon: seq<LatLng>): (r: seq<real>)
    ensures |r| == |polygon| && forall i :: 0 <= i < |r| ==> r[i] == polygon[i].lat
  {
    seq(|polygon|, i requires 0 <= i < |polygon| => polygon[i].lat)
  }

  function Lngs(polygon: seq<LatLng>): (r: seq<real>)
    ensures |r| == |polygon| && forall i :: 0 <= i < |r| ==> r[i] == polygon[i].lng
  {
    seq(|polygon|, i requires 0 <= i < |polygon| => polygon[i].lng)
  }

  // ---------------------------------------------------------------------
  // The lattice walk (create_grid_cells), as specification functions
  // ---------------------------------------------------------------------

  /** A measure that drops by at least one per step of `from += step` while from < to. */
  function Steps(from: real, to: real, step: real): real
    requires step > 0.0
  {
    if from < to then (to - from) / step + 1.0 else 0.0
  }

  lemma StepsDecrease(from: real, to: real, step: real)
    requires step > 0.0 && from < to
    ensures 0.0 <= Steps(from, to, step)
    ensures Steps(from + step, to, step) <= Steps(from, to, step) - 1.0
  {
    var d := (to - from) / step;
    assert d > 0.0;
    assert d * step == to - from;
    assert (d - 1.0) * step == to - (from + step);
    DivUnique(d - 1.0, to - (from + step), step);
  }

  lemma DivUnique(x: real, y: real, step: real)
    requires step > 0.0 && x * step == y
    ensures y / step == x
  {
  }

  /** The cell whose south-west corner is sw. */
  function MakeCell(k: nat, sw: LatLng, latStep: real, lngStep: real): GridCell
  {
    GridCell(CellId(k),
             LatLng(sw.lat + latStep / 2.0, sw.lng + lngStep / 2.0),
             Bounds(sw, LatLng(sw.lat + latStep, sw.lng + lngStep)))
  }

  /** The cells kept by the inner loop of one row, started at longitude lng
      with the counter at nextId. */
  function RowCells(polygon: seq<LatLng>, lat: real, lng: real, maxLng: real,
                    latStep: real, lngStep: real, nextId: nat): seq<GridCell>
    requires 0 < |polygon| && lngStep > 0.0
    decreases Steps(lng, maxLng, lngStep)
  {
    if lng >= maxLng then []
    else
      StepsDecrease(lng, maxLng, lngStep);
      var c := MakeCell(nextId, LatLng(lat, lng), latStep, lngStep);
      if InsidePolygon(c.center, polygon)
      then [c] + RowCells(polygon, lat, lng + lngStep, maxLng, latStep, lngStep, nextId + 1)
      else RowCells(polygon, lat, lng + lngStep, maxLng, latStep, lngStep, nextId)
  }

  /** The cells kept by the outer loop from latitude lat on. */
  function Rows(polygon: seq<LatLng>, lat: real, maxLat: real, minLng: real, maxLng: real,
                latStep: real, lngStep: real, nextId: nat): seq<GridCell>
    requires 0 < |polygon| && latStep > 0.0 && lngStep > 0.0
    decreases Steps(lat, maxLat, latStep)
  {
    if lat >= maxLat then []
    else
      StepsDecrease(lat, maxLat, latStep);
      var row := RowCells(polygon, lat, minLng, maxLng, latStep, lngStep, nextId);
      row + Rows(polygon, lat + latStep, maxLat, minLng, maxLng, latStep, lngStep, nextId + |row|)
  }

  function LatStep(cellSizeKm: real): real
  {
    cellSizeKm / 111.0
  }

  /** The polygon's bounding box: south-west = (min lat, min lng), north-east = (max lat, max lng). */
  function BoundingBox(polygon: seq<LatLng>): (b: Bounds)
    requires 0 < |polygon|
    ensures forall i :: 0 <= i < |polygon| ==>
              b.southWest.lat <= polygon[i].lat <= b.northEast.lat && b.southWest.lng <= polygon[i].lng <= b.northEast.lng
  {
    Bounds(LatLng(SeqMin(Lats(polygon)), SeqMin(Lngs(polygon))), LatLng(SeqMax(Lats(polygon)), SeqMax(Lngs(polygon))))
  }

  /** The cells create_grid_cells returns for a non-empty polygon. */
  function Grid(polygon: seq<LatLng>, cellSizeKm: real, lngStep: real): seq<GridCell>
    requires 0 < |polygon| && cellSizeKm > 0.0 && lngStep > 0.0
  {
    var b := BoundingBox(polygon);
    Rows(polygon, b.southWest.lat, b.northEast.lat, b.southWest.lng, b.northEast.lng, LatStep(cellSizeKm), lngStep, 0)
  }

  /** The inner loop of create_grid_cells: walk one row of the lattice from
      west to east, keeping the cells whose centre is inside the polygon and
      numbering them from firstId on. */
  method ScanRow(polygon: seq<LatLng>, lat: real, minLng: real, maxLng: real,
                 latStep: real, lngStep: real, firstId: nat) returns (row: seq<GridCell>)
    requires 0 < |polygon| && lngStep > 0.0
    ensures row == RowCells(polygon, lat, minLng, maxLng, latStep, lngStep, firstId)
  {
    row := [];
    var cellId := firstId;
    var lng := minLng;
    while lng < maxLng
      invariant cellId == firstId + |row|
      invariant RowCells(polygon, lat, minLng, maxLng, latStep, lngStep, firstId)
                == row + RowCells(polygon, lat, lng, maxLng, latStep, lngStep, cellId)
      decreases Steps(lng, maxLng, lngStep)
    {
      StepsDecrease(lng, maxLng, lngStep);
      var centerLat := lat + latStep / 2.0;
      var centerLng := lng + lngStep / 2.0;
      var keep := PointInPolygon(centerLat, centerLng, polygon);
      ghost var here := MakeCell(cellId, LatLng(lat, lng), latStep, lngStep);
      ghost var rest := RowCells(polygon, lat, lng + lngStep, maxLng, latStep, lngStep, if keep then cellId + 1 else cellId);
      assert RowCells(polygon, lat, lng, maxLng, latStep, lngStep, cellId) == (if keep then [here] + rest else rest);
      if keep {
        var cell := GridCell(CellId(cellId), LatLng(centerLat, centerLng),
                             Bounds(LatLng(lat, lng), LatLng(lat + latStep, lng + lngStep)));
        assert cell == here;
        assert row + ([cell] + rest) == (row + [cell]) + rest;
        row := row + [cell];
        cellId := cellId + 1;
      }
      lng := lng + lngStep;
    }
  }

  /** The two nested loops of create_grid_cells: rows from south to north,
      each row walked by ScanRow, with one counter running across rows. */
  method WalkLattice(polygon: seq<LatLng>, minLat: real, maxLat: real, minLng: real, maxLng: real,
                     latStep: real, lngStep: real) returns (cells: seq<GridCell>)
    requires 0 < |polygon| && latStep > 0.0 && lngStep > 0.0
    ensures cells == Rows(polygon, minLat, maxLat, minLng, maxLng, latStep, lngStep, 0)
  {
    ghost var total := Rows(polygon, minLat, maxLat, minLng, maxLng, latStep, lngStep, 0);
    cells := [];
    var cellId: nat := 0;
    var lat := minLat;
    while lat < maxLat
      invariant cellId == |cells|
      invariant total == cells + Rows(polygon, lat, maxLat, minLng, maxLng, latStep, lngStep, cellId)
      decreases Steps(lat, maxLat, latStep)
    {
      var row := ScanRow(polygon, lat, minLng, maxLng, latStep, lngStep, cellId);
      StepsDecrease(lat, maxLat, latStep);
      ghost var rest := Rows(polygon, lat + latStep, maxLat, minLng, maxLng, latStep, lngStep, cellId + |row|);
      assert Rows(polygon, lat, maxLat, minLng, maxLng, latStep, lngStep, cellId) == row + rest;
      assert total == (cells + row) + rest;
      cells := cells + row;
      cellId := cellId + |row|;
      lat := lat + latStep;
    }
  }

  /** create_grid_cells. lngStep is the longitude step the source derives with a
      cosine; it is positive, as are cell sizes: with a step that is not positive
      the source's loops never end. */
  method CreateGridCells(polygon: seq<LatLng>, cellSizeKm: real, lngStep: real)
    returns (r: Result<seq<GridCell>, GridError>)
    requires cellSizeKm > 0.0 && lngStep > 0.0
    ensures |polygon| == 0 ==> r == Failure(EmptyPolygon)
    ensures 0 < |polygon| ==> r == Success(Grid(polygon, cellSizeKm, lngStep))
  {
    if |polygon| == 0 {
      return Failure(EmptyPolygon);
    }
    var lats, lngs := Lats(polygon), Lngs(polygon);
    var minLat, maxLat := SeqMin(lats), SeqMax(lats);
    var minLng, maxLng := SeqMin(lngs), SeqMax(lngs);
    var latStep := LatStep(cellSizeKm);
    var cells := WalkLattice(polygon, minLat, maxLat, minLng, maxLng, latStep, lngStep);
    return Success(cells);
  }

  // ---------------------------------------------------------------------
  // Properties of the grid
  // ---------------------------------------------------------------------

  /** The k-th lattice coordinate from origin. */
  function Lattice(origin: real, k: nat, step: real): real
  {
    origin + k as real * step
  }

  lemma LatticeShift(origin: real, k: nat, step: real)
    ensures Lattice(origin + step, k, step) == Lattice(origin, k + 1, step)
  {
    assert (k + 1) as real * step == k as real * step + step;
  }

  lemma LatticeAtLeastOrigin(origin: real, k: nat, step: real)
    requires step > 0.0
    ensures origin <= Lattice(origin, k, step)
  {
    assert k as real * step >= 0.0;
  }

  /** A cell of the row at latitude lat whose walk started at lng0. */
  ghost predicate InRow(c: GridCell, polygon: seq<LatLng>, lat: real, lng0: real, maxLng: real,
                  latStep: real, lngStep: real)
    requires 0 < |polygon|
  {
    var sw := c.bounds.southWest;
    && sw.lat == lat
    && lng0 <= sw.lng < maxLng
    && (exists j: nat :: sw.lng == Lattice(lng0, j, lngStep))
    && c.center == LatLng(sw.lat + latStep / 2.0, sw.lng + lngStep / 2.0)
    && c.bounds.northEast == LatLng(sw.lat + latStep, sw.lng + lngStep)
    && InsidePolygon(c.center, polygon)
  }

  /** A cell of the grid over the box [lat0, maxLat) x [minLng, maxLng): its
      south-west corner is a lattice point of the box, its north-east corner is
      one step further in each direction, its centre is half a step in, and the
      centre is inside the polygon. */
  ghost predicate InGrid(c: GridCell, polygon: seq<LatLng>, lat0: real, maxLat: real, minLng: real, maxLng: real,
                   latStep: real, lngStep: real)
    requires 0 < |polygon|
  {
    var sw := c.bounds.southWest;
    && lat0 <= sw.lat < maxLat
    && (exists i: nat :: sw.lat == Lattice(lat0, i, latStep))
    && minLng <= sw.lng < maxLng
    && (exists j: nat :: sw.lng == Lattice(minLng, j, lngStep))
    && c.center == LatLng(sw.lat + latStep / 2.0, sw.lng + lngStep / 2.0)
    && c.bounds.northEast == LatLng(sw.lat + latStep, sw.lng + lngStep)
    && InsidePolygon(c.center, polygon)
  }

  /** Row-major order of south-west corners. */
  predicate LexLess(a: LatLng, b: LatLng)
  {
    a.lat < b.lat || (a.lat == b.lat && a.lng < b.lng)
  }

  /** The cells of one row: numbered from nextId on, each a cell of the row,
      in strictly increasing longitude. */
  ghost predicate RowSound(row: seq<GridCell>, polygon: seq<LatLng>, lat: real, lng: real, maxLng: real,
                           latStep: real, lngStep: real, nextId: nat)
    requires 0 < |polygon|
  {
    && (forall i :: 0 <= i < |row| ==>
          row[i].id == CellId(nextId + i) && InRow(row[i], polygon, lat, lng, maxLng, latStep, lngStep))
    && (forall i, j :: 0 <= i < j < |row| ==> row[i].bounds.southWest.lng < row[j].bounds.southWest.lng)
  }

  lemma {:induction false} RowCellsSound(polygon: seq<LatLng>, lat: real, lng: real, maxLng: real,
                                         latStep: real, lngStep: real, nextId: nat)
    requires 0 < |polygon| && lngStep > 0.0
    ensures RowSound(RowCells(polygon, lat, lng, maxLng, latStep, lngStep, nextId), polygon, lat, lng, maxLng, latStep, lngStep, nextId)
    decreases Steps(lng, maxLng, lngStep)
  {
    if lng < maxLng {
      StepsDecrease(lng, maxLng, lngStep);
      var c := MakeCell(nextId, LatLng(lat, lng), latStep, lngStep);
      var keep := InsidePolygon(c.center, polygon);
      var id' := if keep then nextId + 1 else nextId;
      var tail := RowCells(polygon, lat, lng + lngStep, maxLng, latStep, lngStep, id');
      RowCellsSound(polygon, lat, lng + lngStep, maxLng, latStep, lngStep, id');
      forall d | InRow(d, polygon, lat, lng + lngStep, maxLng, latStep, lngStep)
        ensures InRow(d, polygon, lat, lng, maxLng, latStep, lngStep)
      {
        var j: nat :| d.bounds.southWest.lng == Lattice(lng + lngStep, j, lngStep);
        LatticeShift(lng, j, lngStep);
      }
      if keep {
        assert c.bounds.southWest.lng == Lattice(lng, 0, lngStep);
        assert InRow(c, polygon, lat, lng, maxLng, latStep, lngStep);
        var row := [c] + tail;
        assert RowCells(polygon, lat, lng, maxLng, latStep, lngStep, nextId) == row;
        forall i | 0 <= i < |row|
          ensures row[i].id == CellId(nextId + i) && InRow(row[i], polygon, lat, lng, maxLng, latStep, lngStep)
        {
          if i > 0 {
            assert row[i] == tail[i - 1];
          }
        }
        assert forall k :: 0 <= k < |tail| ==> lng + lngStep <= tail[k].bounds.southWest.lng;
        ConsSorted(c, tail);
      }
    }
  }

  /** A cell west of every cell of a row sorted by longitude, put in front of
      it, keeps the row sorted. */
  lemma ConsSorted(c: GridCell, tail: seq<GridCell>)
    requires forall k :: 0 <= k < |tail| ==> c.bounds.southWest.lng < tail[k].bounds.southWest.lng
    requires forall i, j :: 0 <= i < j < |tail| ==> tail[i].bounds.southWest.lng < tail[j].bounds.southWest.lng
    ensures forall i, j :: 0 <= i < j < |[c] + tail| ==>
      ([c] + tail)[i].bounds.southWest.lng < ([c] + tail)[j].bounds.southWest.lng
  {
    var row := [c] + tail;
    forall i, j | 0 <= i < j < |row|
      ensures row[i].bounds.southWest.lng < row[j].bounds.southWest.lng
    {
      assert row[j] == tail[j - 1];
      if i > 0 {
        assert row[i] == tail[i - 1];
      }
    }
  }

  /** The cells of the rows from lat0 on: numbered from nextId on, each a cell
      of the grid, in strictly increasing row-major order. */
  ghost predicate GridSoundFrom(cells: seq<GridCell>, polygon: seq<LatLng>, lat0: real, maxLat: real,
                                minLng: real, maxLng: real, latStep: real, lngStep: real, nextId: nat)
    requires 0 < |polygon|
  {
    && (forall i :: 0 <= i < |cells| ==>
          cells[i].id == CellId(nextId + i) && InGrid(cells[i], polygon, lat0, maxLat, minLng, maxLng, latStep, lngStep))
    && (forall i, j :: 0 <= i < j < |cells| ==> LexLess(cells[i].bounds.southWest, cells[j].bounds.southWest))
  }

  lemma {:induction false} RowsSound(polygon: seq<LatLng>, lat: real, maxLat: real, minLng: real, maxLng: real,
                                     latStep: real, lngStep: real, nextId: nat)
    requires 0 < |polygon| && latStep > 0.0 && lngStep > 0.0
    ensures GridSoundFrom(Rows(polygon, lat, maxLat, minLng, maxLng, latStep, lngStep, nextId),
                          polygon, lat, maxLat, minLng, maxLng, latStep, lngStep, nextId)
    decreases Steps(lat, maxLat, latStep)
  {
    if lat < maxLat {
      StepsDecrease(lat, maxLat, latStep);
      var row := RowCells(polygon, lat, minLng, maxLng, latStep, lngStep, nextId);
      var rest := Rows(polygon, lat + latStep, maxLat, minLng, maxLng, latStep, lngStep, nextId + |row|);
      RowCellsSound(polygon, lat, minLng, maxLng, latStep, lngStep, nextId);
      RowsSound(polygon, lat + latStep, maxLat, minLng, maxLng, latStep, lngStep, nextId + |row|);
      assert forall i :: 0 <= i < |row| ==> row[i].id == CellId(nextId + i);
      assert forall i :: 0 <= i < |row| ==> InRow(row[i], polygon, lat, minLng, maxLng, latStep, lngStep);
      var cells := row + rest;
      assert Rows(polygon, lat, maxLat, minLng, maxLng, latStep, lngStep, nextId) == cells;
      forall d | InRow(d, polygon, lat, minLng, maxLng, latStep, lngStep)
        ensures InGrid(d, polygon, lat, maxLat, minLng, maxLng, latStep, lngStep)
      {
        assert d.bounds.southWest.lat == Lattice(lat, 0, latStep);
      }
      forall d | InGrid(d, polygon, lat + latStep, maxLat, minLng, maxLng, latStep, lngStep)
        ensures InGrid(d, polygon, lat, maxLat, minLng, maxLng, latStep, lngStep)
        ensures lat < d.bounds.southWest.lat
      {
        var i: nat :| d.bounds.southWest.lat == Lattice(lat + latStep, i, latStep);
        LatticeShift(lat, i, latStep);
      }
      forall i | 0 <= i < |cells|
        ensures cells[i].id == CellId(nextId + i) && InGrid(cells[i], polygon, lat, maxLat, minLng, maxLng, latStep, lngStep)
      {
        if i < |row| {
          assert cells[i] == row[i];
        } else {
          assert cells[i] == rest[i - |row|];
        }
      }
      assert forall i :: 0 <= i < |rest| ==> lat < rest[i].bounds.southWest.lat;
      ConcatSorted(row, rest, lat);
    }
  }

  /** A row at latitude lat, sorted by longitude, followed by sorted cells
      further north, is sorted south-west corner first. */
  lemma ConcatSorted(row: seq<GridCell>, rest: seq<GridCell>, lat: real)
    requires forall i :: 0 <= i < |row| ==> row[i].bounds.southWest.lat == lat
    requires forall i, j :: 0 <= i < j < |row| ==> row[i].bounds.southWest.lng < row[j].bounds.southWest.lng
    requires forall i :: 0 <= i < |rest| ==> lat < rest[i].bounds.southWest.lat
    requires forall i, j :: 0 <= i < j < |rest| ==> LexLess(rest[i].bounds.southWest, rest[j].bounds.southWest)
    ensures forall i, j :: 0 <= i < j < |row + rest| ==>
      LexLess((row + rest)[i].bounds.southWest, (row + rest)[j].bounds.southWest)
  {
    var cells := row + rest;
    forall i, j | 0 <= i < j < |cells|
      ensures LexLess(cells[i].bounds.southWest, cells[j].bounds.southWest)
    {
      if j < |row| {
        assert cells[i] == row[i] && cells[j] == row[j];
      } else if i < |row| {
        assert cells[i] == row[i] && cells[j] == rest[j - |row|];
      } else {
        assert cells[i] == rest[i - |row|] && cells[j] == rest[j - |row|];
      }
    }
  }

  /** Some cell of cells has its south-west corner at sw. */
  ghost predicate HasOrigin(cells: seq<GridCell>, sw: LatLng)
  {
    exists k :: 0 <= k < |cells| && cells[k].bounds.southWest == sw
  }

  lemma {:induction false} RowCellsComplete(polygon: seq<LatLng>, lat: real, lng: real, maxLng: real,
                                            latStep: real, lngStep: real, nextId: nat, j: nat)
    requires 0 < |polygon| && lngStep > 0.0
    requires Lattice(lng, j, lngStep) < maxLng
    requires InsidePolygon(LatLng(lat + latStep / 2.0, Lattice(lng, j, lngStep) + lngStep / 2.0), polygon)
    ensures HasOrigin(RowCells(polygon, lat, lng, maxLng, latStep, lngStep, nextId), LatLng(lat, Lattice(lng, j, lngStep)))
    decreases j
  {
    LatticeAtLeastOrigin(lng, j, lngStep);
    StepsDecrease(lng, maxLng, lngStep);
    var c := MakeCell(nextId, LatLng(lat, lng), latStep, lngStep);
    var keep := InsidePolygon(c.center, polygon);
    var id' := if keep then nextId + 1 else nextId;
    var tail := RowCells(polygon, lat, lng + lngStep, maxLng, latStep, lngStep, id');
    var row := RowCells(polygon, lat, lng, maxLng, latStep, lngStep, nextId);
    assert row == if keep then [c] + tail else tail;
    if j == 0 {
      assert Lattice(lng, 0, lngStep) == lng;
      assert keep;
      assert row[0].bounds.southWest == LatLng(lat, Lattice(lng, j, lngStep));
    } else {
      LatticeShift(lng, j - 1, lngStep);
      RowCellsComplete(polygon, lat, lng + lngStep, maxLng, latStep, lngStep, id', j - 1);
      var k :| 0 <= k < |tail| && tail[k].bounds.southWest == LatLng(lat, Lattice(lng, j, lngStep));
      if keep {
        assert row[k + 1] == tail[k];
      }
    }
  }

  lemma {:induction false} RowsComplete(polygon: seq<LatLng>, lat: real, maxLat: real, minLng: real, maxLng: real,
                                        latStep: real, lngStep: real, nextId: nat, i: nat, j: nat)
    requires 0 < |polygon| && latStep > 0.0 && lngStep > 0.0
    requires Lattice(lat, i, latStep) < maxLat && Lattice(minLng, j, lngStep) < maxLng
    requires InsidePolygon(LatLng(Lattice(lat, i, latStep) + latStep / 2.0, Lattice(minLng, j, lngStep) + lngStep / 2.0), polygon)
    ensures HasOrigin(Rows(polygon, lat, maxLat, minLng, maxLng, latStep, lngStep, nextId),
                      LatLng(Lattice(lat, i, latStep), Lattice(minLng, j, lngStep)))
    decreases i
  {
    LatticeAtLeastOrigin(lat, i, latStep);
    StepsDecrease(lat, maxLat, latStep);
    var row := RowCells(polygon, lat, minLng, maxLng, latStep, lngStep, nextId);
    var rest := Rows(polygon, lat + latStep, maxLat, minLng, maxLng, latStep, lngStep, nextId + |row|);
    var cells := Rows(polygon, lat, maxLat, minLng, maxLng, latStep, lngStep, nextId);
    assert cells == row + rest;
    if i == 0 {
      assert Lattice(lat, 0, latStep) == lat;
      RowCellsComplete(polygon, lat, minLng, maxLng, latStep, lngStep, nextId, j);
      var k :| 0 <= k < |row| && row[k].bounds.southWest == LatLng(lat, Lattice(minLng, j, lngStep));
      assert cells[k] == row[k];
    } else {
      LatticeShift(lat, i - 1, latStep);
      RowsComplete(polygon, lat + latStep, maxLat, minLng, maxLng, latStep, lngStep, nextId + |row|, i - 1, j);
      var k :| 0 <= k < |rest| && rest[k].bounds.southWest == LatLng(Lattice(lat, i, latStep), Lattice(minLng, j, lngStep));
      assert cells[k + |row|] == rest[k];
    }
  }

  /** Every returned cell lies on the lattice of the polygon's bounding box,
      has the size of one step in each direction, has its centre half a step in,
      and its centre passes the point-in-polygon test; the k-th cell is `cell-k`;
      the cells come in row-major order of their south-west corners. */
  lemma GridSound(polygon: seq<LatLng>, cellSizeKm: real, lngStep: real)
    requires 0 < |polygon| && cellSizeKm > 0.0 && lngStep > 0.0
    ensures GridSoundFrom(Grid(polygon, cellSizeKm, lngStep), polygon,
                          BoundingBox(polygon).southWest.lat, BoundingBox(polygon).northEast.lat,
                          BoundingBox(polygon).southWest.lng, BoundingBox(polygon).northEast.lng,
                          LatStep(cellSizeKm), lngStep, 0)
  {
    var b := BoundingBox(polygon);
    var latStep := LatStep(cellSizeKm);
    assert latStep > 0.0;
    assert Grid(polygon, cellSizeKm, lngStep) == Rows(polygon, b.southWest.lat, b.northEast.lat, b.southWest.lng, b.northEast.lng, latStep, lngStep, 0);
    RowsSound(polygon, b.southWest.lat, b.northEast.lat, b.southWest.lng, b.northEast.lng, LatStep(cellSizeKm), lngStep, 0);
  }

  /** No two returned cells share an id. */
  lemma GridIdsDistinct(polygon: seq<LatLng>, cellSizeKm: real, lngStep: real)
    requires 0 < |polygon| && cellSizeKm > 0.0 && lngStep > 0.0
    ensures forall k, l ::
              (0 <= k < |Grid(polygon, cellSizeKm, lngStep)| && 0 <= l < |Grid(polygon, cellSizeKm, lngStep)|
               && Grid(polygon, cellSizeKm, lngStep)[k].id == Grid(polygon, cellSizeKm, lngStep)[l].id) ==> k == l
  {
    var g := Grid(polygon, cellSizeKm, lngStep);
    GridSound(polygon, cellSizeKm, lngStep);
    forall k, l | 0 <= k < |g| && 0 <= l < |g| && g[k].id == g[l].id
      ensures k == l
    {
      CellIdInjective(k, l);
    }
  }

  /** Conversely, every lattice cell of the bounding box whose centre passes the
      point-in-polygon test is returned. */
  lemma GridComplete(polygon: seq<LatLng>, cellSizeKm: real, lngStep: real, i: nat, j: nat)
    requires 0 < |polygon| && cellSizeKm > 0.0 && lngStep > 0.0
    requires Lattice(BoundingBox(polygon).southWest.lat, i, LatStep(cellSizeKm)) < BoundingBox(polygon).northEast.lat
    requires Lattice(BoundingBox(polygon).southWest.lng, j, lngStep) < BoundingBox(polygon).northEast.lng
    requires InsidePolygon(LatLng(Lattice(BoundingBox(polygon).southWest.lat, i, LatStep(cellSizeKm)) + LatStep(cellSizeKm) / 2.0,
                                  Lattice(BoundingBox(polygon).southWest.lng, j, lngStep) + lngStep / 2.0), polygon)
    ensures HasOrigin(Grid(polygon, cellSizeKm, lngStep),
                      LatLng(Lattice(BoundingBox(polygon).southWest.lat, i, LatStep(cellSizeKm)),
                             Lattice(BoundingBox(polygon).southWest.lng, j, lngStep)))
  {
    var b := BoundingBox(polygon);
    var latStep := LatStep(cellSizeKm);
    assert latStep > 0.0;
    assert Grid(polygon, cellSizeKm, lngStep) == Rows(polygon, b.southWest.lat, b.northEast.lat, b.southWest.lng, b.northEast.lng, latStep, lngStep, 0);
    RowsComplete(polygon, b.southWest.lat, b.northEast.lat, b.southWest.lng, b.northEast.lng, LatStep(cellSizeKm), lngStep, 0, i, j);
  }
}
