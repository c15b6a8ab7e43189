/** The logic of the map editor (src/editor/logic_map.cpp): what saving a map, the filter of
    src/common/yaml_parser.cpp and loading it again make of the drawing. */
module Editor {
  import opened Basics
  import opened Settings

  const NONE_BLOCK: int := -1
  const DEFAULT_ROWS: nat := 10
  const DEFAULT_COLUMNS: nat := 12
  const ROWS_TO_ADD: nat := 10
  const COLUMNS_TO_ADD: nat := 10
  const MIN_SIZE_SPAWNS: nat := 10
  const MIN_SIZE_SITES: nat := 1

  /** A column and a row. */
  datatype Cell = Cell(x: int, y: int)
  type Grid = seq<seq<int>>
  type Weapon = Option<GunType>

  datatype MapObject = MapObject(positions: seq<Cell>, kind: int)

  /** A saved map. `guns` has the groups of the source's map from weapons to positions. */
  datatype GameMap = GameMap(
    width: int, height: int, background: int, objects: seq<MapObject>,
    ctSpawns: seq<Cell>, ttSpawns: seq<Cell>, sites: set<Cell>, guns: seq<(Weapon, seq<Cell>)>)

  /** What is drawn in the editor. */
  datatype Drawing = Drawing(
    grid: Grid, background: int, tts: set<Cell>, cts: set<Cell>, sites: set<Cell>, guns: map<Cell, Weapon>)

  datatype SaveError = FewCtSpawns | FewTtSpawns | FewSites
  datatype Saved = Map(value: GameMap) | Refused(error: SaveError)

  predicate Rectangular(g: Grid) { forall row <- g :: |row| == |g[0]| }

  /** The first row is the shortest: what going through a grid by the width of its first row needs. */
  predicate Wide(g: Grid) { forall row <- g :: |row| >= |g[0]| }

  /** The width of a grid is that of its first row; cells beyond it are not seen. */
  predicate InGrid(g: Grid, c: Cell) { 0 <= c.y < |g| && 0 <= c.x < |g[0]| }

  function At(g: Grid, c: Cell): int
    requires Wide(g) && InGrid(g, c)
  {
    assert g[c.y] in g;
    g[c.y][c.x]
  }

  function Shift(c: Cell, dx: int, dy: int): Cell { Cell(c.x - dx, c.y - dy) }

  function Shifted(s: set<Cell>, dx: int, dy: int): set<Cell> { set c <- s :: Shift(c, dx, dy) }

  function SetOf(s: seq<Cell>): set<Cell> { set c | c in s }

  // ---- What a map says

  /** The objects put a block of this kind on this cell. */
  predicate Covers(objects: seq<MapObject>, kind: int, c: Cell) {
    exists o <- objects :: o.kind == kind && c in o.positions
  }

  /** What loading leaves on a cell: the last object that mentions it wins. */
  function KindAt(objects: seq<MapObject>, c: Cell): int {
    if objects == [] then NONE_BLOCK
    else if c in objects[|objects| - 1].positions then objects[|objects| - 1].kind
    else KindAt(objects[..|objects| - 1], c)
  }

  predicate Grouped(groups: seq<(Weapon, seq<Cell>)>, w: Weapon, c: Cell) { exists e <- groups :: e.0 == w && c in e.1 }

  function WeaponAt(groups: seq<(Weapon, seq<Cell>)>, c: Cell): Option<Weapon> {
    if groups == [] then None
    else if c in groups[|groups| - 1].1 then Some(groups[|groups| - 1].0)
    else WeaponAt(groups[..|groups| - 1], c)
  }

  // ---- The box around the blocks

  predicate IsBlock(g: Grid, c: Cell)
    requires Wide(g)
  {
    InGrid(g, c) && At(g, c) != NONE_BLOCK
  }

  /** The corners that createMap computes, from the far ends inwards. */
  datatype Box = Box(left: int, right: int, top: int, bottom: int)

  /** The box contains every block, and a block touches each of its sides; without any block it is
      inside out. */
  ghost predicate Bounds(g: Grid, width: int, b: Box)
    requires Wide(g)
  {
    && (forall c :: IsBlock(g, c) ==> b.left <= c.x <= b.right && b.top <= c.y <= b.bottom)
    && (if exists c :: IsBlock(g, c) then Touched(g, b) else b == Box(width, 0, |g|, 0))
  }

  ghost predicate Touched(g: Grid, b: Box)
    requires Wide(g)
  {
    && (exists c :: IsBlock(g, c) && c.x == b.left) && (exists c :: IsBlock(g, c) && c.x == b.right)
    && (exists c :: IsBlock(g, c) && c.y == b.top) && (exists c :: IsBlock(g, c) && c.y == b.bottom)
  }

  // ---- Saving and loading, as relations between drawings and maps

  predicate Holds(g: Grid, c: Cell, kind: int)
    requires Wide(g)
  {
    InGrid(g, c) && At(g, c) == kind
  }

  /** Every cell is in the objects of its kind and in no others, moved by (dx, dy). */
  ghost predicate BlocksSaved(g: Grid, objects: seq<MapObject>, dx: int, dy: int)
    requires Wide(g)
  {
    forall kind, c :: Covers(objects, kind, c) <==> Holds(g, Cell(c.x + dx, c.y + dy), kind)
  }

  predicate HasGun(guns: map<Cell, Weapon>, c: Cell, w: Weapon) { c in guns && guns[c] == w }

  ghost predicate GunsSaved(guns: map<Cell, Weapon>, groups: seq<(Weapon, seq<Cell>)>, dx: int, dy: int) {
    forall w, c :: Grouped(groups, w, c) <==> HasGun(guns, Cell(c.x + dx, c.y + dy), w)
  }

  /** A map that a drawing is saved as. The spawns of the terrorists are moved up by as much as the
      others are moved left. */
  ghost predicate SavedAs(d: Drawing, m: GameMap, b: Box) {
    && |d.grid| > 0 && Wide(d.grid) && Bounds(d.grid, |d.grid[0]|, b)
    && m.width == b.right - b.left + 1 && m.height == b.bottom - b.top + 1 && m.background == d.background
    && BlocksSaved(d.grid, m.objects, b.left, b.top)
    && SetOf(m.ctSpawns) == Shifted(d.cts, b.left, b.top) && SetOf(m.ttSpawns) == Shifted(d.tts, b.left, b.left)
    && m.sites == Shifted(d.sites, b.left, b.top)
    && GunsSaved(d.guns, m.guns, b.left, b.top)
  }

  function Filter(objects: seq<MapObject>): seq<MapObject> {
    if objects == [] then []
    else
      var last := objects[|objects| - 1];
      Filter(objects[..|objects| - 1]) + (if last.kind != NONE_BLOCK then [last] else [])
  }

  /** What is written to the file of a map: the empty cells are not. */
  function Written(m: GameMap): GameMap { m.(objects := Filter(m.objects)) }

  predicate WithinMap(m: GameMap) {
    m.width >= 0 && m.height >= 0
    && forall o <- m.objects, c <- o.positions :: 0 <= c.x < m.width && 0 <= c.y < m.height
  }

  function GunOn(guns: map<Cell, Weapon>, c: Cell): Option<Weapon> { if c in guns then Some(guns[c]) else None }

  ghost predicate GunsLoaded(groups: seq<(Weapon, seq<Cell>)>, guns: map<Cell, Weapon>) {
    forall c :: GunOn(guns, c) == WeaponAt(groups, c)
  }

  ghost predicate GunsMoved(guns: map<Cell, Weapon>, guns': map<Cell, Weapon>, dx: int, dy: int) {
    forall c :: GunOn(guns', c) == GunOn(guns, Cell(c.x + dx, c.y + dy))
  }

  /** A map that a drawing is loaded from. */
  ghost predicate LoadedFrom(m: GameMap, d: Drawing) {
    && |d.grid| == m.height && Wide(d.grid) && (forall row <- d.grid :: |row| == m.width)
       && d.background == m.background
    && (forall c :: InGrid(d.grid, c) ==> At(d.grid, c) == KindAt(m.objects, c))
    && d.cts == SetOf(m.ctSpawns) && d.tts == SetOf(m.ttSpawns) && d.sites == m.sites
    && GunsLoaded(m.guns, d.guns)
  }

  /** Each cell of the smaller grid is the one that it was in the larger. */
  ghost predicate SameCells(g: Grid, g': Grid, dx: int, dy: int)
    requires Wide(g) && Wide(g')
  {
    forall c :: InGrid(g', c) ==> Holds(g, Cell(c.x + dx, c.y + dy), At(g', c))
  }

  /** The drawing cut down to the box around its blocks, and moved to the corner. */
  ghost predicate CroppedTo(d: Drawing, d': Drawing, b: Box) {
    && Wide(d.grid) && Wide(d'.grid) && |d'.grid| == b.bottom - b.top + 1
       && (forall row <- d'.grid :: |row| == b.right - b.left + 1)
    && SameCells(d.grid, d'.grid, b.left, b.top)
    && d'.background == d.background
    && d'.cts == Shifted(d.cts, b.left, b.top) && d'.sites == Shifted(d.sites, b.left, b.top)
    && d'.tts == Shifted(d.tts, b.left, b.left)
    && GunsMoved(d.guns, d'.guns, b.left, b.top)
  }

  // ---- Saving, filtering and loading

  lemma {:induction false} FilterCovers(objects: seq<MapObject>, kind: int, c: Cell)
    ensures Covers(Filter(objects), kind, c) <==> Covers(objects, kind, c) && kind != NONE_BLOCK
  {
    if objects != [] {
      var before, last := objects[..|objects| - 1], objects[|objects| - 1];
      FilterCovers(before, kind, c);
      assert objects == before + [last];
      assert last in objects;
      if Covers(Filter(objects), kind, c) && !Covers(Filter(before), kind, c) { assert last.kind == kind; }
      if Covers(Filter(before), kind, c) {
        var o :| o in Filter(before) && o.kind == kind && c in o.positions;
        assert o in Filter(objects);
      }
      if kind != NONE_BLOCK && last.kind == kind && c in last.positions { assert last in Filter(objects); }
    }
  }

  lemma CoveredBefore(objects: seq<MapObject>, kind: int, c: Cell)
    requires objects != [] && Covers(objects, kind, c) && c !in objects[|objects| - 1].positions
    ensures Covers(objects[..|objects| - 1], kind, c)
  {
    var o :| o in objects && o.kind == kind && c in o.positions;
    assert objects == objects[..|objects| - 1] + [objects[|objects| - 1]];
  }

  lemma {:induction false} KindIsCovered(objects: seq<MapObject>, c: Cell)
    ensures var k := KindAt(objects, c);
            Covers(objects, k, c) || (k == NONE_BLOCK && forall kind :: !Covers(objects, kind, c))
  {
    if objects != [] {
      var before, last := objects[..|objects| - 1], objects[|objects| - 1];
      assert objects == before + [last];
      if c in last.positions {
        assert last in objects;
      } else {
        KindIsCovered(before, c);
        forall kind | Covers(objects, kind, c) ensures Covers(before, kind, c) { CoveredBefore(objects, kind, c); }
        if Covers(before, KindAt(before, c), c) {
          var o :| o in before && o.kind == KindAt(before, c) && c in o.positions;
          assert o in objects;
        }
      }
    }
  }

  lemma GroupedBefore(groups: seq<(Weapon, seq<Cell>)>, w: Weapon, c: Cell)
    requires groups != [] && Grouped(groups, w, c) && c !in groups[|groups| - 1].1
    ensures Grouped(groups[..|groups| - 1], w, c)
  {
    var e :| e in groups && e.0 == w && c in e.1;
    assert groups == groups[..|groups| - 1] + [groups[|groups| - 1]];
  }

  lemma {:induction false} WeaponIsGrouped(groups: seq<(Weapon, seq<Cell>)>, c: Cell)
    ensures var w := WeaponAt(groups, c);
            if w.Some? then Grouped(groups, w.value, c) else forall v :: !Grouped(groups, v, c)
  {
    if groups != [] {
      var before, last := groups[..|groups| - 1], groups[|groups| - 1];
      assert groups == before + [last];
      if c in last.1 {
        assert last in groups;
      } else {
        WeaponIsGrouped(before, c);
        forall v | Grouped(groups, v, c) ensures Grouped(before, v, c) { GroupedBefore(groups, v, c); }
        if WeaponAt(before, c).Some? {
          var e :| e in before && e.0 == WeaponAt(before, c).value && c in e.1;
          assert e in groups;
        }
      }
    }
  }

  /** What is written of a drawing with a block can be loaded: all in range. */
  lemma WrittenIsWithin(d: Drawing, m: GameMap, b: Box)
    requires SavedAs(d, m, b) && (exists c :: IsBlock(d.grid, c))
    ensures WithinMap(Written(m)) && m.width > 0 && m.height > 0
  {
    var objects := Filter(m.objects);
    forall o, c | o in objects && c in o.positions ensures 0 <= c.x < m.width && 0 <= c.y < m.height {
      assert Covers(objects, o.kind, c);
      FilterCovers(m.objects, o.kind, c);
      assert Holds(d.grid, Cell(c.x + b.left, c.y + b.top), o.kind);
      assert IsBlock(d.grid, Cell(c.x + b.left, c.y + b.top));
    }
  }

  lemma BoxIsInGrid(g: Grid, b: Box, c: Cell)
    requires Wide(g) && Touched(g, b) && b.left <= c.x <= b.right && b.top <= c.y <= b.bottom
    ensures InGrid(g, c)
  {
    var top :| IsBlock(g, top) && top.y == b.top;
    var bottom :| IsBlock(g, bottom) && bottom.y == b.bottom;
    var left :| IsBlock(g, left) && left.x == b.left;
    var right :| IsBlock(g, right) && right.x == b.right;
  }

  lemma OneKind(g: Grid, objects: seq<MapObject>, dx: int, dy: int, c: Cell, there: Cell)
    requires Wide(g) && BlocksSaved(g, objects, dx, dy) && there == Cell(c.x + dx, c.y + dy) && InGrid(g, there)
    ensures KindAt(Filter(objects), c) == At(g, there)
  {
    var kind := KindAt(Filter(objects), c);
    KindIsCovered(Filter(objects), c);
    FilterCovers(objects, kind, c);
    FilterCovers(objects, At(g, there), c);
    assert Holds(g, there, At(g, there));
    if Covers(Filter(objects), kind, c) { assert Holds(g, there, kind); }
  }

  lemma CellReturns(d: Drawing, m: GameMap, b: Box, c: Cell, there: Cell)
    requires SavedAs(d, m, b) && 0 <= c.x < m.width && 0 <= c.y < m.height
    requires (exists e :: IsBlock(d.grid, e)) && there == Cell(c.x + b.left, c.y + b.top)
    ensures InGrid(d.grid, there) && KindAt(Filter(m.objects), c) == At(d.grid, there)
  {
    BoxIsInGrid(d.grid, b, there);
    OneKind(d.grid, m.objects, b.left, b.top, c, there);
  }

  lemma GunReturns(
    guns: map<Cell, Weapon>, groups: seq<(Weapon, seq<Cell>)>, dx: int, dy: int, c: Cell, there: Cell)
    requires GunsSaved(guns, groups, dx, dy) && there == Cell(c.x + dx, c.y + dy)
    ensures WeaponAt(groups, c) == GunOn(guns, there)
  {
    WeaponIsGrouped(groups, c);
    if there in guns { assert Grouped(groups, guns[there], c) <==> HasGun(guns, there, guns[there]); }
    if WeaponAt(groups, c).Some? {
      var v := WeaponAt(groups, c).value;
      assert Grouped(groups, v, c) <==> HasGun(guns, there, v);
    }
  }

  lemma GunsReturn(
    guns: map<Cell, Weapon>, groups: seq<(Weapon, seq<Cell>)>, dx: int, dy: int, guns': map<Cell, Weapon>)
    requires GunsSaved(guns, groups, dx, dy) && GunsLoaded(groups, guns')
    ensures GunsMoved(guns, guns', dx, dy)
  {
    forall c ensures GunOn(guns', c) == GunOn(guns, Cell(c.x + dx, c.y + dy)) {
      GunReturns(guns, groups, dx, dy, c, Cell(c.x + dx, c.y + dy));
    }
  }

  /** Saving a drawing that has a block, and loading what is written, gives exactly what is in
      the box around its blocks, everything moved alike, except that the terrorists' spawns are moved up
      by the wrong offset. */
  lemma SaveAndLoadCrops(d: Drawing, m: GameMap, b: Box, d': Drawing)
    requires SavedAs(d, m, b) && LoadedFrom(Written(m), d')
    requires exists c :: IsBlock(d.grid, c)
    ensures CroppedTo(d, d', b)
  {
    forall c | InGrid(d'.grid, c) ensures Holds(d.grid, Cell(c.x + b.left, c.y + b.top), At(d'.grid, c)) {
      assert d'.grid[c.y] in d'.grid;
      CellReturns(d, m, b, c, Cell(c.x + b.left, c.y + b.top));
    }
    GunsReturn(d.guns, m.guns, b.left, b.top, d'.guns);
  }

  lemma CroppedBlock(g: Grid, g': Grid, dx: int, dy: int, c: Cell, c': Cell)
    requires Wide(g) && Wide(g') && SameCells(g, g', dx, dy)
    requires IsBlock(g, c) && c == Cell(c'.x + dx, c'.y + dy) && InGrid(g', c')
    ensures IsBlock(g', c')
  {
    assert Holds(g, c, At(g', c'));
  }

  lemma TightBox(g: Grid, l: Cell, r: Cell, t: Cell, u: Cell, b: Box)
    requires |g| > 0 && Wide(g) && Bounds(g, |g[0]|, b)
    requires IsBlock(g, l) && IsBlock(g, r) && IsBlock(g, t) && IsBlock(g, u)
    requires l.x == 0 && r.x == |g[0]| - 1 && t.y == 0 && u.y == |g| - 1
    ensures b == Box(0, |g[0]| - 1, 0, |g| - 1)
  {}

  /** A side of the box, moved into the smaller grid. */
  lemma SideMoved(g: Grid, g': Grid, b: Box, c: Cell) returns (c': Cell)
    requires Wide(g) && Wide(g') && SameCells(g, g', b.left, b.top) && IsBlock(g, c)
    requires b.left <= c.x <= b.right && b.top <= c.y <= b.bottom
    requires |g'| == b.bottom - b.top + 1 && |g'[0]| == b.right - b.left + 1
    ensures c' == Cell(c.x - b.left, c.y - b.top) && IsBlock(g', c')
  {
    c' := Cell(c.x - b.left, c.y - b.top);
    CroppedBlock(g, g', b.left, b.top, c, c');
  }

  lemma SidesMoved(g: Grid, g': Grid, b: Box, b': Box)
    requires Wide(g) && Wide(g') && SameCells(g, g', b.left, b.top) && Touched(g, b)
    requires forall c :: IsBlock(g, c) ==> b.left <= c.x <= b.right && b.top <= c.y <= b.bottom
    requires b.bottom >= b.top && |g'| == b.bottom - b.top + 1 && |g'[0]| == b.right - b.left + 1
             && Bounds(g', |g'[0]|, b')
    ensures b' == Box(0, |g'[0]| - 1, 0, |g'| - 1)
  {
    var left :| IsBlock(g, left) && left.x == b.left;
    var right :| IsBlock(g, right) && right.x == b.right;
    var top :| IsBlock(g, top) && top.y == b.top;
    var bottom :| IsBlock(g, bottom) && bottom.y == b.bottom;
    var l := SideMoved(g, g', b, left);
    var r := SideMoved(g, g', b, right);
    var t := SideMoved(g, g', b, top);
    var u := SideMoved(g, g', b, bottom);
    TightBox(g', l, r, t, u, b');
  }

  /** What was saved and loaded has no empty border left: its box is the whole grid, so that to save and
      load it again moves nothing. */
  lemma CropIsTight(d: Drawing, d': Drawing, b: Box, b': Box)
    requires |d.grid| > 0 && CroppedTo(d, d', b) && Bounds(d.grid, |d.grid[0]|, b)
    requires (exists c :: IsBlock(d.grid, c)) && |d'.grid| > 0 && Bounds(d'.grid, |d'.grid[0]|, b')
    ensures b' == Box(0, |d'.grid[0]| - 1, 0, |d'.grid| - 1)
  {
    assert d'.grid[0] in d'.grid;
    SidesMoved(d.grid, d'.grid, b, b');
  }

  /** A finite set of cells is not a copy of itself at another height. */
  lemma ShiftedElsewhere(s: set<Cell>, dx: int, dy: int)
    requires s != {}
    ensures Shifted(s, dx, dx) == Shifted(s, dx, dy) <==> dx == dy
  {
    if dx != dy {
      var end := Extreme(s, if dx > dy then 1 else -1);
      assert Shift(end, dx, dx) in Shifted(s, dx, dx);
      assert Shift(end, dx, dx) !in Shifted(s, dx, dy);
    }
  }

  /** A cell that lies lowest, or highest. */
  lemma {:induction false} Extreme(s: set<Cell>, sign: int) returns (c: Cell)
    requires s != {} && (sign == 1 || sign == -1)
    ensures c in s && forall e <- s :: sign * c.y <= sign * e.y
  {
    c :| c in s;
    if s != {c} {
      var other := Extreme(s - {c}, sign);
      if sign * other.y < sign * c.y { c := other; }
    }
  }

  /** The terrorists' spawns land where everything else does if and only if the box is as far from the
      top as from the left. */
  lemma TtSpawnsAgreeIff(d: Drawing, d': Drawing, b: Box)
    requires CroppedTo(d, d', b) && d.tts != {}
    ensures d'.tts == Shifted(d.tts, b.left, b.top) <==> b.left == b.top
  {
    ShiftedElsewhere(d.tts, b.left, b.top);
  }

  /** A saved map has a positive size if and only if there is a block in the drawing. */
  lemma SizeIsPositiveIff(d: Drawing, m: GameMap, b: Box)
    requires SavedAs(d, m, b)
    ensures m.width > 0 && m.height > 0 <==> exists c :: IsBlock(d.grid, c)
  {
    if exists c :: IsBlock(d.grid, c) { WrittenIsWithin(d, m, b); }
  }

  // ---- The editor's object

  /** The block cells seen so far, and the corners they give. */
  ghost predicate Corners(seen: set<Cell>, width: int, height: int, b: Box) {
    if seen == {} then b == Box(width, 0, height, 0)
    else
      && (forall c <- seen :: b.left <= c.x <= b.right && b.top <= c.y <= b.bottom)
      && (exists c <- seen :: c.x == b.left) && (exists c <- seen :: c.x == b.right)
      && (exists c <- seen :: c.y == b.top) && (exists c <- seen :: c.y == b.bottom)
  }

  lemma CornersGrow(seen: set<Cell>, width: int, height: int, b: Box, c: Cell)
    requires Corners(seen, width, height, b) && 0 <= c.x < width && 0 <= c.y < height
    ensures Corners(seen + {c}, width, height,
            Box(Min(c.x, b.left), Max(c.x, b.right), Min(c.y, b.top), Max(c.y, b.bottom)))
  {
    var more := seen + {c};
    assert c in more;
    if seen != {} {
      var l :| l in seen && l.x == b.left;
      var r :| r in seen && r.x == b.right;
      var t :| t in seen && t.y == b.top;
      var u :| u in seen && u.y == b.bottom;
      assert l in more && r in more && t in more && u in more;
    }
  }

  /** The cells of a grid before column j of row i, row by row. */
  predicate Before(c: Cell, i: int, j: int) { c.y < i || (c.y == i && c.x < j) }

  /** `seen` are the blocks before column j of row i. */
  ghost predicate Seen(g: Grid, seen: set<Cell>, i: int, j: int)
    requires Wide(g)
  {
    forall c :: c in seen <==> IsBlock(g, c) && Before(c, i, j)
  }

  lemma SeenNext(g: Grid, seen: set<Cell>, i: nat, j: nat)
    requires Wide(g) && i < |g| && j < |g[0]| && Seen(g, seen, i, j)
    ensures Seen(g, if IsBlock(g, Cell(j, i)) then seen + {Cell(j, i)} else seen, i, j + 1)
  {
    forall c ensures Before(c, i, j + 1) <==> Before(c, i, j) || c == Cell(j, i) {}
  }

  lemma SeenRow(g: Grid, seen: set<Cell>, i: nat)
    requires Wide(g) && i < |g| && Seen(g, seen, i, |g[0]|)
    ensures Seen(g, seen, i + 1, 0)
  {}

  lemma SeenAll(g: Grid, seen: set<Cell>, b: Box)
    requires Wide(g) && |g| > 0 && Seen(g, seen, |g|, 0) && Corners(seen, |g[0]|, |g|, b)
    ensures Bounds(g, |g[0]|, b)
  {
    forall c ensures c in seen <==> IsBlock(g, c) {}
    if seen != {} {
      var l :| l in seen && l.x == b.left;
      var r :| r in seen && r.x == b.right;
      var t :| t in seen && t.y == b.top;
      var u :| u in seen && u.y == b.bottom;
      assert IsBlock(g, l) && IsBlock(g, r) && IsBlock(g, t) && IsBlock(g, u);
    }
  }

  lemma SomeOf<T>(s: set<T>) returns (x: T)
    requires s != {}
    ensures x in s
  {
    x :| x in s;
  }

  function Listed(positions: map<int, seq<Cell>>, kind: int): seq<Cell> {
    if kind in positions then positions[kind] else []
  }

  /** The positions collected are those of the cells before column j of row i. */
  ghost predicate Collected(g: Grid, positions: map<int, seq<Cell>>, dx: int, dy: int, i: int, j: int)
    requires Wide(g)
  {
    forall kind, c :: c in Listed(positions, kind) <==>
      Holds(g, Cell(c.x + dx, c.y + dy), kind) && Before(Cell(c.x + dx, c.y + dy), i, j)
  }

  lemma ListedNext(positions: map<int, seq<Cell>>, block: int, e: Cell, kind: int, c: Cell)
    ensures c in Listed(positions[block := Listed(positions, block) + [e]], kind) <==>
              c in Listed(positions, kind) || (kind == block && c == e)
  {}

  lemma CollectOne(g: Grid, i: nat, j: nat, block: int, there: Cell, kind: int)
    requires Wide(g) && i < |g| && j < |g[0]| && block == At(g, Cell(j, i))
    ensures Holds(g, there, kind) && Before(there, i, j + 1) <==>
              (Holds(g, there, kind) && Before(there, i, j)) || (kind == block && there == Cell(j, i))
  {}

  lemma CollectNext(g: Grid, positions: map<int, seq<Cell>>, dx: int, dy: int, i: nat, j: nat, block: int)
    requires Wide(g) && i < |g| && j < |g[0]| && Collected(g, positions, dx, dy, i, j) && block == At(g, Cell(j, i))
    ensures Collected(g, positions[block := Listed(positions, block) + [Cell(j - dx, i - dy)]], dx, dy, i, j + 1)
  {
    var more := positions[block := Listed(positions, block) + [Cell(j - dx, i - dy)]];
    forall kind, c
      ensures c in Listed(more, kind) <==>
                Holds(g, Cell(c.x + dx, c.y + dy), kind) && Before(Cell(c.x + dx, c.y + dy), i, j + 1)
    {
      ListedNext(positions, block, Cell(j - dx, i - dy), kind, c);
      CollectOne(g, i, j, block, Cell(c.x + dx, c.y + dy), kind);
    }
  }

  lemma CollectRow(g: Grid, positions: map<int, seq<Cell>>, dx: int, dy: int, i: nat)
    requires Wide(g) && i < |g| && Collected(g, positions, dx, dy, i, |g[0]|)
    ensures Collected(g, positions, dx, dy, i + 1, 0)
  {
    forall kind, c ensures c in Listed(positions, kind) <==>
      Holds(g, Cell(c.x + dx, c.y + dy), kind) && Before(Cell(c.x + dx, c.y + dy), i + 1, 0) {}
  }

  lemma CollectAll(g: Grid, positions: map<int, seq<Cell>>, dx: int, dy: int, blocks: seq<MapObject>)
    requires Wide(g) && Collected(g, positions, dx, dy, |g|, 0)
    requires forall kind, c :: Covers(blocks, kind, c) <==> c in Listed(positions, kind)
    ensures BlocksSaved(g, blocks, dx, dy)
  {
    forall kind, c ensures Covers(blocks, kind, c) <==> Holds(g, Cell(c.x + dx, c.y + dy), kind) {
      HeldIsBefore(g, Cell(c.x + dx, c.y + dy), kind);
      assert c in Listed(positions, kind) <==>
        Holds(g, Cell(c.x + dx, c.y + dy), kind) && Before(Cell(c.x + dx, c.y + dy), |g|, 0);
    }
  }

  lemma HeldIsBefore(g: Grid, c: Cell, kind: int)
    requires Wide(g)
    ensures Holds(g, c, kind) ==> Before(c, |g|, 0)
  {}

  lemma AnotherObject(objects: seq<MapObject>, o: MapObject)
    ensures forall kind, c ::
              Covers(objects + [o], kind, c) <==> Covers(objects, kind, c) || (kind == o.kind && c in o.positions)
  {
    forall kind, c
      ensures Covers(objects + [o], kind, c) <==> Covers(objects, kind, c) || (kind == o.kind && c in o.positions)
    {
      assert o in objects + [o];
      if Covers(objects, kind, c) {
        var e :| e in objects && e.kind == kind && c in e.positions;
        assert e in objects + [o];
      }
    }
  }

  lemma OneMoreShifted(cells: set<Cell>, left: set<Cell>, c: Cell, vec: seq<Cell>, dx: int, dy: int)
    requires c in left && left <= cells && SetOf(vec) == Shifted(cells - left, dx, dy)
    ensures SetOf(vec + [Shift(c, dx, dy)]) == Shifted(cells - (left - {c}), dx, dy)
  {
    assert cells - (left - {c}) == (cells - left) + {c};
    assert Shifted((cells - left) + {c}, dx, dy) == Shifted(cells - left, dx, dy) + {Shift(c, dx, dy)};
    assert SetOf(vec + [Shift(c, dx, dy)]) == SetOf(vec) + {Shift(c, dx, dy)};
  }

  const WEAPONS: seq<Weapon> := [None, Some(Glock), Some(Ak47), Some(M3), Some(Awp)]

  function Held(positions: map<Weapon, seq<Cell>>, w: Weapon): seq<Cell> {
    if w in positions then positions[w] else []
  }

  /** The positions collected are those of the guns that are not left. */
  ghost predicate GunsCollected(
    guns: map<Cell, Weapon>, positions: map<Weapon, seq<Cell>>, left: set<Cell>, dx: int, dy: int) {
    forall w, c :: c in Held(positions, w) <==>
      HasGun(guns, Cell(c.x + dx, c.y + dy), w) && Cell(c.x + dx, c.y + dy) !in left
  }

  lemma GunsNext(guns: map<Cell, Weapon>, positions: map<Weapon, seq<Cell>>, left: set<Cell>, dx: int, dy: int, c: Cell)
    requires c in left && left <= guns.Keys && GunsCollected(guns, positions, left, dx, dy)
    ensures GunsCollected(guns, positions[guns[c] := Held(positions, guns[c]) + [Shift(c, dx, dy)]], left - {c}, dx, dy)
  {
    var more := positions[guns[c] := Held(positions, guns[c]) + [Shift(c, dx, dy)]];
    forall w, e
      ensures e in Held(more, w) <==>
                HasGun(guns, Cell(e.x + dx, e.y + dy), w) && Cell(e.x + dx, e.y + dy) !in left - {c}
    {
      assert e in Held(more, w) <==> e in Held(positions, w) || (w == guns[c] && e == Shift(c, dx, dy));
      assert Cell(e.x + dx, e.y + dy) == c <==> e == Shift(c, dx, dy);
    }
  }

  lemma AnotherGroup(groups: seq<(Weapon, seq<Cell>)>, g: (Weapon, seq<Cell>))
    ensures forall w, c :: Grouped(groups + [g], w, c) <==> Grouped(groups, w, c) || (w == g.0 && c in g.1)
  {
    forall w, c ensures Grouped(groups + [g], w, c) <==> Grouped(groups, w, c) || (w == g.0 && c in g.1) {
      assert g in groups + [g];
      if Grouped(groups, w, c) {
        var e :| e in groups && e.0 == w && c in e.1;
        assert e in groups + [g];
      }
    }
  }

  lemma GunsAll(
    guns: map<Cell, Weapon>, positions: map<Weapon, seq<Cell>>, groups: seq<(Weapon, seq<Cell>)>, dx: int, dy: int)
    requires GunsCollected(guns, positions, {}, dx, dy)
    requires forall w, c :: Grouped(groups, w, c) <==> w in WEAPONS && c in Held(positions, w)
    ensures GunsSaved(guns, groups, dx, dy)
  {
    forall w, c ensures Grouped(groups, w, c) <==> HasGun(guns, Cell(c.x + dx, c.y + dy), w) {
      AllWeapons(w);
    }
  }

  lemma AllWeapons(w: Weapon)
    ensures w in WEAPONS
  {
    match w
    case None => assert WEAPONS[0] == w;
    case Some(kind) =>
      match kind
      case Glock => assert WEAPONS[1] == w;
      case Ak47 => assert WEAPONS[2] == w;
      case M3 => assert WEAPONS[3] == w;
      case Awp => assert WEAPONS[4] == w;
  }

  function Blank(n: nat): seq<int> { seq(n, _ => NONE_BLOCK) }

  function BlankRows(n: nat, width: nat): Grid { seq(n, _ => Blank(width)) }

  /** What resizing does to a row: cut, or filled up with empty cells. */
  function Resized(row: seq<int>, n: nat): (r: seq<int>)
    ensures |r| == n
  {
    if |row| >= n then row[..n] else row + Blank(n - |row|)
  }

  /** The grid shows these objects. */
  ghost predicate Shows(g: Grid, m: GameMap, objects: seq<MapObject>) {
    && m.height >= 0 && m.width >= 0 && |g| == m.height && (forall row <- g :: |row| == m.width)
    && forall x, y :: 0 <= y < |g| && 0 <= x < m.width ==> g[y][x] == KindAt(objects, Cell(x, y))
  }

  lemma NothingShown(g: Grid, m: GameMap)
    requires m.width >= 0 && m.height >= 0 && g == BlankRows(m.height, m.width)
    ensures Shows(g, m, [])
  {}

  lemma BeginObject(g: Grid, m: GameMap, objects: seq<MapObject>, kind: int)
    requires Shows(g, m, objects)
    ensures Shows(g, m, objects + [MapObject([], kind)])
  {
    var more := objects + [MapObject([], kind)];
    assert more[..|more| - 1] == objects;
  }

  lemma OneWritten(g: Grid, m: GameMap, objects: seq<MapObject>, done: seq<Cell>, v: Cell, kind: int)
    requires Shows(g, m, objects + [MapObject(done, kind)]) && 0 <= v.x < m.width && 0 <= v.y < m.height
    ensures |g[v.y]| == m.width
    ensures Shows(g[v.y := g[v.y][v.x := kind]], m, objects + [MapObject(done + [v], kind)])
  {
    var was, more := objects + [MapObject(done, kind)], objects + [MapObject(done + [v], kind)];
    assert was[..|was| - 1] == objects && more[..|more| - 1] == objects;
    assert g[v.y] in g;
    var g' := g[v.y := g[v.y][v.x := kind]];
    forall x, y | 0 <= y < |g'| && 0 <= x < m.width ensures g'[y][x] == KindAt(more, Cell(x, y)) {
      assert g[y] in g && g[y][x] == KindAt(was, Cell(x, y));
    }
  }

  lemma ShownAtCells(g: Grid, m: GameMap, c: Cell)
    requires Shows(g, m, m.objects)
    ensures Wide(g) && (InGrid(g, c) ==> At(g, c) == KindAt(m.objects, c))
  {
    if InGrid(g, c) { assert g[0] in g && g[c.y] in g; }
  }

  lemma BeginGroup(guns: map<Cell, Weapon>, groups: seq<(Weapon, seq<Cell>)>, w: Weapon)
    requires GunsLoaded(groups, guns)
    ensures GunsLoaded(groups + [(w, [])], guns)
  {
    var more := groups + [(w, [])];
    assert more[..|more| - 1] == groups;
  }

  lemma OneGunWritten(guns: map<Cell, Weapon>, groups: seq<(Weapon, seq<Cell>)>, w: Weapon, done: seq<Cell>, v: Cell)
    requires GunsLoaded(groups + [(w, done)], guns)
    ensures GunsLoaded(groups + [(w, done + [v])], guns[v := w])
  {
    var was, more := groups + [(w, done)], groups + [(w, done + [v])];
    assert was[..|was| - 1] == groups && more[..|more| - 1] == groups;
    forall c ensures GunOn(guns[v := w], c) == WeaponAt(more, c) { assert GunOn(guns, c) == WeaponAt(was, c); }
  }

  predicate IsMarked(d: Drawing, c: Cell) { c in d.cts || c in d.tts || c in d.sites || c in d.guns }

  lemma CellSet(g: Grid, row: nat, column: nat, block: int, g': Grid)
    requires Wide(g) && InGrid(g, Cell(column, row)) && |g[row]| > column && g' == g[row := g[row][column := block]]
    ensures Wide(g') && |g'| == |g| && |g'[0]| == |g[0]|
    ensures forall c :: InGrid(g', c) ==> At(g', c) == if c == Cell(column, row) then block else At(g, c)
  {
    forall k | 0 <= k < |g'| ensures |g'[k]| == |g[k]| >= |g[0]| { assert g[k] in g; }
  }

  class LogicMap {
    const collidable: int -> bool
    var grid: Grid
    var selectedBlock: int
    var selectedBackground: int
    var selectedGun: Weapon
    var ttSpawns: set<Cell>
    var ctSpawns: set<Cell>
    var bombSites: set<Cell>
    var guns: map<Cell, Weapon>

    constructor (collidable: int -> bool)
      ensures View() == Drawing([], 0, {}, {}, {}, map[])
    {
      this.collidable := collidable;
      grid, selectedBlock, selectedBackground, selectedGun := [], NONE_BLOCK, 0, None;
      ttSpawns, ctSpawns, bombSites, guns := {}, {}, {}, map[];
    }

    function View(): Drawing
      reads this
    {
      Drawing(grid, selectedBackground, ttSpawns, ctSpawns, bombSites, guns)
    }

    /** The corners that createMap computes first. */
    method FindBox() returns (b: Box)
      requires |grid| > 0 && Wide(grid)
      ensures Bounds(grid, |grid[0]|, b)
    {
      var height, width := |grid|, |grid[0]|;
      b := Box(width, 0, height, 0);
      ghost var seen: set<Cell> := {};
      var i := 0;
      while i < height
        invariant i <= height && Corners(seen, width, height, b) && Seen(grid, seen, i, 0)
      {
        var j := 0;
        while j < width
          invariant j <= width && Corners(seen, width, height, b) && Seen(grid, seen, i, j)
        {
          SeenNext(grid, seen, i, j);
          if grid[i][j] != NONE_BLOCK {
            CornersGrow(seen, width, height, b, Cell(j, i));
            b := Box(Min(j, b.left), Max(j, b.right), Min(i, b.top), Max(i, b.bottom));
            seen := seen + {Cell(j, i)};
          }
          j := j + 1;
        }
        SeenRow(grid, seen, i);
        i := i + 1;
      }
      SeenAll(grid, seen, b);
    }

    /** load_blocks: the cells by kind, in row order, moved by the offsets. */
    method LoadBlocks(dx: int, dy: int) returns (blocks: seq<MapObject>)
      requires |grid| > 0 && Wide(grid)
      ensures BlocksSaved(grid, blocks, dx, dy)
    {
      var positions: map<int, seq<Cell>> := map[];
      var height, width := |grid|, |grid[0]|;
      var i := 0;
      while i < height
        invariant i <= height && Collected(grid, positions, dx, dy, i, 0)
      {
        var j := 0;
        while j < width
          invariant j <= width && Collected(grid, positions, dx, dy, i, j)
        {
          var block := At(grid, Cell(j, i));
          CollectNext(grid, positions, dx, dy, i, j, block);
          positions := positions[block := Listed(positions, block) + [Cell(j - dx, i - dy)]];
          j := j + 1;
        }
        CollectRow(grid, positions, dx, dy, i);
        i := i + 1;
      }
      blocks := [];
      var kinds := positions.Keys;
      while kinds != {}
        invariant kinds <= positions.Keys
        invariant forall kind, c :: Covers(blocks, kind, c) <==> kind !in kinds && c in Listed(positions, kind)
        decreases kinds
      {
        ghost var some := SomeOf(kinds);
        var kind :| kind in kinds;
        AnotherObject(blocks, MapObject(positions[kind], kind));
        blocks := blocks + [MapObject(positions[kind], kind)];
        kinds := kinds - {kind};
      }
      CollectAll(grid, positions, dx, dy, blocks);
    }

    /** set_to_vector. */
    static method SetToVector(cells: set<Cell>, dx: int, dy: int) returns (vec: seq<Cell>)
      ensures SetOf(vec) == Shifted(cells, dx, dy) && |vec| == |cells|
    {
      vec := [];
      var left := cells;
      while left != {}
        invariant left <= cells && |vec| + |left| == |cells|
        invariant SetOf(vec) == Shifted(cells - left, dx, dy)
        decreases left
      {
        ghost var some := SomeOf(left);
        var c :| c in left;
        OneMoreShifted(cells, left, c, vec, dx, dy);
        vec := vec + [Shift(c, dx, dy)];
        left := left - {c};
      }
      assert cells - left == cells;
    }

    /** save_guns, in the order of the weapons' codes. */
    method SaveGuns(dx: int, dy: int) returns (groups: seq<(Weapon, seq<Cell>)>)
      ensures GunsSaved(guns, groups, dx, dy)
    {
      var positions: map<Weapon, seq<Cell>> := map[];
      var left := guns.Keys;
      while left != {}
        invariant left <= guns.Keys
        invariant GunsCollected(guns, positions, left, dx, dy)
        decreases left
      {
        ghost var some := SomeOf(left);
        var c :| c in left;
        GunsNext(guns, positions, left, dx, dy, c);
        positions := positions[guns[c] := Held(positions, guns[c]) + [Shift(c, dx, dy)]];
        left := left - {c};
      }
      groups := [];
      var i := 0;
      while i < |WEAPONS|
        invariant i <= |WEAPONS|
        invariant forall w, c :: Grouped(groups, w, c) <==> w in WEAPONS[..i] && c in Held(positions, w)
      {
        if WEAPONS[i] in positions {
          AnotherGroup(groups, (WEAPONS[i], positions[WEAPONS[i]]));
          groups := groups + [(WEAPONS[i], positions[WEAPONS[i]])];
        }
        assert WEAPONS[..i + 1] == WEAPONS[..i] + [WEAPONS[i]];
        i := i + 1;
      }
      GunsAll(guns, positions, groups, dx, dy);
    }

    /** createMap: the map, unless there are too few spawns or sites. */
    method CreateMap() returns (r: Saved, ghost b: Box)
      requires |grid| > 0 && Wide(grid)
      ensures r == Refused(FewCtSpawns) <==> |ctSpawns| < MIN_SIZE_SPAWNS
      ensures r == Refused(FewTtSpawns) <==> |ctSpawns| >= MIN_SIZE_SPAWNS && |ttSpawns| < MIN_SIZE_SPAWNS
      ensures r == Refused(FewSites) <==>
                |ctSpawns| >= MIN_SIZE_SPAWNS && |ttSpawns| >= MIN_SIZE_SPAWNS && bombSites == {}
      ensures r.Map? ==> SavedAs(View(), r.value, b)
    {
      var box := FindBox();
      b := box;
      var blocks := LoadBlocks(box.left, box.top);
      var groups := SaveGuns(box.left, box.top);
      var cts := SetToVector(ctSpawns, box.left, box.top);
      if |cts| < MIN_SIZE_SPAWNS { return Refused(FewCtSpawns), b; }
      var tts := SetToVector(ttSpawns, box.left, box.left);
      if |tts| < MIN_SIZE_SPAWNS { return Refused(FewTtSpawns), b; }
      var sites := SetToVector(bombSites, box.left, box.top);
      if |bombSites| < MIN_SIZE_SITES { return Refused(FewSites), b; }
      r := Map(GameMap(box.right - box.left + 1, box.bottom - box.top + 1, selectedBackground,
                       blocks, cts, tts, SetOf(sites), groups));
    }

    method ClearGrid()
      modifies this`grid
      ensures |grid| == DEFAULT_ROWS && forall row <- grid :: row == Blank(DEFAULT_COLUMNS)
    {
      grid := [];
      var i := 0;
      while i < DEFAULT_ROWS
        invariant i <= DEFAULT_ROWS && |grid| == i && forall row <- grid :: row == Blank(DEFAULT_COLUMNS)
      {
        var row := [];
        var j := 0;
        while j < DEFAULT_COLUMNS
          invariant j <= DEFAULT_COLUMNS && row == Blank(j)
        {
          row := row + [NONE_BLOCK];
          j := j + 1;
        }
        grid := grid + [row];
        i := i + 1;
      }
    }

    method ClearMap()
      modifies this
      ensures View() == Drawing(grid, 0, {}, {}, {}, map[])
      ensures |grid| == DEFAULT_ROWS && forall row <- grid :: row == Blank(DEFAULT_COLUMNS)
    {
      ClearGrid();
      ttSpawns, ctSpawns, bombSites, guns, selectedBackground := {}, {}, {}, map[], 0;
    }

    /** loadMap. */
    method LoadMap(m: GameMap)
      requires WithinMap(m)
      modifies this
      ensures LoadedFrom(m, View())
    {
      ClearMap();
      ResizeGrid(m.width, m.height);
      selectedBackground := m.background;
      WriteBlocks(m);
      ctSpawns, ttSpawns, bombSites := SetOf(m.ctSpawns), SetOf(m.ttSpawns), m.sites;
      WriteGuns(m.guns);
    }

    method ResizeGrid(width: nat, height: nat)
      requires forall row <- grid :: row == Blank(|row|)
      modifies this`grid
      ensures grid == BlankRows(height, width)
    {
      grid := if |grid| < height then grid + seq(height - |grid|, _ => []) else grid[..height];
      var i := 0;
      while i < |grid|
        invariant i <= |grid| == height
        invariant forall k :: 0 <= k < i ==> grid[k] == Blank(width)
        invariant forall k :: i <= k < |grid| ==> grid[k] == Blank(|grid[k]|)
      {
        grid := grid[i := Resized(grid[i], width)];
        i := i + 1;
      }
    }

    /** The inner loop of loadMap over the blocks. */
    method WriteObject(m: GameMap, i: nat)
      requires i < |m.objects| && WithinMap(m) && Shows(grid, m, m.objects[..i])
      modifies this`grid
      ensures Shows(grid, m, m.objects[..i + 1])
    {
      var ob := m.objects[i];
      var j := 0;
      BeginObject(grid, m, m.objects[..i], ob.kind);
      while j < |ob.positions|
        invariant j <= |ob.positions|
        invariant Shows(grid, m, m.objects[..i] + [MapObject(ob.positions[..j], ob.kind)])
      {
        var v := ob.positions[j];
        assert v in ob.positions && ob in m.objects;
        OneWritten(grid, m, m.objects[..i], ob.positions[..j], v, ob.kind);
        assert ob.positions[..j + 1] == ob.positions[..j] + [v];
        grid := grid[v.y := grid[v.y][v.x := ob.kind]];
        j := j + 1;
      }
      assert ob.positions[..j] == ob.positions;
      assert m.objects[..i] + [ob] == m.objects[..i + 1];
    }

    method WriteBlocks(m: GameMap)
      requires WithinMap(m) && grid == BlankRows(m.height, m.width)
      modifies this`grid
      ensures |grid| == m.height && (forall row <- grid :: |row| == m.width) && Wide(grid)
      ensures forall c :: InGrid(grid, c) ==> At(grid, c) == KindAt(m.objects, c)
    {
      var i := 0;
      NothingShown(grid, m);
      while i < |m.objects|
        invariant i <= |m.objects| && Shows(grid, m, m.objects[..i])
      {
        WriteObject(m, i);
        i := i + 1;
      }
      assert m.objects[..i] == m.objects;
      forall c { ShownAtCells(grid, m, c); }
    }

    method WriteGuns(groups: seq<(Weapon, seq<Cell>)>)
      requires guns == map[]
      modifies this`guns
      ensures GunsLoaded(groups, guns)
    {
      var i := 0;
      while i < |groups|
        invariant i <= |groups| && GunsLoaded(groups[..i], guns)
      {
        var (w, cells) := groups[i];
        var j := 0;
        BeginGroup(guns, groups[..i], w);
        while j < |cells|
          invariant j <= |cells| && GunsLoaded(groups[..i] + [(w, cells[..j])], guns)
        {
          OneGunWritten(guns, groups[..i], w, cells[..j], cells[j]);
          assert cells[..j + 1] == cells[..j] + [cells[j]];
          guns := guns[cells[j] := w];
          j := j + 1;
        }
        assert cells[..j] == cells && groups[..i] + [groups[i]] == groups[..i + 1];
        i := i + 1;
      }
      assert groups[..i] == groups;
    }

    // ---- Drawing

    /** Spawns, sites and guns are on cells of the grid that can be walked on. */
    ghost predicate MarkersAreFree()
      reads this
    {
      Wide(grid) && forall c :: IsMarked(View(), c) ==> InGrid(grid, c) && !collidable(At(grid, c))
    }

    method SetBlock(row: nat, column: nat, toDelete: bool)
      requires Wide(grid) && InGrid(grid, Cell(column, row))
      modifies this
      ensures Wide(grid) && |grid| == |old(grid)| && |grid[0]| == |old(grid[0])|
      ensures forall c :: InGrid(grid, c) ==>
                At(grid, c) == if c != Cell(column, row) then At(old(grid), c)
                               else if toDelete then NONE_BLOCK else old(selectedBlock)
      ensures var block := if toDelete then NONE_BLOCK else old(selectedBlock);
              var gone := if collidable(block) then {Cell(column, row)} else {};
              && ctSpawns == old(ctSpawns) - gone && ttSpawns == old(ttSpawns) - gone
              && bombSites == old(bombSites) - gone && guns == old(guns) - gone
      ensures old(MarkersAreFree()) ==> MarkersAreFree()
    {
      var block := if toDelete then NONE_BLOCK else selectedBlock;
      ghost var before := grid;
      grid := grid[row := grid[row][column := block]];
      CellSet(before, row, column, block, grid);
      if collidable(block) {
        ctSpawns := ctSpawns - {Cell(column, row)};
        ttSpawns := ttSpawns - {Cell(column, row)};
        bombSites := bombSites - {Cell(column, row)};
        guns := guns - {Cell(column, row)};
      }
      if old(MarkersAreFree()) {
        forall c | IsMarked(View(), c) ensures InGrid(grid, c) && !collidable(At(grid, c)) {
          assert IsMarked(old(View()), c);
        }
      }
    }

    /** A marker is put on a cell that can be walked on, and on no other. */
    method SetCtSpawn(row: nat, column: nat, toDelete: bool)
      requires Wide(grid) && InGrid(grid, Cell(column, row))
      modifies this`ctSpawns
      ensures ctSpawns == if toDelete then old(ctSpawns) - {Cell(column, row)}
                          else if collidable(At(grid, Cell(column, row))) then old(ctSpawns)
                          else old(ctSpawns) + {Cell(column, row)}
      ensures old(MarkersAreFree()) ==> MarkersAreFree()
    {
      if toDelete {
        ctSpawns := ctSpawns - {Cell(column, row)};
      } else if !collidable(At(grid, Cell(column, row))) {
        ctSpawns := ctSpawns + {Cell(column, row)};
      }
    }

    method SetTtSpawn(row: nat, column: nat, toDelete: bool)
      requires Wide(grid) && InGrid(grid, Cell(column, row))
      modifies this`ttSpawns
      ensures ttSpawns == if toDelete then old(ttSpawns) - {Cell(column, row)}
                          else if collidable(At(grid, Cell(column, row))) then old(ttSpawns)
                          else old(ttSpawns) + {Cell(column, row)}
      ensures old(MarkersAreFree()) ==> MarkersAreFree()
    {
      if toDelete {
        ttSpawns := ttSpawns - {Cell(column, row)};
      } else if !collidable(At(grid, Cell(column, row))) {
        ttSpawns := ttSpawns + {Cell(column, row)};
      }
    }

    method SetBombSite(row: nat, column: nat, toDelete: bool)
      requires Wide(grid) && InGrid(grid, Cell(column, row))
      modifies this`bombSites
      ensures bombSites == if toDelete then old(bombSites) - {Cell(column, row)}
                           else if collidable(At(grid, Cell(column, row))) then old(bombSites)
                           else old(bombSites) + {Cell(column, row)}
      ensures old(MarkersAreFree()) ==> MarkersAreFree()
    {
      if toDelete {
        bombSites := bombSites - {Cell(column, row)};
      } else if !collidable(At(grid, Cell(column, row))) {
        bombSites := bombSites + {Cell(column, row)};
      }
    }

    method SetGun(row: nat, column: nat, toDelete: bool)
      requires Wide(grid) && InGrid(grid, Cell(column, row))
      modifies this`guns
      ensures guns == if toDelete then old(guns) - {Cell(column, row)}
                      else if collidable(At(grid, Cell(column, row))) then old(guns)
                      else old(guns)[Cell(column, row) := selectedGun]
      ensures old(MarkersAreFree()) ==> MarkersAreFree()
    {
      if toDelete {
        guns := guns - {Cell(column, row)};
      } else if !collidable(At(grid, Cell(column, row))) {
        guns := guns[Cell(column, row) := selectedGun];
      }
    }

    // ---- Growing

    method AddRows()
      requires |grid| > 0
      modifies this`grid
      ensures |old(grid)| > 0 && grid == old(grid) + BlankRows(ROWS_TO_ADD, |old(grid)[0]|)
      ensures Rectangular(grid) <==> Rectangular(old(grid))
    {
      grid := grid + BlankRows(ROWS_TO_ADD, |grid[0]|);
      assert grid[..|old(grid)|] == old(grid);
    }

    /** The width is read again for every row, after the first has grown. */
    method AddColumns()
      requires |grid| > 0
      modifies this`grid
      ensures |grid| == |old(grid)|
      ensures grid[0] == Resized(old(grid)[0], |old(grid)[0]| + COLUMNS_TO_ADD)
      ensures forall i :: 0 < i < |grid| ==> grid[i] == Resized(old(grid)[i], |old(grid)[0]| + 2 * COLUMNS_TO_ADD)
      ensures Rectangular(grid) <==> |grid| == 1
    {
      var i := 0;
      while i < |grid|
        invariant i <= |grid| == |old(grid)|
        invariant i > 0 ==> grid[0] == Resized(old(grid)[0], |old(grid)[0]| + COLUMNS_TO_ADD)
        invariant forall k :: 0 < k < i ==> grid[k] == Resized(old(grid)[k], |old(grid)[0]| + 2 * COLUMNS_TO_ADD)
        invariant forall k :: i <= k < |grid| ==> grid[k] == old(grid)[k]
      {
        grid := grid[i := Resized(grid[i], |grid[0]| + COLUMNS_TO_ADD)];
        i := i + 1;
      }
      if |grid| > 1 { assert grid[1] in grid; }
    }
  }
}
