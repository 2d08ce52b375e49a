/** The cell grid of RatGrinder/ratgrinder_fight/utils.py: `MapCell` objects
    in a dictionary keyed by position, changed in place by `set_cell`. */
module DabaGrid {
  import opened Text

  /** A field value inside an item dict. */
  datatype Scalar = SText(s: string) | SInt(i: int)

  /** An item in a cell: a plain name, or a dict such as `{"name": "金币", "amount": 100}`. */
  datatype Item = ItemName(name: string) | ItemFields(fields: map<string, Scalar>)

  /** What a cell holds, as a value. */
  datatype CellView = CellView(x: int, y: int, cellType: string, items: seq<Item>, container: Option<string>)

  /** The default cell type. */
  const OpenGround := "空地"

  /** `items if items is not None else []` */
  function ItemsOrEmpty(items: Option<seq<Item>>): seq<Item> {
    match items
    case Some(l) => l
    case None => []
  }

  /** A cell as `MapCell(x, y)` creates it. */
  function FreshCell(x: int, y: int): CellView {
    CellView(x, y, OpenGround, [], None)
  }

  // ---------------------------------------------------------------------------
  // Cell dictionaries
  // ---------------------------------------------------------------------------

  /** A value of the dict that `MapCell.to_dict` returns. */
  datatype Field = FInt(i: int) | FText(s: string) | FNone | FItems(items: seq<Item>)

  function ContainerField(c: Option<string>): Field {
    match c
    case Some(s) => FText(s)
    case None => FNone
  }

  /** `MapCell.to_dict()` of a cell with these contents. */
  function CellDict(v: CellView): map<string, Field> {
    map["x" := FInt(v.x), "y" := FInt(v.y), "cell_type" := FText(v.cellType),
        "container" := ContainerField(v.container), "items" := FItems(v.items)]
  }

  /** Reads a cell back from its dict; `None` for a dict of another shape. */
  function CellOfDict(d: map<string, Field>): Option<CellView> {
    if "x" in d && d["x"].FInt? && "y" in d && d["y"].FInt? && "cell_type" in d && d["cell_type"].FText?
       && "items" in d && d["items"].FItems? && "container" in d && (d["container"].FText? || d["container"].FNone?)
    then
      var container := if d["container"].FText? then Some(d["container"].s) else None;
      Some(CellView(d["x"].i, d["y"].i, d["cell_type"].s, d["items"].items, container))
    else None
  }

  /** A cell's dict has exactly the five keys, and gives the cell back. */
  lemma CellDictRoundTrip(v: CellView)
    ensures CellDict(v).Keys == {"x", "y", "cell_type", "container", "items"}
    ensures CellOfDict(CellDict(v)) == Some(v)
  {
    var d := CellDict(v);
    assert d["x"] == FInt(v.x) && d["y"] == FInt(v.y) && d["cell_type"] == FText(v.cellType);
    assert d["container"] == ContainerField(v.container) && d["items"] == FItems(v.items);
  }

  // ---------------------------------------------------------------------------
  // The grid as a value
  // ---------------------------------------------------------------------------

  predicate InBounds(width: int, height: int, k: (int, int)) {
    0 <= k.0 < width && 0 <= k.1 < height
  }

  /** Cells keyed by position: exactly the positions inside the grid, each cell at its own key. */
  ghost predicate WellFormed(width: int, height: int, cells: map<(int, int), CellView>) {
    (forall k :: k in cells <==> InBounds(width, height, k))
    && (forall k :: k in cells ==> cells[k].x == k.0 && cells[k].y == k.1)
  }

  /** The positions `range(width)` times `range(height)` produce. */
  function Positions(width: int, height: int): set<(int, int)> {
    set x, y | 0 <= x < width && 0 <= y < height :: (x, y)
  }

  /** The grid `DabaMap(width, height)` builds. */
  function FreshGrid(width: int, height: int): (cells: map<(int, int), CellView>)
    ensures WellFormed(width, height, cells)
    ensures forall k :: k in cells ==> cells[k] == FreshCell(k.0, k.1)
  {
    map k | k in Positions(width, height) :: FreshCell(k.0, k.1)
  }

  /** `set_cell(x, y, cell_type, items, container)` on the grid's contents. */
  function SetCellView(width: int, height: int, cells: map<(int, int), CellView>, x: int, y: int,
                       cellType: string, items: Option<seq<Item>>, container: Option<string>)
    : (r: map<(int, int), CellView>)
    requires WellFormed(width, height, cells)
    ensures WellFormed(width, height, r)
    ensures forall k :: k in cells && k != (x, y) ==> r[k] == cells[k]
    ensures InBounds(width, height, (x, y)) ==>
      r[(x, y)] == CellView(x, y, cellType, ItemsOrEmpty(items), container)
    ensures !InBounds(width, height, (x, y)) ==> r == cells
  {
    if InBounds(width, height, (x, y)) then
      cells[(x, y) := cells[(x, y)].(cellType := cellType, items := ItemsOrEmpty(items), container := container)]
    else cells
  }

  /** Absent items and container clear what the cell held before. */
  lemma SetCellClears(width: int, height: int, cells: map<(int, int), CellView>, x: int, y: int, cellType: string)
    requires WellFormed(width, height, cells) && InBounds(width, height, (x, y))
    ensures var c := SetCellView(width, height, cells, x, y, cellType, None, None)[(x, y)];
      c.items == [] && c.container == None && c.cellType == cellType
  {
  }

  // ---------------------------------------------------------------------------
  // Insertion order
  // ---------------------------------------------------------------------------

  /** The positions of column `x`, in the order of the inner loop. */
  function Column(x: int, height: int): (ks: seq<(int, int)>)
    ensures |ks| == if height < 0 then 0 else height
    ensures forall i :: 0 <= i < |ks| ==> ks[i] == (x, i)
  {
    seq(if height < 0 then 0 else height, y => (x, y))
  }

  lemma ColumnSnoc(x: int, y: nat)
    ensures Column(x, y + 1) == Column(x, y) + [(x, y)]
  {
  }

  /** The positions in the order the two loops of `DabaMap.__init__` insert them. */
  function KeyOrder(width: int, height: int): seq<(int, int)>
    decreases width
  {
    if width <= 0 then [] else KeyOrder(width - 1, height) + Column(width - 1, height)
  }

  function Nat(n: int): nat {
    if n < 0 then 0 else n
  }

  /** Every position appears once in the insertion order, and nothing else does. */
  lemma {:induction false} KeyOrderExact(width: int, height: int)
    ensures |KeyOrder(width, height)| == Nat(width) * Nat(height)
    ensures forall k :: k in KeyOrder(width, height) <==> InBounds(width, height, k)
    ensures forall i, j :: 0 <= i < j < |KeyOrder(width, height)| ==> KeyOrder(width, height)[i] != KeyOrder(width, height)[j]
    decreases width
  {
    if width > 0 {
      KeyOrderExact(width - 1, height);
      var before, col := KeyOrder(width - 1, height), Column(width - 1, height);
      assert KeyOrder(width, height) == before + col;
      assert Nat(width) * Nat(height) == Nat(width - 1) * Nat(height) + Nat(height);
      forall k
        ensures k in before + col <==> InBounds(width, height, k)
      {
        if k.0 == width - 1 && 0 <= k.1 < height {
          assert col[k.1] == k;
        }
      }
      forall i, j | 0 <= i < j < |before + col|
        ensures (before + col)[i] != (before + col)[j]
      {
        if i < |before| && j >= |before| {
          assert (before + col)[i] in before;
        }
      }
    }
  }

  /** Distinct elements: the set of a sequence has its length as size. */
  lemma {:induction false} DistinctSize<T>(s: seq<T>)
    requires forall i, j :: 0 <= i < j < |s| ==> s[i] != s[j]
    ensures |set k | k in s| == |s|
    decreases |s|
  {
    if s != [] {
      var rest := s[1..];
      DistinctSize(rest);
      assert (set k | k in s) == (set k | k in rest) + {s[0]};
      assert s[0] !in rest by {
        forall j | 0 <= j < |rest|
          ensures rest[j] != s[0]
        {
          assert rest[j] == s[j + 1];
        }
      }
    }
  }

  /** A new grid holds exactly `width * height` cells. */
  lemma FreshGridSize(width: int, height: int)
    ensures |FreshGrid(width, height)| == Nat(width) * Nat(height)
  {
    KeyOrderExact(width, height);
    var order := KeyOrder(width, height);
    DistinctSize(order);
    assert FreshGrid(width, height).Keys == set k | k in order;
  }

  // ---------------------------------------------------------------------------
  // The export
  // ---------------------------------------------------------------------------

  /** The dicts of the cells at the given positions, in that order. */
  function DictsAt(cells: map<(int, int), CellView>, ks: seq<(int, int)>): (ds: seq<map<string, Field>>)
    requires forall i :: 0 <= i < |ks| ==> ks[i] in cells
    ensures |ds| == |ks|
    ensures forall i :: 0 <= i < |ks| ==> ds[i] == CellDict(cells[ks[i]])
  {
    if ks == [] then [] else DictsAt(cells, ks[..|ks| - 1]) + [CellDict(cells[ks[|ks| - 1]])]
  }

  /** `DabaMap.to_dict()` on the grid's contents: one dict per cell, in insertion order. */
  function GridDicts(width: int, height: int, cells: map<(int, int), CellView>): seq<map<string, Field>>
    requires WellFormed(width, height, cells)
  {
    KeyOrderExact(width, height);
    DictsAt(cells, KeyOrder(width, height))
  }

  /**
   * The export has `width * height` entries; each cell's dict is there
   * exactly once, and each entry gives its cell back.
   */
  lemma GridDictsCover(width: int, height: int, cells: map<(int, int), CellView>)
    requires WellFormed(width, height, cells)
    ensures |GridDicts(width, height, cells)| == |KeyOrder(width, height)| == Nat(width) * Nat(height)
    ensures forall i :: 0 <= i < |GridDicts(width, height, cells)| ==>
      KeyOrder(width, height)[i] in cells &&
      CellOfDict(GridDicts(width, height, cells)[i]) == Some(cells[KeyOrder(width, height)[i]])
    ensures forall k :: k in cells ==> exists i :: 0 <= i < |KeyOrder(width, height)| && KeyOrder(width, height)[i] == k
  {
    KeyOrderExact(width, height);
    var ds := GridDicts(width, height, cells);
    forall i | 0 <= i < |ds|
      ensures CellOfDict(ds[i]) == Some(cells[KeyOrder(width, height)[i]])
    {
      CellDictRoundTrip(cells[KeyOrder(width, height)[i]]);
    }
  }

  // ---------------------------------------------------------------------------
  // The objects
  // ---------------------------------------------------------------------------

  /** Every cell is fresh at its own key, and no object sits at two keys. */
  ghost predicate AllFresh(g: map<(int, int), MapCell>)
    reads g.Values
  {
    (forall k :: k in g ==> g[k].View() == FreshCell(k.0, k.1))
    && (forall k, k' :: k in g && k' in g && k != k' ==> g[k] != g[k'])
  }

  /** Fresh cells at exactly the positions of the grid hold what a new grid holds. */
  lemma FreshCells(g: map<(int, int), MapCell>, width: int, height: int)
    requires (forall k :: k in g <==> InBounds(width, height, k)) && AllFresh(g)
    ensures (map k | k in g :: g[k].View()) == FreshGrid(width, height)
  {
    assert forall k :: k in g <==> k in FreshGrid(width, height);
  }

  /** The inner loop of `DabaMap.__init__`: a fresh cell at each position of column `x`. */
  method AddColumn(g: map<(int, int), MapCell>, ks: seq<(int, int)>, x: int, height: int)
    returns (g': map<(int, int), MapCell>, ks': seq<(int, int)>)
    requires x >= 0 && (forall k :: k in g <==> InBounds(x, height, k)) && AllFresh(g)
    requires ks == KeyOrder(x, height)
    ensures forall k :: k in g' <==> InBounds(x + 1, height, k)
    ensures AllFresh(g')
    ensures forall k :: k in g ==> k in g' && g'[k] == g[k]
    ensures forall k :: k in g' && k !in g ==> fresh(g'[k])
    ensures ks' == KeyOrder(x + 1, height)
  {
    g', ks' := g, ks;
    for y := 0 to Nat(height)
      invariant forall k :: k in g' <==> InBounds(x, height, k) || (k.0 == x && 0 <= k.1 < y)
      invariant AllFresh(g')
      invariant forall k :: k in g ==> k in g' && g'[k] == g[k]
      invariant forall k :: k in g' && k !in g ==> fresh(g'[k])
      invariant ks' == KeyOrder(x, height) + Column(x, y)
    {
      var cell := new MapCell(x, y);
      g' := g'[(x, y) := cell];
      ColumnSnoc(x, y);
      SeqAssoc(KeyOrder(x, height), Column(x, y), [(x, y)]);
      ks' := ks' + [(x, y)];
    }
  }

  class MapCell {
    const x: int
    const y: int
    var cellType: string
    var items: seq<Item>
    var container: Option<string>

    /** `MapCell(x, y, cell_type, items, container)` */
    constructor(x: int, y: int, cellType: string := OpenGround, items: Option<seq<Item>> := None,
                container: Option<string> := None)
      ensures View() == CellView(x, y, cellType, ItemsOrEmpty(items), container)
    {
      this.x := x;
      this.y := y;
      this.cellType := cellType;
      this.items := ItemsOrEmpty(items);
      this.container := container;
    }

    function View(): CellView
      reads this
    {
      CellView(x, y, cellType, items, container)
    }

    /** `MapCell.to_dict()` */
    function ToDict(): (d: map<string, Field>)
      reads this
      ensures CellOfDict(d) == Some(View())
    {
      CellDictRoundTrip(View());
      CellDict(View())
    }
  }

  class DabaMap {
    const width: int
    const height: int
    const grid: map<(int, int), MapCell>
    /** The keys of `grid` in insertion order, the order in which a Python dict iterates. */
    const order: seq<(int, int)>

    /** Each position inside the grid has its own cell, which knows its position. */
    ghost predicate Valid() {
      (forall k :: k in grid <==> InBounds(width, height, k))
      && (forall k :: k in grid ==> grid[k].x == k.0 && grid[k].y == k.1)
      && (forall k, k' :: k in grid && k' in grid && k != k' ==> grid[k] != grid[k'])
      && order == KeyOrder(width, height)
    }

    /** The contents of every cell. */
    function Cells(): (cells: map<(int, int), CellView>)
      reads grid.Values
      requires Valid()
      ensures WellFormed(width, height, cells)
    {
      map k | k in grid :: grid[k].View()
    }

    /** `DabaMap(width, height)`: one fresh cell per position, column by column. */
    constructor(width: int := 200, height: int := 100)
      ensures this.width == width && this.height == height
      ensures Valid()
      ensures Cells() == FreshGrid(width, height)
      ensures fresh(grid.Values)
    {
      this.width := width;
      this.height := height;
      var g: map<(int, int), MapCell> := map[];
      var ks: seq<(int, int)> := [];
      for x := 0 to Nat(width)
        invariant forall k :: k in g <==> InBounds(x, height, k)
        invariant AllFresh(g)
        invariant forall k :: k in g ==> fresh(g[k])
        invariant ks == KeyOrder(x, height)
      {
        g, ks := AddColumn(g, ks, x, height);
      }
      FreshCells(g, width, height);
      grid := g;
      order := ks;
    }

    /** `set_cell(x, y, cell_type, items, container)`: overwrites one cell in place, when it exists. */
    method SetCell(x: int, y: int, cellType: string, items: Option<seq<Item>> := None, container: Option<string> := None)
      requires Valid()
      modifies grid.Values
      ensures Cells() == SetCellView(width, height, old(Cells()), x, y, cellType, items, container)
    {
      if 0 <= x < width && 0 <= y < height {
        ghost var before := Cells();
        var cell := grid[(x, y)];
        cell.cellType := cellType;
        cell.items := ItemsOrEmpty(items);
        cell.container := container;
        assert Cells() == before[(x, y) := cell.View()];
      }
    }

    /** `get_cell(x, y)`: the cell object at that position, `None` outside the grid. */
    function GetCell(x: int, y: int): (r: Option<MapCell>)
      requires Valid()
      ensures r.None? <==> !InBounds(width, height, (x, y))
      ensures r.Some? ==> r.value == grid[(x, y)] && r.value.x == x && r.value.y == y
    {
      if (x, y) in grid then Some(grid[(x, y)]) else None
    }

    /** `to_dict()`: the dict of every cell, in insertion order. */
    function ToDict(): (ds: seq<map<string, Field>>)
      reads grid.Values
      requires Valid()
      ensures ds == GridDicts(width, height, Cells())
    {
      KeyOrderExact(width, height);
      CellDicts(order)
    }

    function CellDicts(ks: seq<(int, int)>): (ds: seq<map<string, Field>>)
      reads grid.Values
      requires Valid() && forall i :: 0 <= i < |ks| ==> ks[i] in grid
      ensures ds == DictsAt(Cells(), ks)
    {
      if ks == [] then [] else CellDicts(ks[..|ks| - 1]) + [grid[ks[|ks| - 1]].ToDict()]
    }
  }
}
