/**
 * The QR code display (component `qrCodeDisplay`).
 *
 * Once the QR library is loaded, the component empties its container and
 * appends one SVG: a white square background and one black square per dark
 * module, laid out on a grid of `moduleCount + 2` cells per side so that a
 * one-module quiet zone surrounds the code.
 *
 * The library is not modelled: what it produces for the value is a
 * `QrSymbol` (module count and dark-module predicate), or `None` when it
 * throws.
 */
module QrCodeDisplay {
  import opened Common

  /** The library's QR code for the value: `getModuleCount()` and `isDark`. */
  datatype QrSymbol = QrSymbol(moduleCount: nat, isDark: (nat, nat) -> bool)

  datatype Fill = White | Black
  datatype Rect = Rect(x: int, y: int, width: int, height: int, fill: Fill)
  datatype ViewBox = ViewBox(minX: int, minY: int, width: int, height: int)
  datatype Svg = Svg(width: int, height: int, viewBox: ViewBox, rects: seq<Rect>)

  /** A child element of the container. */
  datatype Node = SvgElement(svg: Svg) | OtherElement(tag: string)

  /** A module position: row and column. */
  datatype Module = Module(row: nat, col: nat)

  // ---------------------------------------------------------------------
  // Layout arithmetic

  /** `Math.floor(size / (moduleCount + 2))`: the largest cell that fits
      `n + 2` times into `size`. */
  function CellSize(size: int, n: nat): (cell: int)
    ensures cell * (n + 2) <= size < (cell + 1) * (n + 2)
    ensures size >= 0 ==> cell >= 0
  {
    size / (n + 2)
  }

  /** The side of the drawn square: whole cells only. */
  function SvgSize(size: int, n: nat): (side: int)
    ensures side <= size && size - side < n + 2
    ensures size >= 0 ==> side >= 0
  {
    CellSize(size, n) * (n + 2)
  }

  // ---------------------------------------------------------------------
  // The dark modules, in the order the loops visit them

  /** Dark modules `(row, c)` with `c < cols`, by increasing column. */
  function DarkInRow(isDark: (nat, nat) -> bool, row: nat, cols: nat): seq<Module>
  {
    if cols == 0 then []
    else DarkInRow(isDark, row, cols - 1)
         + (if isDark(row, cols - 1) then [Module(row, cols - 1)] else [])
  }

  /** Dark modules of the rows below `rows` of an `n`-column grid, row by row. */
  function DarkInRows(isDark: (nat, nat) -> bool, n: nat, rows: nat): seq<Module>
  {
    if rows == 0 then [] else DarkInRows(isDark, n, rows - 1) + DarkInRow(isDark, rows - 1, n)
  }

  function DarkModules(sym: QrSymbol): seq<Module> {
    DarkInRows(sym.isDark, sym.moduleCount, sym.moduleCount)
  }

  predicate RowMajorBefore(a: Module, b: Module) {
    a.row < b.row || (a.row == b.row && a.col < b.col)
  }

  predicate RowMajorSorted(ms: seq<Module>) {
    forall i, j :: 0 <= i < j < |ms| ==> RowMajorBefore(ms[i], ms[j])
  }

  lemma {:induction false} DarkInRowExact(isDark: (nat, nat) -> bool, row: nat, cols: nat)
    ensures forall m :: m in DarkInRow(isDark, row, cols) <==>
      m.row == row && m.col < cols && isDark(m.row, m.col)
    ensures RowMajorSorted(DarkInRow(isDark, row, cols))
  {
    if cols > 0 {
      DarkInRowExact(isDark, row, cols - 1);
      var prev := DarkInRow(isDark, row, cols - 1);
      var all := DarkInRow(isDark, row, cols);
      if isDark(row, cols - 1) {
        assert all == prev + [Module(row, cols - 1)];
        forall i, j | 0 <= i < j < |all|
          ensures RowMajorBefore(all[i], all[j])
        {
          assert all[i] == prev[i] && all[i] in prev;
          if j < |prev| {
            assert all[j] == prev[j];
          }
        }
      } else {
        assert all == prev;
      }
    }
  }

  lemma {:induction false} DarkInRowsExact(isDark: (nat, nat) -> bool, n: nat, rows: nat)
    ensures forall m :: m in DarkInRows(isDark, n, rows) <==>
      m.row < rows && m.col < n && isDark(m.row, m.col)
    ensures RowMajorSorted(DarkInRows(isDark, n, rows))
  {
    if rows > 0 {
      DarkInRowsExact(isDark, n, rows - 1);
      DarkInRowExact(isDark, rows - 1, n);
      var prev := DarkInRows(isDark, n, rows - 1);
      var last := DarkInRow(isDark, rows - 1, n);
      var all := DarkInRows(isDark, n, rows);
      assert all == prev + last;
      forall i, j | 0 <= i < j < |all|
        ensures RowMajorBefore(all[i], all[j])
      {
        if j < |prev| {
          assert all[i] == prev[i] && all[j] == prev[j];
        } else if i >= |prev| {
          assert all[i] == last[i - |prev|] && all[j] == last[j - |prev|];
        } else {
          assert all[i] == prev[i] && all[i] in prev;
          assert all[j] == last[j - |prev|] && all[j] in last;
        }
      }
    }
  }

  /** The modules the loops draw are exactly the dark modules of the grid,
      each once, in row-major order. */
  lemma DarkModulesExact(sym: QrSymbol)
    ensures forall m :: m in DarkModules(sym) <==>
      m.row < sym.moduleCount && m.col < sym.moduleCount && sym.isDark(m.row, m.col)
    ensures RowMajorSorted(DarkModules(sym))
    ensures forall i, j :: 0 <= i < j < |DarkModules(sym)| ==> DarkModules(sym)[i] != DarkModules(sym)[j]
  {
    DarkInRowsExact(sym.isDark, sym.moduleCount, sym.moduleCount);
  }

  // ---------------------------------------------------------------------
  // The picture

  function Background(svgSize: int): Rect {
    Rect(0, 0, svgSize, svgSize, White)
  }

  /** The black square of module `m`, shifted one cell right and down. */
  function CellRect(m: Module, cell: int): Rect {
    Rect((m.col + 1) * cell, (m.row + 1) * cell, cell, cell, Black)
  }

  function Cells(ms: seq<Module>, cell: int): (rs: seq<Rect>)
    ensures |rs| == |ms|
    ensures forall k :: 0 <= k < |ms| ==> rs[k] == CellRect(ms[k], cell)
  {
    seq(|ms|, k requires 0 <= k < |ms| => CellRect(ms[k], cell))
  }

  /** The SVG `_renderQR` builds for `size` and the library's code. */
  function SvgFor(size: int, sym: QrSymbol): Svg {
    var side := SvgSize(size, sym.moduleCount);
    Svg(side, side, ViewBox(0, 0, side, side),
        [Background(side)] + Cells(DarkModules(sym), CellSize(size, sym.moduleCount)))
  }

  /** The first rectangle is the white background covering the whole
      square; one black rectangle per dark module follows. */
  lemma SvgShape(size: int, sym: QrSymbol)
    ensures var svg := SvgFor(size, sym);
      && svg.width == svg.height == SvgSize(size, sym.moduleCount)
      && svg.viewBox == ViewBox(0, 0, svg.width, svg.height)
      && |svg.rects| == 1 + |DarkModules(sym)|
      && svg.rects[0] == Rect(0, 0, svg.width, svg.width, White)
      && forall k :: 1 <= k < |svg.rects| ==> svg.rects[k].fill == Black
  {
  }

  /** With a non-negative size, every module's square lies inside the
      background, at least one cell away from each edge: the quiet zone. */
  lemma CellsInsideQuietZone(size: int, sym: QrSymbol)
    requires size >= 0
    ensures var svg := SvgFor(size, sym);
      var cell := CellSize(size, sym.moduleCount);
      forall k :: 1 <= k < |svg.rects| ==>
        && svg.rects[k].width == cell && svg.rects[k].height == cell
        && cell <= svg.rects[k].x && svg.rects[k].x + cell <= svg.width - cell
        && cell <= svg.rects[k].y && svg.rects[k].y + cell <= svg.width - cell
  {
    var svg := SvgFor(size, sym);
    var n := sym.moduleCount;
    var cell := CellSize(size, n);
    var ms := DarkModules(sym);
    DarkModulesExact(sym);
    forall k | 1 <= k < |svg.rects|
      ensures cell <= svg.rects[k].x && svg.rects[k].x + cell <= svg.width - cell
      ensures cell <= svg.rects[k].y && svg.rects[k].y + cell <= svg.width - cell
    {
      var m := ms[k - 1];
      assert m in ms;
      assert svg.rects[k] == CellRect(m, cell);
      CellWithinGrid(m.col, n, cell);
      CellWithinGrid(m.row, n, cell);
    }
  }

  /** A cell at index `i < n` starts at `(i + 1) * cell` and ends one cell
      before the far edge `(n + 2) * cell`. */
  lemma CellWithinGrid(i: nat, n: nat, cell: nat)
    requires i < n
    ensures cell <= (i + 1) * cell && (i + 1) * cell + cell <= (n + 2) * cell - cell
  {
    MulMonotonic(1, i + 1, cell);
    MulMonotonic(i + 2, n + 1, cell);
    assert (i + 1) * cell + cell == (i + 2) * cell;
    assert (n + 2) * cell - cell == (n + 1) * cell;
  }

  lemma {:induction false} MulMonotonic(a: nat, b: nat, c: nat)
    requires a <= b
    ensures a * c <= b * c
    decreases b - a
  {
    if a < b {
      MulMonotonic(a, b - 1, c);
      assert b * c == (b - 1) * c + c;
    }
  }

  lemma CellsAppend(ms: seq<Module>, m: Module, cell: int)
    ensures Cells(ms + [m], cell) == Cells(ms, cell) + [CellRect(m, cell)]
  {
  }

  /** The nested row/column loops of `_renderQR`. */
  method BuildSvg(size: int, sym: QrSymbol) returns (svg: Svg)
    ensures svg == SvgFor(size, sym)
  {
    var n := sym.moduleCount;
    var cellSize := size / (n + 2);
    var svgSize := cellSize * (n + 2);
    var rects := [Rect(0, 0, svgSize, svgSize, White)];
    var row := 0;
    while row < n
      invariant 0 <= row <= n
      invariant rects == [Background(svgSize)] + Cells(DarkInRows(sym.isDark, n, row), cellSize)
    {
      var col := 0;
      while col < n
        invariant 0 <= col <= n
        invariant rects == [Background(svgSize)]
          + Cells(DarkInRows(sym.isDark, n, row) + DarkInRow(sym.isDark, row, col), cellSize)
      {
        ghost var drawn := DarkInRows(sym.isDark, n, row) + DarkInRow(sym.isDark, row, col);
        if sym.isDark(row, col) {
          rects := rects + [Rect((col + 1) * cellSize, (row + 1) * cellSize, cellSize, cellSize, Black)];
          CellsAppend(drawn, Module(row, col), cellSize);
          assert drawn + [Module(row, col)]
              == DarkInRows(sym.isDark, n, row) + DarkInRow(sym.isDark, row, col + 1);
        } else {
          assert drawn == DarkInRows(sym.isDark, n, row) + DarkInRow(sym.isDark, row, col + 1);
        }
        col := col + 1;
      }
      row := row + 1;
    }
    svg := Svg(svgSize, svgSize, ViewBox(0, 0, svgSize, svgSize), rects);
  }

  // ---------------------------------------------------------------------
  // The component

  /** The element the component draws into (`refs.qrCanvas`). */
  class Container {
    var children: seq<Node>

    constructor (children: seq<Node>)
      ensures this.children == children
    {
      this.children := children;
    }
  }

  class QrCodeDisplay {
    var value: string
    var size: int
    var title: string
    var qrLibLoaded: bool

    constructor ()
      ensures value == "" && size == 200 && title == "" && !qrLibLoaded
    {
      value := "";
      size := 200;
      title := "";
      qrLibLoaded := false;
    }

    /** `_renderQR`. `container` is the ref (`null` before it renders);
        `symbol` is the library's code for `value` (`None` when it throws). */
    method RenderQR(container: Container?, symbol: Option<QrSymbol>)
      modifies container
      ensures value == "" || container == null ==> container == null || unchanged(container)
      ensures value != "" && container != null ==>
        container.children == (if symbol.Some? then [SvgElement(SvgFor(size, symbol.value))] else [])
    {
      if value == "" {
        return;
      }
      if container == null {
        return;
      }
      while |container.children| > 0
        decreases |container.children|
      {
        container.children := container.children[1..];
      }
      match symbol {
        case None =>
        case Some(sym) =>
          var svg := BuildSvg(size, sym);
          container.children := container.children + [SvgElement(svg)];
      }
    }

    /** `renderedCallback`: renders at once when the library is loaded;
        otherwise loads it (`loadOk` is the outcome) and renders on success. */
    method RenderedCallback(loadOk: bool, container: Container?, symbol: Option<QrSymbol>)
      modifies this`qrLibLoaded, container
      ensures qrLibLoaded == (old(qrLibLoaded) || loadOk)
      ensures !qrLibLoaded ==> container == null || unchanged(container)
      ensures qrLibLoaded && value != "" && container != null ==>
        container.children == (if symbol.Some? then [SvgElement(SvgFor(size, symbol.value))] else [])
      ensures qrLibLoaded && (value == "" || container == null) ==> container == null || unchanged(container)
    {
      if qrLibLoaded {
        RenderQR(container, symbol);
        return;
      }
      if loadOk {
        qrLibLoaded := true;
        RenderQR(container, symbol);
      }
    }
  }
}
