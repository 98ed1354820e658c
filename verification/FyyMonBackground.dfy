/** The grid behind the charts. */
module FyyMonBackground {
  datatype GridLine = Horizontal(y: int, fromX: int, toX: int) | Vertical(x: int, fromY: int, toY: int)

  /** The lines one kind contributes: 0, space, 2 * space, and so on, n of them. */
  function Rows(n: nat, space: nat, width: nat): seq<GridLine> {
    if n == 0 then [] else Rows(n - 1, space, width) + [Horizontal((n - 1) * space, 0, width)]
  }

  function Columns(n: nat, space: nat, height: nat): seq<GridLine> {
    if n == 0 then [] else Columns(n - 1, space, height) + [Vertical((n - 1) * space, 0, height)]
  }

  function Horizontals(lines: seq<GridLine>): seq<GridLine>
    decreases |lines|
  {
    if lines == [] then [] else
      Horizontals(lines[..|lines| - 1]) + if lines[|lines| - 1].Horizontal? then [lines[|lines| - 1]] else []
  }

  function Verticals(lines: seq<GridLine>): seq<GridLine>
    decreases |lines|
  {
    if lines == [] then [] else
      Verticals(lines[..|lines| - 1]) + if lines[|lines| - 1].Vertical? then [lines[|lines| - 1]] else []
  }

  lemma Append(lines: seq<GridLine>, line: GridLine)
    ensures Horizontals(lines + [line]) == Horizontals(lines) + if line.Horizontal? then [line] else []
    ensures Verticals(lines + [line]) == Verticals(lines) + if line.Vertical? then [line] else []
  {
    assert (lines + [line])[..|lines|] == lines;
  }

  /** INT_ROUND_DOWN. */
  function RoundDown(x: nat, space: nat): nat
    requires space > 0
  {
    NonNegative(x / space, space);
    x / space * space
  }

  lemma NonNegative(a: nat, b: nat)
    ensures a * b >= 0
  {
  }

  lemma MulMonotone(a: int, b: int, c: nat)
    requires a <= b
    ensures a * c <= b * c
  {
    assert (b - a) * c >= 0;
  }

  /** Counting up by space from 0, the first value beyond limit is the (limit / space + 1)-th. */
  lemma CountToLimit(n: nat, space: nat, limit: nat)
    requires space > 0 && n * space > limit && (n > 0 ==> (n - 1) * space <= limit)
    ensures n == limit / space + 1
  {
    assert limit == limit / space * space + limit % space;
    var q := limit / space;
    if n - 1 < q {
      MulMonotone(n, q, space);
    } else if n - 1 > q {
      MulMonotone(q + 1, n - 1, space);
    }
  }

  lemma {:induction false} RowAt(n: nat, space: nat, width: nat, k: nat)
    requires k < n
    ensures |Rows(n, space, width)| == n && Rows(n, space, width)[k] == Horizontal(k * space, 0, width)
    decreases n
  {
    if n <= 1 {
    } else {
      RowAt(n - 1, space, width, if k < n - 1 then k else 0);
    }
  }

  lemma {:induction false} ColumnAt(n: nat, space: nat, height: nat, k: nat)
    requires k < n
    ensures |Columns(n, space, height)| == n && Columns(n, space, height)[k] == Vertical(k * space, 0, height)
    decreases n
  {
    if n <= 1 {
    } else {
      ColumnAt(n - 1, space, height, if k < n - 1 then k else 0);
    }
  }

  lemma Multiple(k: nat, space: nat)
    requires space > 0
    ensures k * space >= 0 && (k * space) % space == 0 && k * space / space == k
  {
    var x := k * space;
    var q, r := x / space, x % space;
    assert x == q * space + r;
    assert (k - q) * space == r;
    if k > q {
      MulMonotone(1, k - q, space);
    } else if k < q {
      MulMonotone(k - q, -1, space);
    }
  }

  lemma QuotientWithin(y: nat, space: nat, limit: nat)
    requires space > 0 && y <= limit
    ensures y / space <= limit / space
  {
    var k, q := y / space, limit / space;
    assert y == k * space + y % space && limit == q * space + limit % space;
    if k > q {
      MulMonotone(q + 1, k, space);
    }
  }

  /** The multiples of space from 0 to limit are those of the counts 0 to limit / space. */
  lemma MultiplesWithin(y: int, space: nat, limit: nat)
    requires space > 0
    ensures (0 <= y <= limit && y % space == 0) <==> exists k: nat :: k <= limit / space && y == k * space
  {
    if 0 <= y <= limit && y % space == 0 {
      QuotientWithin(y, space, limit);
      assert y == y / space * space;
    }
    if k: nat :| k <= limit / space && y == k * space {
      Multiple(k, space);
      MulMonotone(k, limit / space, space);
    }
  }

  /** There is a row at y exactly when y is a multiple of the spacing within the height. */
  lemma RowsAreMultiples(space: nat, width: nat, height: nat, y: int)
    requires space > 0
    ensures Horizontal(y, 0, width) in Rows(height / space + 1, space, width) <==> 0 <= y <= height && y % space == 0
  {
    var n := height / space + 1;
    var rows := Rows(n, space, width);
    MultiplesWithin(y, space, height);
    RowAt(n, space, width, 0);
    if Horizontal(y, 0, width) in rows {
      var k :| 0 <= k < n && rows[k] == Horizontal(y, 0, width);
      RowAt(n, space, width, k);
    }
    if k: nat :| k < n && y == k * space {
      RowAt(n, space, width, k);
    }
  }

  lemma ColumnsAreMultiples(space: nat, width: nat, height: nat, x: int)
    requires space > 0
    ensures Vertical(x, 0, height) in Columns(width / space + 1, space, height) <==> 0 <= x <= width && x % space == 0
  {
    var n := width / space + 1;
    var columns := Columns(n, space, height);
    MultiplesWithin(x, space, width);
    ColumnAt(n, space, height, 0);
    if Vertical(x, 0, height) in columns {
      var k :| 0 <= k < n && columns[k] == Vertical(x, 0, height);
      ColumnAt(n, space, height, k);
    }
    if k: nat :| k < n && x == k * space {
      ColumnAt(n, space, height, k);
    }
  }

  /** On a screen rounded down to the spacing the last row and the last column lie on the border. */
  lemma LastLinesOnBorder(width: nat, height: nat, hSpace: nat, vSpace: nat)
    requires hSpace > 0 && vSpace > 0
    ensures var w := RoundDown(width, hSpace); var h := RoundDown(height, vSpace);
      var rows := Rows(h / vSpace + 1, vSpace, w); var columns := Columns(w / hSpace + 1, hSpace, h);
      && |rows| == h / vSpace + 1 && rows[h / vSpace] == Horizontal(h, 0, w)
      && |columns| == w / hSpace + 1 && columns[w / hSpace] == Vertical(w, 0, h)
  {
    var w, h := RoundDown(width, hSpace), RoundDown(height, vSpace);
    Multiple(width / hSpace, hSpace);
    Multiple(height / vSpace, vSpace);
    RowAt(h / vSpace + 1, vSpace, w, h / vSpace);
    ColumnAt(w / hSpace + 1, hSpace, h, w / hSpace);
  }

  class FyyMonBackground {
    const width: nat
    const height: nat
    const hlineSpace: nat
    const vlineSpace: nat
    var paintPicture: seq<GridLine>

    constructor (width: nat, height: nat, hSpace: nat, vSpace: nat)
      requires hSpace > 0 && vSpace > 0
      ensures this.width == width && this.height == height && hlineSpace == hSpace && vlineSpace == vSpace
      ensures Horizontals(paintPicture) == Rows(height / vSpace + 1, vSpace, width)
      ensures Verticals(paintPicture) == Columns(width / hSpace + 1, hSpace, height)
    {
      this.width, this.height := width, height;
      hlineSpace, vlineSpace := hSpace, vSpace;
      new;
      MyDraw();
    }

    /** myDraw: rows and columns together while both fit, then whichever kind is left. */
    method MyDraw()
      requires hlineSpace > 0 && vlineSpace > 0
      modifies this
      ensures Horizontals(paintPicture) == Rows(height / vlineSpace + 1, vlineSpace, width)
      ensures Verticals(paintPicture) == Columns(width / hlineSpace + 1, hlineSpace, height)
    {
      var i, j := 0, 0;
      ghost var rows: nat, columns: nat := 0, 0;
      paintPicture := [];
      while i <= height && j <= width
        invariant i == rows * vlineSpace && j == columns * hlineSpace
        invariant rows > 0 ==> (rows - 1) * vlineSpace <= height
        invariant columns > 0 ==> (columns - 1) * hlineSpace <= width
        invariant Horizontals(paintPicture) == Rows(rows, vlineSpace, width)
        invariant Verticals(paintPicture) == Columns(columns, hlineSpace, height)
        decreases height - i
      {
        DrawRow(i);
        DrawColumn(j);
        i, j := i + vlineSpace, j + hlineSpace;
        rows, columns := rows + 1, columns + 1;
      }
      while i <= height
        invariant i == rows * vlineSpace
        invariant rows > 0 ==> (rows - 1) * vlineSpace <= height
        invariant Horizontals(paintPicture) == Rows(rows, vlineSpace, width)
        invariant Verticals(paintPicture) == Columns(columns, hlineSpace, height)
      {
        DrawRow(i);
        i := i + vlineSpace;
        rows := rows + 1;
      }
      CountToLimit(rows, vlineSpace, height);
      while j <= width
        invariant j == columns * hlineSpace
        invariant columns > 0 ==> (columns - 1) * hlineSpace <= width
        invariant Horizontals(paintPicture) == Rows(height / vlineSpace + 1, vlineSpace, width)
        invariant Verticals(paintPicture) == Columns(columns, hlineSpace, height)
      {
        DrawColumn(j);
        j := j + hlineSpace;
        columns := columns + 1;
      }
      CountToLimit(columns, hlineSpace, width);
    }

    method DrawRow(y: int)
      modifies this
      ensures Horizontals(paintPicture) == Horizontals(old(paintPicture)) + [Horizontal(y, 0, width)]
      ensures Verticals(paintPicture) == Verticals(old(paintPicture))
    {
      Append(paintPicture, Horizontal(y, 0, width));
      paintPicture := paintPicture + [Horizontal(y, 0, width)];
    }

    method DrawColumn(x: int)
      modifies this
      ensures Horizontals(paintPicture) == Horizontals(old(paintPicture))
      ensures Verticals(paintPicture) == Verticals(old(paintPicture)) + [Vertical(x, 0, height)]
    {
      Append(paintPicture, Vertical(x, 0, height));
      paintPicture := paintPicture + [Vertical(x, 0, height)];
    }
  }
}
