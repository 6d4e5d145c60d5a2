/** The integer Matrix of hw3/matrix.py: element-wise + and *, the product @ through the
    dot-product helper, and the tab/newline rendering. A matrix is a list of rows; rows and cols
    are taken from the list and its first row when the object is built, and the rows are never
    checked to have equal lengths. */
module Matrices {
  import opened Outcomes
  import opened Text

  // ---------------------------------------------------------------------------------------------
  // Specification on values
  // ---------------------------------------------------------------------------------------------

  /** Every row of m has exactly width entries. */
  predicate Rectangular(m: seq<seq<int>>, height: nat, width: nat) {
    |m| == height && forall i :: 0 <= i < height ==> |m[i]| == width
  }

  /** The first rows rows of m have at least width entries each. */
  predicate RowsCover(m: seq<seq<int>>, rows: nat, width: nat)
    requires rows <= |m|
  {
    forall i :: 0 <= i < rows ==> |m[i]| >= width
  }

  datatype Op = Plus | Times

  function Apply(op: Op, x: int, y: int): int {
    match op
    case Plus => x + y
    case Times => x * y
  }

  /** __add__ (op Plus) and __mul__ (op Times) on the lists of two built matrices: ValueError when
      the row or column counts differ, IndexError when a row of either is shorter than cols, and
      otherwise the matrix of a[i][j] op b[i][j]. */
  function ElementWise(a: seq<seq<int>>, b: seq<seq<int>>, op: Op): (r: Outcome<seq<seq<int>>>)
    requires |a| > 0 && |b| > 0
    ensures r == Raised(ValueError) <==> |a| != |b| || |a[0]| != |b[0]|
    ensures r.Ok? <==> |a| == |b| && |a[0]| == |b[0]| && RowsCover(a, |a|, |a[0]|) && RowsCover(b, |a|, |a[0]|)
    ensures r.Raised? ==> r.exc in {ValueError, IndexError}
    ensures r.Ok? ==> Rectangular(r.value, |a|, |a[0]|)
    ensures r.Ok? ==> forall i, j :: 0 <= i < |a| && 0 <= j < |a[0]| ==> r.value[i][j] == Apply(op, a[i][j], b[i][j])
  {
    if |a| != |b| || |a[0]| != |b[0]| then Raised(ValueError)
    else if !(RowsCover(a, |a|, |a[0]|) && RowsCover(b, |a|, |a[0]|)) then Raised(IndexError)
    else Ok(seq(|a|, i requires 0 <= i < |a| => seq(|a[0]|, j requires 0 <= j < |a[0]| => Apply(op, a[i][j], b[i][j]))))
  }

  /** Equal-shaped rectangular matrices never raise, and both operations commute. */
  lemma ElementWiseRectangular(a: seq<seq<int>>, b: seq<seq<int>>, op: Op, n: nat, m: nat)
    requires n > 0 && Rectangular(a, n, m) && Rectangular(b, n, m)
    ensures ElementWise(a, b, op).Ok?
    ensures ElementWise(a, b, op) == ElementWise(b, a, op)
  {
    var r, s := ElementWise(a, b, op), ElementWise(b, a, op);
    assert r.value == s.value by {
      forall i | 0 <= i < n ensures r.value[i] == s.value[i] {
        assert forall j :: 0 <= j < m ==> Apply(op, a[i][j], b[i][j]) == Apply(op, b[i][j], a[i][j]);
      }
    }
  }

  /** Sum of row[k] * m2[k][j] over k < n, added from k = 0 upwards. */
  function SumProducts(row: seq<int>, m2: seq<seq<int>>, j: nat, n: nat): int
    requires n <= |row| && n <= |m2|
    requires forall k :: 0 <= k < n ==> j < |m2[k]|
  {
    if n == 0 then 0 else SumProducts(row, m2, j, n - 1) + row[n - 1] * m2[n - 1][j]
  }

  /** Every index the loop of get_matrix_dot_product_elem reads exists. */
  predicate DotDefined(m1: seq<seq<int>>, m2: seq<seq<int>>, i: nat, j: nat) {
    i < |m1| && |m1[i]| <= |m2| && forall k :: 0 <= k < |m1[i]| ==> j < |m2[k]|
  }

  /** The dot product of row i of m1 with column j of m2, where every index it reads exists. */
  function Entry(m1: seq<seq<int>>, m2: seq<seq<int>>, i: nat, j: nat): int
    requires DotDefined(m1, m2, i, j)
  {
    SumProducts(m1[i], m2, j, |m1[i]|)
  }

  /** get_matrix_dot_product_elem(m1, m2, i, j): the sum over k < len(m1[i]) of m1[i][k] * m2[k][j];
      IndexError as soon as a row or entry it reads is missing. */
  function DotProduct(m1: seq<seq<int>>, m2: seq<seq<int>>, i: nat, j: nat): (r: Outcome<int>)
    ensures r.Raised? <==> !DotDefined(m1, m2, i, j)
    ensures r.Raised? ==> r.exc == IndexError
  {
    if DotDefined(m1, m2, i, j) then Ok(Entry(m1, m2, i, j)) else Raised(IndexError)
  }

  /** The example of the docstring: row [1, 2] against column [5, 7] is 19. */
  lemma DotProductExample()
    ensures DotProduct([[1, 2], [3, 4]], [[5, 6], [7, 8]], 0, 0) == Ok(19)
  {
    var m1: seq<seq<int>> := [[1, 2], [3, 4]];
    var m2: seq<seq<int>> := [[5, 6], [7, 8]];
    assert DotDefined(m1, m2, 0, 0);
    assert SumProducts(m1[0], m2, 0, 1) == 5;
  }

  /** Every entry of the first cols columns of rows rows can be computed. */
  predicate ProductDefined(a: seq<seq<int>>, b: seq<seq<int>>, rows: nat, cols: nat) {
    forall i, j :: 0 <= i < rows && 0 <= j < cols ==> DotDefined(a, b, i, j)
  }

  /** The rows x cols matrix of dot products. */
  function Products(a: seq<seq<int>>, b: seq<seq<int>>, rows: nat, cols: nat): (r: seq<seq<int>>)
    requires ProductDefined(a, b, rows, cols)
    ensures Rectangular(r, rows, cols)
  {
    seq(rows, i requires 0 <= i < rows => seq(cols, j requires 0 <= j < cols => Entry(a, b, i, j)))
  }

  /** __matmul__ as written: ValueError when self.cols != other.rows; otherwise self.rows rows of
      self.cols entries (the column loop runs over self.cols, not other.cols), each the dot product
      of get_matrix_dot_product_elem, and IndexError if one of them cannot be computed. */
  function MatMulAsWritten(a: seq<seq<int>>, b: seq<seq<int>>): (r: Outcome<seq<seq<int>>>)
    requires |a| > 0 && |b| > 0
    ensures r == Raised(ValueError) <==> |a[0]| != |b|
  {
    if |a[0]| != |b| then Raised(ValueError)
    else if !ProductDefined(a, b, |a|, |a[0]|) then Raised(IndexError)
    else Ok(Products(a, b, |a|, |a[0]|))
  }

  /** The product the operator evidently means: other.cols columns. */
  function MatMulIntended(a: seq<seq<int>>, b: seq<seq<int>>): (r: Outcome<seq<seq<int>>>)
    requires |a| > 0 && |b| > 0
    ensures r == Raised(ValueError) <==> |a[0]| != |b|
  {
    if |a[0]| != |b| then Raised(ValueError)
    else if !ProductDefined(a, b, |a|, |b[0]|) then Raised(IndexError)
    else Ok(Products(a, b, |a|, |b[0]|))
  }

  /** The textbook product of an n x m and an m x p matrix. */
  function Product(a: seq<seq<int>>, b: seq<seq<int>>, n: nat, m: nat, p: nat): (r: seq<seq<int>>)
    requires Rectangular(a, n, m) && Rectangular(b, m, p)
    ensures Rectangular(r, n, p)
  {
    seq(n, i requires 0 <= i < n => seq(p, j requires 0 <= j < p => SumProducts(a[i], b, j, m)))
  }

  /** For rectangular operands every dot product of the first cols columns exists exactly when
      cols does not exceed the width p of the right operand, and it is the textbook entry. */
  lemma RectangularDefined(a: seq<seq<int>>, b: seq<seq<int>>, n: nat, m: nat, p: nat, cols: nat)
    requires n > 0 && m > 0 && cols > 0 && Rectangular(a, n, m) && Rectangular(b, m, p)
    ensures ProductDefined(a, b, n, cols) <==> cols <= p
    ensures cols <= p ==> forall i, j :: 0 <= i < n && 0 <= j < cols ==> Entry(a, b, i, j) == Product(a, b, n, m, p)[i][j]
  {
    if cols > p {
      assert !DotDefined(a, b, 0, p) by {
        assert !(p < |b[0]|);
      }
    } else {
      forall i, j | 0 <= i < n && 0 <= j < cols ensures DotDefined(a, b, i, j) {
        assert forall k :: 0 <= k < m ==> j < |b[k]|;
      }
    }
  }

  /** For rectangular n x m and m x p operands the written product succeeds exactly when
      p >= m, and then it is the first m columns of the true product. */
  lemma MatMulAsWrittenRectangular(a: seq<seq<int>>, b: seq<seq<int>>, n: nat, m: nat, p: nat)
    requires n > 0 && m > 0 && Rectangular(a, n, m) && Rectangular(b, m, p)
    ensures MatMulAsWritten(a, b).Ok? <==> p >= m
    ensures p >= m ==> forall i, j :: 0 <= i < n && 0 <= j < m ==>
      MatMulAsWritten(a, b).value[i][j] == Product(a, b, n, m, p)[i][j]
  {
    RectangularDefined(a, b, n, m, p, m);
  }

  /** For square matrices the written product is the true product. */
  lemma MatMulSquare(a: seq<seq<int>>, b: seq<seq<int>>, n: nat)
    requires n > 0 && Rectangular(a, n, n) && Rectangular(b, n, n)
    ensures MatMulAsWritten(a, b) == Ok(Product(a, b, n, n, n))
  {
    RectangularDefined(a, b, n, n, n, n);
    assert |a[0]| == n && |b| == n;
    var r, t := Products(a, b, n, n), Product(a, b, n, n, n);
    assert MatMulAsWritten(a, b) == Ok(r);
    forall i | 0 <= i < n ensures r[i] == t[i] {
      assert forall j :: 0 <= j < n ==> r[i][j] == Entry(a, b, i, j) == t[i][j];
    }
    assert r == t;
  }

  /** The corrected product is the true product for every conforming rectangular pair. */
  lemma MatMulIntendedRectangular(a: seq<seq<int>>, b: seq<seq<int>>, n: nat, m: nat, p: nat)
    requires n > 0 && m > 0 && p > 0 && Rectangular(a, n, m) && Rectangular(b, m, p)
    ensures MatMulIntended(a, b) == Ok(Product(a, b, n, m, p))
  {
    RectangularDefined(a, b, n, m, p, p);
    assert |a[0]| == m && |b| == m && |b[0]| == p;
    var r, t := Products(a, b, n, p), Product(a, b, n, m, p);
    assert MatMulIntended(a, b) == Ok(r);
    forall i | 0 <= i < n ensures r[i] == t[i] {
      assert forall j :: 0 <= j < p ==> r[i][j] == Entry(a, b, i, j) == t[i][j];
    }
    assert r == t;
  }

  lemma SumProducts2(row: seq<int>, m2: seq<seq<int>>, j: nat)
    requires |row| == 2 && |m2| >= 2 && j < |m2[0]| && j < |m2[1]|
    ensures SumProducts(row, m2, j, 2) == row[0] * m2[0][j] + row[1] * m2[1][j]
  {
    assert SumProducts(row, m2, j, 2) == SumProducts(row, m2, j, 1) + row[1] * m2[1][j];
    assert SumProducts(row, m2, j, 1) == row[0] * m2[0][j];
  }

  lemma SumProducts3(row: seq<int>, m2: seq<seq<int>>, j: nat)
    requires |row| == 3 && |m2| >= 3 && j < |m2[0]| && j < |m2[1]| && j < |m2[2]|
    ensures SumProducts(row, m2, j, 3) == row[0] * m2[0][j] + row[1] * m2[1][j] + row[2] * m2[2][j]
  {
    assert SumProducts(row, m2, j, 3) == SumProducts(row, m2, j, 2) + row[2] * m2[2][j];
    assert SumProducts(row, m2, j, 2) == SumProducts(row, m2, j, 1) + row[1] * m2[1][j];
    assert SumProducts(row, m2, j, 1) == row[0] * m2[0][j];
  }

  /** A 2 x 2 times 2 x 3 product comes out 2 x 2: the third column is dropped. */
  lemma MatMulDropsColumns()
    ensures MatMulAsWritten([[1, 2], [3, 4]], [[1, 0, 0], [0, 1, 0]]) == Ok([[1, 2], [3, 4]])
    ensures MatMulIntended([[1, 2], [3, 4]], [[1, 0, 0], [0, 1, 0]]) == Ok([[1, 2, 0], [3, 4, 0]])
  {
    var a: seq<seq<int>> := [[1, 2], [3, 4]];
    var b: seq<seq<int>> := [[1, 0, 0], [0, 1, 0]];
    assert Rectangular(a, 2, 2) && Rectangular(b, 2, 3);
    RectangularDefined(a, b, 2, 2, 3, 2);
    RectangularDefined(a, b, 2, 2, 3, 3);
    forall i, j | 0 <= i < 2 && 0 <= j < 3
      ensures Entry(a, b, i, j) == a[i][0] * b[0][j] + a[i][1] * b[1][j]
    {
      SumProducts2(a[i], b, j);
    }
    var w := Products(a, b, 2, 2);
    assert MatMulAsWritten(a, b) == Ok(w);
    assert w[0] == [1, 2] && w[1] == [3, 4];
    assert w == [[1, 2], [3, 4]];
    var v := Products(a, b, 2, 3);
    assert MatMulIntended(a, b) == Ok(v);
    assert v[0] == [1, 2, 0] && v[1] == [3, 4, 0];
    assert v == [[1, 2, 0], [3, 4, 0]];
  }

  /** A 2 x 3 times 3 x 2 product raises IndexError, though the true product exists. */
  lemma MatMulRaisesOnNarrow()
    ensures MatMulAsWritten([[1, 2, 3], [4, 5, 6]], [[1, 2], [3, 4], [5, 6]]) == Raised(IndexError)
    ensures MatMulIntended([[1, 2, 3], [4, 5, 6]], [[1, 2], [3, 4], [5, 6]]) == Ok([[22, 28], [49, 64]])
  {
    var c: seq<seq<int>> := [[1, 2, 3], [4, 5, 6]];
    var d: seq<seq<int>> := [[1, 2], [3, 4], [5, 6]];
    assert Rectangular(c, 2, 3) && Rectangular(d, 3, 2);
    RectangularDefined(c, d, 2, 3, 2, 3);
    RectangularDefined(c, d, 2, 3, 2, 2);
    forall i, j | 0 <= i < 2 && 0 <= j < 2
      ensures Entry(c, d, i, j) == c[i][0] * d[0][j] + c[i][1] * d[1][j] + c[i][2] * d[2][j]
    {
      SumProducts3(c[i], d, j);
    }
    var u := Products(c, d, 2, 2);
    assert MatMulIntended(c, d) == Ok(u);
    assert u[0] == [22, 28] && u[1] == [49, 64];
    assert u == [[22, 28], [49, 64]];
  }

  // ---------------------------------------------------------------------------------------------
  // __str__
  // ---------------------------------------------------------------------------------------------

  function RowText(row: seq<int>): string {
    Join("\t", seq(|row|, k requires 0 <= k < |row| => IntToString(row[k])))
  }

  /** "\n".join("\t".join(map(str, row)) for row in matrix): no trailing newline. */
  function Render(m: seq<seq<int>>): string {
    Join("\n", seq(|m|, i requires 0 <= i < |m| => RowText(m[i])))
  }

  /** Reads a rendering back: split at newlines, then at tabs, then parse each integer. */
  function Parse(s: string): seq<seq<int>> {
    var lines := Split(s, '\n');
    seq(|lines|, i requires 0 <= i < |lines| =>
      var cells := Split(lines[i], '\t');
      seq(|cells|, k requires 0 <= k < |cells| => ParseInt(cells[k])))
  }

  lemma {:induction false} JoinAvoids(sep: string, parts: seq<string>, c: char)
    requires c !in sep
    requires forall k :: 0 <= k < |parts| ==> c !in parts[k]
    ensures c !in Join(sep, parts)
    decreases |parts|
  {
    if |parts| > 1 {
      JoinAvoids(sep, parts[1..], c);
    }
  }

  lemma RowTextRoundTrip(row: seq<int>)
    requires |row| > 0
    ensures '\n' !in RowText(row)
    ensures var cells := Split(RowText(row), '\t');
      |cells| == |row| && forall k :: 0 <= k < |row| ==> ParseInt(cells[k]) == row[k]
  {
    var parts := seq(|row|, k requires 0 <= k < |row| => IntToString(row[k]));
    JoinAvoids("\t", parts, '\n');
    SplitJoin(parts, '\t');
    forall k | 0 <= k < |row| ensures ParseInt(parts[k]) == row[k] {
      ParseIntToString(row[k]);
    }
  }

  /** Rendering loses nothing when no row is empty: parsing the text gives the matrix back. */
  lemma RenderRoundTrip(m: seq<seq<int>>)
    requires |m| > 0 && forall i :: 0 <= i < |m| ==> |m[i]| > 0
    ensures Parse(Render(m)) == m
  {
    var lines := seq(|m|, i requires 0 <= i < |m| => RowText(m[i]));
    forall i | 0 <= i < |m| ensures '\n' !in lines[i] {
      RowTextRoundTrip(m[i]);
    }
    SplitJoin(lines, '\n');
    var p := Parse(Render(m));
    forall i | 0 <= i < |m| ensures p[i] == m[i] {
      RowTextRoundTrip(m[i]);
    }
  }

  // ---------------------------------------------------------------------------------------------
  // The class
  // ---------------------------------------------------------------------------------------------

  class Matrix {
    var matrix: seq<seq<int>>
    var rows: int
    var cols: int

    /** What __init__ establishes: rows is the number of rows, cols the length of the first. */
    predicate Valid()
      reads this
    {
      |matrix| > 0 && rows == |matrix| && cols == |matrix[0]|
    }

    /** __init__ on a non-empty list. */
    constructor (m: seq<seq<int>>)
      requires |m| > 0
      ensures Valid() && matrix == m
    {
      matrix := m;
      rows := |m|;
      cols := |m[0]|;
    }

    /** Matrix(m): reading m[0] raises IndexError for an empty list. */
    static method Create(m: seq<seq<int>>) returns (r: Outcome<Matrix>)
      ensures r.Raised? <==> |m| == 0
      ensures r.Raised? ==> r.exc == IndexError
      ensures r.Ok? ==> fresh(r.value) && r.value.Valid() && r.value.matrix == m
    {
      if |m| == 0 {
        return Raised(IndexError);
      }
      var x := new Matrix(m);
      return Ok(x);
    }

    /** str(self). */
    function ToString(): string
      reads this
    {
      Render(matrix)
    }

    /** The nested loops of __add__ and __mul__, which differ only in the operator. */
    method Combine(other: Matrix, op: Op) returns (r: Outcome<Matrix>)
      requires Valid() && other.Valid()
      ensures var spec := ElementWise(matrix, other.matrix, op);
        (spec.Raised? ==> r == Raised(spec.exc))
        && (spec.Ok? ==> r.Ok? && fresh(r.value) && r.value.Valid() && r.value.matrix == spec.value)
    {
      if rows != other.rows || cols != other.cols {
        return Raised(ValueError);
      }
      var a, b, n, m := matrix, other.matrix, rows, cols;
      var result: seq<seq<int>> := [];
      var i := 0;
      while i < n
        invariant 0 <= i <= n
        invariant RowsCover(a, i, m) && RowsCover(b, i, m)
        invariant |result| == i
        invariant forall i' :: 0 <= i' < i ==> |result[i']| == m
        invariant forall i', j :: 0 <= i' < i && 0 <= j < m ==> result[i'][j] == Apply(op, a[i'][j], b[i'][j])
      {
        var row: seq<int> := [];
        var j := 0;
        while j < m
          invariant 0 <= j <= m && j <= |a[i]| && j <= |b[i]|
          invariant |row| == j
          invariant forall j' :: 0 <= j' < j ==> row[j'] == Apply(op, a[i][j'], b[i][j'])
        {
          if j >= |a[i]| || j >= |b[i]| {
            return Raised(IndexError);
          }
          row := row + [Apply(op, a[i][j], b[i][j])];
          j := j + 1;
        }
        result := result + [row];
        i := i + 1;
      }
      var spec := ElementWise(a, b, op).value;
      forall i' | 0 <= i' < n ensures result[i'] == spec[i'] {
        assert forall j :: 0 <= j < m ==> result[i'][j] == spec[i'][j];
      }
      assert result == spec;
      var res := new Matrix(result);
      return Ok(res);
    }

    /** self + other. */
    method Add(other: Matrix) returns (r: Outcome<Matrix>)
      requires Valid() && other.Valid()
      ensures var spec := ElementWise(matrix, other.matrix, Plus);
        (spec.Raised? ==> r == Raised(spec.exc))
        && (spec.Ok? ==> r.Ok? && fresh(r.value) && r.value.Valid() && r.value.matrix == spec.value)
    {
      r := Combine(other, Plus);
    }

    /** self * other. */
    method Mul(other: Matrix) returns (r: Outcome<Matrix>)
      requires Valid() && other.Valid()
      ensures var spec := ElementWise(matrix, other.matrix, Times);
        (spec.Raised? ==> r == Raised(spec.exc))
        && (spec.Ok? ==> r.Ok? && fresh(r.value) && r.value.Valid() && r.value.matrix == spec.value)
    {
      r := Combine(other, Times);
    }

    /** Matrix.get_matrix_dot_product_elem(matrix1, matrix2, i, j), for non-negative indices. */
    static method GetMatrixDotProductElem(matrix1: Matrix, matrix2: Matrix, i: nat, j: nat) returns (r: Outcome<int>)
      ensures r == DotProduct(matrix1.matrix, matrix2.matrix, i, j)
    {
      if i >= |matrix1.matrix| {
        return Raised(IndexError);
      }
      var row := matrix1.matrix[i];
      var m2 := matrix2.matrix;
      var elem := 0;
      var k := 0;
      while k < |row|
        invariant 0 <= k <= |row| && k <= |m2|
        invariant forall k' :: 0 <= k' < k ==> j < |m2[k']|
        invariant elem == SumProducts(row, m2, j, k)
      {
        if k >= |m2| || j >= |m2[k]| {
          return Raised(IndexError);
        }
        elem := elem + row[k] * m2[k][j];
        k := k + 1;
      }
      return Ok(elem);
    }

    /** self @ other, as written. */
    method MatMul(other: Matrix) returns (r: Outcome<Matrix>)
      requires Valid() && other.Valid()
      ensures var spec := MatMulAsWritten(matrix, other.matrix);
        (spec.Raised? ==> r == Raised(spec.exc))
        && (spec.Ok? ==> r.Ok? && fresh(r.value) && r.value.Valid() && r.value.matrix == spec.value)
    {
      if cols != other.rows {
        return Raised(ValueError);
      }
      var a, b, n, m := matrix, other.matrix, rows, cols;
      var result: seq<seq<int>> := [];
      var i := 0;
      while i < n
        invariant 0 <= i <= n
        invariant ProductDefined(a, b, i, m)
        invariant |result| == i
        invariant forall i' :: 0 <= i' < i ==> |result[i']| == m
        invariant forall i', j :: 0 <= i' < i && 0 <= j < m ==> result[i'][j] == Entry(a, b, i', j)
      {
        var row: seq<int> := [];
        var j := 0;
        while j < m
          invariant 0 <= j <= m
          invariant forall j' :: 0 <= j' < j ==> DotDefined(a, b, i, j')
          invariant |row| == j
          invariant forall j' :: 0 <= j' < j ==> row[j'] == Entry(a, b, i, j')
        {
          var elem := GetMatrixDotProductElem(this, other, i, j);
          if elem.Raised? {
            return Raised(elem.exc);
          }
          row := row + [elem.value];
          j := j + 1;
        }
        result := result + [row];
        i := i + 1;
      }
      var spec := Products(a, b, n, m);
      forall i' | 0 <= i' < n ensures result[i'] == spec[i'] {
        assert forall j :: 0 <= j < m ==> result[i'][j] == spec[i'][j];
      }
      assert result == spec;
      var res := new Matrix(result);
      return Ok(res);
    }
  }
}
