/** The matrix operations as the library runs them: nested loops over row and column buffers. */
module MatrixCode {
  import opened Wrappers
  import opened Sums
  import opened Determinant
  import opened MatrixAlgebra
  import opened Inverse

  ghost predicate Sized(m: array2<real>) {
    m.Length0 >= 1 && m.Length1 >= 1
  }

  ghost predicate SquareBuffer(m: array2<real>) {
    m.Length0 == m.Length1 >= 1
  }

  /** The value a buffer holds. */
  ghost function View(m: array2<real>): (v: Matrix)
    requires Sized(m)
    reads m
    ensures Rows(v) == m.Length0 && Cols(v) == m.Length1
    ensures forall i, j :: 0 <= i < m.Length0 && 0 <= j < m.Length1 ==> v[i][j] == m[i, j]
  {
    var v := seq(m.Length0, i requires 0 <= i < m.Length0 reads m =>
                   seq(m.Length1, j requires 0 <= j < m.Length1 reads m => m[i, j]));
    assert forall i :: 0 <= i < m.Length0 ==> |v[i]| == m.Length1;
    v
  }

  /** Whether the cell comes before (row, col) in a row-by-row traversal. */
  predicate Before(i: int, j: int, row: int, col: int) {
    i < row || (i == row && j < col)
  }

  method Transposed(a: array2<real>) returns (r: array2<real>)
    requires Sized(a)
    ensures fresh(r) && Sized(r) && View(r) == Transpose(View(a))
  {
    r := new real[a.Length1, a.Length0];
    for row := 0 to a.Length0
      invariant forall i, j :: 0 <= i < row && 0 <= j < a.Length1 ==> r[j, i] == a[i, j]
    {
      for col := 0 to a.Length1
        invariant forall i, j :: 0 <= i < row && 0 <= j < a.Length1 ==> r[j, i] == a[i, j]
        invariant forall j :: 0 <= j < col ==> r[j, row] == a[row, j]
      {
        r[col, row] := a[row, col];
      }
    }
    forall i, j | 0 <= i < r.Length0 && 0 <= j < r.Length1
      ensures View(r)[i][j] == Transpose(View(a))[i][j]
    {
      TransposeAt(View(a), i, j);
    }
    EqualMatrices(View(r), Transpose(View(a)));
  }

  method Add(a: array2<real>, b: array2<real>) returns (r: Result<array2<real>, MatrixError>)
    requires Sized(a) && Sized(b)
    ensures r.Ok? <==> SameSize(View(a), View(b))
    ensures r.Ok? ==> fresh(r.value) && Sized(r.value) && View(r.value) == Plus(View(a), View(b))
    ensures r.Err? ==> r.error == SizeMismatch
  {
    if a.Length0 != b.Length0 || a.Length1 != b.Length1 {
      return Err(SizeMismatch);
    }
    var c := new real[a.Length0, a.Length1];
    for row := 0 to a.Length0
      invariant forall i, j :: 0 <= i < row && 0 <= j < a.Length1 ==> c[i, j] == a[i, j] + b[i, j]
    {
      for col := 0 to a.Length1
        invariant forall i, j :: 0 <= i < a.Length0 && 0 <= j < a.Length1 && Before(i, j, row, col) ==> c[i, j] == a[i, j] + b[i, j]
      {
        c[row, col] := a[row, col] + b[row, col];
      }
    }
    EntryIs(View(a));
    EntryIs(View(b));
    EqualMatrices(View(c), Plus(View(a), View(b)));
    r := Ok(c);
  }

  method Subtract(a: array2<real>, b: array2<real>) returns (r: Result<array2<real>, MatrixError>)
    requires Sized(a) && Sized(b)
    ensures r.Ok? <==> SameSize(View(a), View(b))
    ensures r.Ok? ==> fresh(r.value) && Sized(r.value) && View(r.value) == Minus(View(a), View(b))
    ensures r.Err? ==> r.error == SizeMismatch
  {
    if a.Length0 != b.Length0 || a.Length1 != b.Length1 {
      return Err(SizeMismatch);
    }
    var c := new real[a.Length0, a.Length1];
    for row := 0 to a.Length0
      invariant forall i, j :: 0 <= i < row && 0 <= j < a.Length1 ==> c[i, j] == a[i, j] - b[i, j]
    {
      for col := 0 to a.Length1
        invariant forall i, j :: 0 <= i < a.Length0 && 0 <= j < a.Length1 && Before(i, j, row, col) ==> c[i, j] == a[i, j] - b[i, j]
      {
        c[row, col] := a[row, col] - b[row, col];
      }
    }
    EntryIs(View(a));
    EntryIs(View(b));
    EqualMatrices(View(c), Minus(View(a), View(b)));
    r := Ok(c);
  }

  /** One entry of a product: the first term, then the others added on. */
  method DotProduct(a: array2<real>, b: array2<real>, row: nat, col: nat) returns (sum: real)
    requires Sized(a) && Sized(b) && a.Length1 == b.Length0 && row < a.Length0 && col < b.Length1
    ensures sum == Dot(View(a), View(b), row, col)
  {
    ghost var f := DotTerm(View(a), View(b), row, col);
    sum := a[row, 0] * b[0, col];
    DotTermIs(View(a), View(b), row, col, 0);
    assert Sum(1, f) == Sum(0, f) + f(0);
    for x := 1 to a.Length1
      invariant sum == Sum(x, f)
    {
      DotTermIs(View(a), View(b), row, col, x);
      sum := sum + a[row, x] * b[x, col];
    }
  }

  lemma DotTermIs(a: Matrix, b: Matrix, i: nat, j: nat, k: nat)
    requires Cols(a) == Rows(b) && i < Rows(a) && j < Cols(b) && k < Cols(a)
    ensures DotTerm(a, b, i, j)(k) == a[i][k] * b[k][j]
  {
    EntryIs(a);
    EntryIs(b);
    assert Times(Entry(a)(i, k), Entry(b)(k, j)) == a[i][k] * b[k][j];
  }

  method Multiply(a: array2<real>, b: array2<real>) returns (r: Result<array2<real>, MatrixError>)
    requires Sized(a) && Sized(b)
    ensures r.Ok? <==> Cols(View(a)) == Rows(View(b))
    ensures r.Ok? ==> fresh(r.value) && Sized(r.value) && View(r.value) == Product(View(a), View(b))
    ensures r.Err? ==> r.error == SizeMismatch
  {
    if a.Length1 != b.Length0 {
      return Err(SizeMismatch);
    }
    var c := new real[a.Length0, b.Length1];
    ghost var va, vb := View(a), View(b);
    for row := 0 to a.Length0
      invariant View(a) == va && View(b) == vb
      invariant forall i, j :: 0 <= i < row && 0 <= j < b.Length1 ==> c[i, j] == Dot(va, vb, i, j)
    {
      for col := 0 to b.Length1
        invariant View(a) == va && View(b) == vb
        invariant forall i, j :: 0 <= i < a.Length0 && 0 <= j < b.Length1 && Before(i, j, row, col) ==> c[i, j] == Dot(va, vb, i, j)
      {
        c[row, col] := DotProduct(a, b, row, col);
      }
    }
    EqualMatrices(View(c), Product(va, vb));
    r := Ok(c);
  }

  method Divide(a: array2<real>, scalar: real) returns (r: array2<real>)
    requires Sized(a) && scalar != 0.0
    ensures fresh(r) && Sized(r) && View(r) == Quotient(View(a), scalar)
  {
    r := new real[a.Length0, a.Length1];
    for row := 0 to a.Length0
      invariant forall i, j :: 0 <= i < row && 0 <= j < a.Length1 ==> r[i, j] == a[i, j] / scalar
    {
      for col := 0 to a.Length1
        invariant forall i, j :: 0 <= i < a.Length0 && 0 <= j < a.Length1 && Before(i, j, row, col) ==> r[i, j] == a[i, j] / scalar
      {
        r[row, col] := a[row, col] / scalar;
      }
    }
    EntryIs(View(a));
    EqualMatrices(View(r), Quotient(View(a), scalar));
  }

  /** Column of the original that lands in column y once column `skipped` is left out. */
  function Skip(skipped: int, y: int): int {
    if y < skipped then y else y + 1
  }

  /** `minor`: everything below the first row and beside one column, moved to the top left; the last row and column of the target keep what they held. */
  method Minor(mat: array2<real>, matSize: nat, newMinor: array2<real>)
    requires SquareBuffer(mat) && SquareBuffer(newMinor) && mat.Length0 == newMinor.Length0 && mat != newMinor
    requires matSize < mat.Length1
    modifies newMinor
    ensures forall i, j :: 0 <= i < mat.Length0 - 1 && 0 <= j < mat.Length0 - 1 ==> newMinor[i, j] == mat[i + 1, Skip(matSize, j)]
    ensures forall i, j :: 0 <= i < mat.Length0 && 0 <= j < mat.Length0 && (i == mat.Length0 - 1 || j == mat.Length0 - 1) ==> newMinor[i, j] == old(newMinor[i, j])
  {
    var n := mat.Length0;
    var x, y := 0, 0;
    var row := 1;
    while row < n
      invariant 1 <= row <= n && x == row - 1 && y == 0
      invariant forall i, j :: 0 <= i < row - 1 && 0 <= j < n - 1 ==> newMinor[i, j] == mat[i + 1, Skip(matSize, j)]
      invariant forall i, j :: 0 <= i < n && 0 <= j < n && (i == n - 1 || j == n - 1) ==> newMinor[i, j] == old(newMinor[i, j])
    {
      var col := 0;
      while col < n
        invariant 0 <= col <= n
        invariant var copied := if col > matSize then col - 1 else col;
          if copied == n - 1 then x == row && y == 0 else x == row - 1 && y == copied
        invariant forall i, j :: 0 <= i < row - 1 && 0 <= j < n - 1 ==> newMinor[i, j] == mat[i + 1, Skip(matSize, j)]
        invariant forall j :: 0 <= j < (if col > matSize then col - 1 else col) ==> newMinor[row - 1, j] == mat[row, Skip(matSize, j)]
        invariant forall i, j :: 0 <= i < n && 0 <= j < n && (i == n - 1 || j == n - 1) ==> newMinor[i, j] == old(newMinor[i, j])
      {
        if col != matSize {
          newMinor[x, y] := mat[row, col];
          y := y + 1;
          if y == n - 1 {
            x := x + 1;
            y := 0;
          }
        }
        col := col + 1;
      }
      row := row + 1;
    }
  }

  /** The leading block of the scratch matrix after `Minor` selects the minor of the leading block it came from. */
  lemma ScratchMinor(v: Matrix, scratch: Matrix, size: nat, col: nat)
    requires IsSquare(v) && SameSize(v, scratch) && 1 <= size <= Rows(v) && col < size
    requires forall i, j :: 0 <= i < Rows(v) - 1 && 0 <= j < Rows(v) - 1 ==> scratch[i][j] == v[i + 1][Skip(col, j)]
    ensures LeadingDet(Entry(scratch), size - 1) == Det(Entry(v), Without(Range(size), 0), Without(Range(size), col))
  {
    hide Det, Without;
    var r := Range(size - 1);
    forall i, j | 0 <= i < size - 1 && 0 <= j < size - 1
      ensures Entry(scratch)(r[i], r[j]) == Entry(v)(Without(Range(size), 0)[i], Without(Range(size), col)[j])
    {
      EntryIs(v);
      EntryIs(scratch);
      assert scratch[i][j] == v[i + 1][Skip(col, j)];
    }
    DetDependsOnSelection(Entry(scratch), r, r, Entry(v), Without(Range(size), 0), Without(Range(size), col));
  }

  lemma LeadingOne(v: Matrix)
    requires IsSquare(v)
    ensures LeadingDet(Entry(v), 1) == v[0][0]
  {
    hide Det;
    assert Range(1) == [0];
    OneByOneDet(Entry(v), 0, 0);
  }

  lemma LeadingTwo(v: Matrix)
    requires IsSquare(v) && Rows(v) >= 2
    ensures LeadingDet(Entry(v), 2) == v[0][0] * v[1][1] - v[0][1] * v[1][0]
  {
    hide Det;
    assert Range(2) == [0, 1];
    TwoByTwoDet(Entry(v));
    EntryIs(v);
  }

  /** `determine`: every recursion level works on a full-size scratch matrix whose cells outside the leading block are left over. */
  method Determine(mat: array2<real>, size: int) returns (d: real)
    requires SquareBuffer(mat) && size <= mat.Length0
    ensures d == Inverse.Determine(Entry(View(mat)), size)
    decreases if size <= 0 then 0 else size
  {
    hide Det, Sum, Without, RowTerm, Range;
    var sum := 0.0;
    var newMinor := new real[mat.Length1, mat.Length0];
    if size == 1 {
      LeadingOne(View(mat));
      return mat[0, 0];
    } else if size == 2 {
      LeadingTwo(View(mat));
      return mat[0, 0] * mat[1, 1] - mat[0, 1] * mat[1, 0];
    } else {
      ghost var v := View(mat);
      ghost var r := if size <= 0 then [0] else Range(size);
      ghost var f := RowTerm(Entry(v), r, r, 0);
      var col := 0;
      SumStart(f);
      while col < size
        invariant 0 <= col && (size > 0 ==> col <= size) && (size <= 0 ==> col == 0)
        invariant View(mat) == v && fresh(newMinor) && newMinor != mat && SquareBuffer(newMinor) && newMinor.Length0 == mat.Length0
        invariant sum == Sum(col, f)
      {
        Minor(mat, col, newMinor);
        ScratchMinor(v, View(newMinor), size, col);
        var minor := Determine(newMinor, size - 1);
        var term := mat[0, col] * (if col % 2 == 0 then 1.0 else -1.0) * minor;
        SignedTerm(v, r, col, minor, term);
        SumStep(col, f);
        sum := sum + term;
        col := col + 1;
      }
      if size > 0 { DetIsFirstRow(Entry(v), r, r); }
    }
    return sum;
  }

  lemma SumStart(f: int -> real)
    ensures Sum(0, f) == 0.0
  {
  }

  lemma SumStep(n: nat, f: int -> real)
    ensures Sum(n + 1, f) == Sum(n, f) + f(n)
  {
  }

  lemma SignedTerm(v: Matrix, r: seq<int>, col: nat, minor: real, term: real)
    requires IsSquare(v) && 0 < |r| <= Rows(v) && r == Range(|r|) && col < |r|
    requires minor == Det(Entry(v), Without(r, 0), Without(r, col))
    requires term == v[0][col] * (if col % 2 == 0 then 1.0 else -1.0) * minor
    ensures RowTerm(Entry(v), r, r, 0)(col) == term
  {
    hide Det, Without;
    EntryIs(v);
    RowTermAt(Entry(v), r, r, 0, col, minor);
    TimesSigned(v[0][col], minor);
  }

  lemma TimesSigned(x: real, y: real)
    ensures x * 1.0 * y == Times(x, y) && x * -1.0 * y == -Times(x, y)
  {
  }

  /** The filling loops of `cofactor`: everything outside one row and one column, by running indices. */
  method FillMinor(mat: array2<real>, row3: nat, col3: nat, newMinor: array2<real>)
    requires SquareBuffer(mat) && SquareBuffer(newMinor) && mat.Length0 == newMinor.Length0 && mat != newMinor
    requires row3 < mat.Length0 && col3 < mat.Length0
    modifies newMinor
    ensures forall i, j :: 0 <= i < mat.Length0 - 1 && 0 <= j < mat.Length0 - 1 ==> newMinor[i, j] == mat[Skip(row3, i), Skip(col3, j)]
  {
    var n := mat.Length0;
    var row2, col2 := 0, 0;
    var row := 0;
    while row < n
      invariant 0 <= row <= n && col2 == 0 && row2 == (if row > row3 then row - 1 else row)
      invariant forall i, j :: 0 <= i < row2 && 0 <= j < n - 1 ==> newMinor[i, j] == mat[Skip(row3, i), Skip(col3, j)]
    {
      ghost var start := row2;
      var col := 0;
      while col < n
        invariant 0 <= col <= n
        invariant row == row3 || n == 1 ==> row2 == start && col2 == 0
        invariant row != row3 && n > 1 ==> var copied := if col > col3 then col - 1 else col;
          if copied == n - 1 then row2 == start + 1 && col2 == 0 else row2 == start && col2 == copied
        invariant forall i, j :: 0 <= i < start && 0 <= j < n - 1 ==> newMinor[i, j] == mat[Skip(row3, i), Skip(col3, j)]
        invariant row != row3 ==> forall j :: 0 <= j < (if col > col3 then col - 1 else col) ==> newMinor[start, j] == mat[row, Skip(col3, j)]
      {
        if row != row3 && col != col3 {
          newMinor[row2, col2] := mat[row, col];
          if col2 < n - 2 {
            col2 := col2 + 1;
          } else {
            col2 := 0;
            row2 := row2 + 1;
          }
        }
        col := col + 1;
      }
      row := row + 1;
    }
  }

  lemma FilledMinor(v: Matrix, scratch: Matrix, row3: nat, col3: nat)
    requires IsSquare(v) && SameSize(v, scratch) && row3 < Rows(v) && col3 < Rows(v)
    requires forall i, j :: 0 <= i < Rows(v) - 1 && 0 <= j < Rows(v) - 1 ==> scratch[i][j] == v[Skip(row3, i)][Skip(col3, j)]
    ensures LeadingDet(Entry(scratch), Rows(v) - 1) == Det(Entry(v), Without(Range(Rows(v)), row3), Without(Range(Rows(v)), col3))
  {
    hide Det, Without;
    var n := Rows(v);
    var r := Range(n - 1);
    forall i, j | 0 <= i < n - 1 && 0 <= j < n - 1
      ensures Entry(scratch)(r[i], r[j]) == Entry(v)(Without(Range(n), row3)[i], Without(Range(n), col3)[j])
    {
      EntryIs(v);
      EntryIs(scratch);
      assert scratch[i][j] == v[Skip(row3, i)][Skip(col3, j)];
    }
    DetDependsOnSelection(Entry(scratch), r, r, Entry(v), Without(Range(n), row3), Without(Range(n), col3));
  }

  /** What `cofactor` stores at (i, j) before transposing. */
  ghost function StoredCofactor(v: Matrix, i: nat, j: nat): real
    requires IsSquare(v)
  {
    if Rows(v) == 1 then 0.0 else Inverse.Cofactor(v)(i, j)
  }

  /** One cofactor; `newMinor` is the scratch matrix shared by all of them. */
  method CofactorEntry(mat: array2<real>, row3: nat, col3: nat, newMinor: array2<real>) returns (c: real)
    requires SquareBuffer(mat) && SquareBuffer(newMinor) && mat.Length0 == newMinor.Length0 && mat != newMinor
    requires row3 < mat.Length0 && col3 < mat.Length0
    modifies newMinor
    ensures c == StoredCofactor(View(mat), row3, col3)
  {
    hide Det, Without;
    ghost var v := View(mat);
    FillMinor(mat, row3, col3, newMinor);
    FilledMinor(v, View(newMinor), row3, col3);
    var minor := Determine(newMinor, mat.Length0 - 1);
    c := (if (row3 + col3) % 2 == 0 then 1.0 else -1.0) * minor;
  }

  method Cofactor(mat: array2<real>) returns (r: array2<real>)
    requires SquareBuffer(mat)
    ensures fresh(r) && SquareBuffer(r) && View(r) == CofactorResult(View(mat))
  {
    hide StoredCofactor, CofactorResult;
    ghost var v := View(mat);
    var n := mat.Length0;
    var newMinor := new real[mat.Length1, mat.Length0];
    var cofactors := new real[mat.Length1, mat.Length0];
    for row3 := 0 to n
      invariant View(mat) == v
      invariant forall i, j :: 0 <= i < row3 && 0 <= j < n ==> cofactors[i, j] == StoredCofactor(v, i, j)
    {
      for col3 := 0 to n
        invariant View(mat) == v
        invariant forall i, j :: 0 <= i < n && 0 <= j < n && Before(i, j, row3, col3) ==> cofactors[i, j] == StoredCofactor(v, i, j)
      {
        var c := CofactorEntry(mat, row3, col3, newMinor);
        cofactors[row3, col3] := c;
      }
    }
    AllStored(v, View(cofactors));
    r := Transposed(cofactors);
  }

  lemma AllStored(v: Matrix, c: Matrix)
    requires IsSquare(v) && SameSize(c, v)
    requires forall i, j :: 0 <= i < Rows(v) && 0 <= j < Rows(v) ==> c[i][j] == StoredCofactor(v, i, j)
    ensures Transpose(c) == CofactorResult(v)
  {
    hide StoredCofactor;
    forall i, j | 0 <= i < Rows(v) && 0 <= j < Rows(v)
      ensures Transpose(c)[i][j] == CofactorResult(v)[i][j]
    {
      TransposeAt(c, i, j);
      CofactorResultAt(v, i, j);
    }
    EqualMatrices(Transpose(c), CofactorResult(v));
  }

  lemma CofactorResultAt(v: Matrix, i: nat, j: nat)
    requires IsSquare(v) && i < Rows(v) && j < Rows(v)
    ensures SameSize(CofactorResult(v), v) && CofactorResult(v)[i][j] == StoredCofactor(v, j, i)
  {
    hide Det, Without;
    var minor := Det(Entry(v), Without(Range(Rows(v)), j), Without(Range(Rows(v)), i));
    AdjugateAt(v, i, j, minor);
  }

  /** `inverse`: throws for determinant 0, overwrites the corner for determinant 1, else divides the cofactor matrix. */
  method Invert(mat: array2<real>) returns (r: Result<array2<real>, MatrixError>)
    requires SquareBuffer(mat)
    ensures r.Err? ==> InverseOf(View(mat)) == Err(r.error)
    ensures r.Ok? ==> fresh(r.value) && Sized(r.value) && InverseOf(View(mat)) == Ok(View(r.value))
  {
    var determinate := Determine(mat, mat.Length0);
    if determinate == 0.0 {
      r := Err(HasNoInverse);
    } else if determinate == 1.0 {
      var copy := Copy(mat);
      copy[0, 0] := 1.0;
      EqualMatrices(View(copy), WithUnitCorner(View(mat)));
      r := Ok(copy);
    } else {
      var c := Cofactor(mat);
      var q := Divide(c, determinate);
      r := Ok(q);
    }
  }

  method Copy(a: array2<real>) returns (r: array2<real>)
    requires Sized(a)
    ensures fresh(r) && Sized(r) && View(r) == View(a)
  {
    r := new real[a.Length0, a.Length1];
    for row := 0 to a.Length0
      invariant forall i, j :: 0 <= i < row && 0 <= j < a.Length1 ==> r[i, j] == a[i, j]
    {
      for col := 0 to a.Length1
        invariant forall i, j :: 0 <= i < a.Length0 && 0 <= j < a.Length1 && Before(i, j, row, col) ==> r[i, j] == a[i, j]
      {
        r[row, col] := a[row, col];
      }
    }
    EqualMatrices(View(r), View(a));
  }

  /** Assignment between matrices of one size copies the cells in place. */
  method CopyInto(source: array2<real>, target: array2<real>)
    requires Sized(source) && Sized(target) && source != target
    requires source.Length0 == target.Length0 && source.Length1 == target.Length1
    modifies target
    ensures View(target) == View(source)
  {
    for row := 0 to source.Length0
      invariant forall i, j :: 0 <= i < row && 0 <= j < source.Length1 ==> target[i, j] == source[i, j]
    {
      for col := 0 to source.Length1
        invariant forall i, j :: 0 <= i < source.Length0 && 0 <= j < source.Length1 && Before(i, j, row, col) ==> target[i, j] == source[i, j]
      {
        target[row, col] := source[row, col];
      }
    }
    EqualMatrices(View(target), View(source));
  }
}
