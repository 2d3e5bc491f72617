/**
 * Immersive video (`VRVideo`): the projection chosen for a video, the eyes
 * it creates with their texture rectangles, the eye selection, and the
 * texture coordinates and triangle indices of the 360° sphere mesh.
 *
 * Vertex positions and normals (sines and cosines) are not modelled; the
 * mesh keeps one texture coordinate per vertex, so its vertex count is the
 * number of texture coordinates. Floats are modelled as reals.
 */
module VRVideo {
  import opened Wrappers

  /** `VRVideoProjection`, from the integer the Java side passes; other values fall to the default case. */
  datatype Projection =
    | SideBySide3D | Mono360 | Stereo360 | Mono180 | Stereo180LeftRight | Stereo180TopBottom | OtherProjection(code: int)

  function ProjectionOf(code: int): Projection
  {
    if code == 0 then SideBySide3D
    else if code == 1 then Mono360
    else if code == 2 then Stereo360
    else if code == 3 then Mono180
    else if code == 4 then Stereo180LeftRight
    else if code == 5 then Stereo180TopBottom
    else OtherProjection(code)
  }

  /** `device::EyeRect`: the part of the video texture an eye shows. */
  datatype EyeRect = EyeRect(x: real, y: real, width: real, height: real)

  /** The texture rectangles of the eyes `updateProjection` creates (none, left only, or both). */
  datatype Eyes = Eyes(left: Option<EyeRect>, right: Option<EyeRect>)

  function UpdateProjection(p: Projection): Eyes
  {
    match p
    case Mono360 => Eyes(Some(EyeRect(0.0, 0.0, 1.0, 1.0)), None)
    case Stereo360 => Eyes(Some(EyeRect(0.0, 0.0, 0.5, 0.5)), Some(EyeRect(0.5, 0.5, 0.5, 0.5)))
    case _ => Eyes(None, None)
  }

  /** Only the 360° projections create eyes; a right eye exists only in stereo, and always with a left one. */
  lemma ProjectionEyes(code: int)
    ensures var e := UpdateProjection(ProjectionOf(code));
      && (e.left.Some? <==> code == 1 || code == 2)
      && (e.right.Some? <==> code == 2)
      && (e.right.Some? ==> e.left.Some?)
      && (code == 1 ==> e.left == Some(EyeRect(0.0, 0.0, 1.0, 1.0)))
      && (code == 2 ==> e.left == Some(EyeRect(0.0, 0.0, 0.5, 0.5)) && e.right == Some(EyeRect(0.5, 0.5, 0.5, 0.5)))
  {
  }

  // ---------------------------------------------------------------------------
  // The sphere mesh
  // ---------------------------------------------------------------------------

  const Rows: nat := 60
  const Cols: nat := 60

  /** The texture coordinate of the vertex at `row`, `col`. */
  function Uv(rect: EyeRect, rows: nat, cols: nat, row: nat, col: nat): (real, real)
    requires rows > 0 && cols > 0
  {
    (rect.x + rect.width * (col as real) / (cols as real), rect.y + rect.height * (row as real) / (rows as real))
  }

  /** The coordinates of the first `c` vertices of row `r`. */
  function UvRow(rect: EyeRect, rows: nat, cols: nat, r: nat, c: nat): (s: seq<(real, real)>)
    requires rows > 0 && cols > 0
    ensures |s| == c
  {
    seq(c, j requires 0 <= j < c => Uv(rect, rows, cols, r, j))
  }

  /** The coordinates of the first `r` rows, row after row. */
  function UvRows(rect: EyeRect, rows: nat, cols: nat, r: nat): seq<(real, real)>
    requires rows > 0 && cols > 0
  {
    if r == 0 then [] else UvRows(rect, rows, cols, r - 1) + UvRow(rect, rows, cols, r - 1, cols)
  }

  /** The grid is laid out row-major: vertex `row·cols + col` has the coordinate of `row`, `col`. */
  lemma {:induction false} UvRowMajor(rect: EyeRect, rows: nat, cols: nat, r: nat, row: nat, col: nat)
    requires rows > 0 && cols > 0 && row < r && col < cols
    ensures |UvRows(rect, rows, cols, r)| == r * cols
    ensures row * cols + col < r * cols
    ensures UvRows(rect, rows, cols, r)[row * cols + col] == Uv(rect, rows, cols, row, col)
  {
    UvRowsLength(rect, rows, cols, r - 1);
    if row < r - 1 {
      UvRowMajor(rect, rows, cols, r - 1, row, col);
    } else {
      assert row * cols + col == (r - 1) * cols + col;
    }
  }

  lemma {:induction false} UvRowsLength(rect: EyeRect, rows: nat, cols: nat, r: nat)
    requires rows > 0 && cols > 0
    ensures |UvRows(rect, rows, cols, r)| == r * cols
  {
    if r > 0 {
      UvRowsLength(rect, rows, cols, r - 1);
    }
  }

  /** The full texture rectangle of a mono 360° eye is spanned from (0, 0) in steps of 1/cols and 1/rows. */
  lemma MonoUv(rows: nat, cols: nat, row: nat, col: nat)
    requires rows > 0 && cols > 0
    ensures Uv(EyeRect(0.0, 0.0, 1.0, 1.0), rows, cols, row, col) == ((col as real) / (cols as real), (row as real) / (rows as real))
  {
  }

  type Face = (int, int, int)

  /**
   * The faces of cell `row`, `col`, with the source's stride of `rows`. The
   * second face's guard compares `row` with `row - 1`, so it is always added.
   */
  function CellFaces(rows: nat, row: nat, col: nat): seq<Face>
  {
    var a := row * rows + col + 1;
    var b := row * rows + col;
    var c := (row + 1) * rows + col;
    var d := (row + 1) * rows + col + 1;
    (if row > 0 then [(a, b, d)] else []) + (if row != row - 1 then [(b, c, d)] else [])
  }

  /** The faces of the first `c` cells of row `r`. */
  function FacesRow(rows: nat, r: nat, c: nat): seq<Face>
  {
    if c == 0 then [] else FacesRow(rows, r, c - 1) + CellFaces(rows, r, c - 1)
  }

  /** The faces of the first `r` rows. */
  function FacesRows(rows: nat, cols: nat, r: nat): seq<Face>
  {
    if r == 0 then [] else FacesRows(rows, cols, r - 1) + FacesRow(rows, r - 1, cols)
  }

  lemma {:induction false} FacesRowLength(rows: nat, r: nat, c: nat)
    ensures |FacesRow(rows, r, c)| == if r > 0 then 2 * c else c
  {
    if c > 0 {
      FacesRowLength(rows, r, c - 1);
    }
  }

  /** The mesh has `rows·cols + (rows − 1)·cols` faces: one per cell, and one more for each cell past the first row. */
  lemma {:induction false} FaceCount(rows: nat, cols: nat, r: nat)
    requires r >= 1
    ensures |FacesRows(rows, cols, r)| == r * cols + (r - 1) * cols
  {
    FacesRowLength(rows, r - 1, cols);
    if r > 1 {
      FaceCount(rows, cols, r - 1);
    }
  }

  /** The sphere of `create360Projection` has 7140 faces over 3600 vertices. */
  lemma SphereSize(rect: EyeRect)
    ensures |FacesRows(Rows, Cols, Rows)| == 7140
    ensures |UvRows(rect, Rows, Cols, Rows)| == 3600
  {
    FaceCount(Rows, Cols, Rows);
    UvRowsLength(rect, Rows, Cols, Rows);
  }

  /**
   * The last row's cells get a face reaching into a row that does not
   * exist: on a square grid the final face's middle corner is vertex
   * `rows² + cols − 1`, past the `rows·cols` vertices.
   */
  lemma LastFaceOutOfRange(rows: nat, cols: nat)
    requires rows == cols && rows >= 1
    ensures var f := FacesRows(rows, cols, rows);
      |f| >= 1 && f[|f| - 1] == ((rows - 1) * rows + cols - 1, rows * rows + cols - 1, rows * rows + cols)
      && f[|f| - 1].1 >= rows * cols
      && f[|f| - 1].2 > rows * cols
  {
    FacesRowLength(rows, rows - 1, cols);
  }

  /**
   * Every corner of a face indexes a vertex of the grid, when the vertices
   * are numbered from `base`. The geometry library that takes the faces is
   * not part of this model, so both 0-based and 1-based readings are stated.
   */
  predicate FaceInGrid(f: Face, vertices: nat, base: nat)
  {
    base <= f.0 < base + vertices && base <= f.1 < base + vertices && base <= f.2 < base + vertices
  }

  /** On a square grid with 0-based vertices, the faces of a cell off the last row and the last column index grid vertices only. */
  lemma InteriorCellInGrid(rows: nat, row: nat, col: nat)
    requires row < rows - 1 && col < rows - 1
    ensures forall i :: 0 <= i < |CellFaces(rows, row, col)| ==> FaceInGrid(CellFaces(rows, row, col)[i], rows * rows, 0)
  {
    MulMonotone(row + 1, rows - 1, rows);
    assert (rows - 1) * rows + rows == rows * rows;
    assert row * rows + rows == (row + 1) * rows;
    var d := (row + 1) * rows + col + 1;
    assert d < rows * rows;
  }

  lemma MulMonotone(a: nat, b: nat, n: nat)
    requires a <= b
    ensures a * n <= b * n
  {
    assert b * n == a * n + (b - a) * n;
  }

  /**
   * On a square grid, the cell in the last column of the row before the
   * last has corner `rows²`: one past the last vertex when vertices are
   * 0-based, so that face leaves the grid.
   */
  lemma SeamCornerOutOfRange(rows: nat)
    requires rows >= 2
    ensures var f := CellFaces(rows, rows - 2, rows - 1);
      |f| >= 1 && f[|f| - 1].2 == rows * rows && !FaceInGrid(f[|f| - 1], rows * rows, 0)
  {
  }

  /**
   * Read with 1-based vertices instead, the two edge cases swap: the first
   * cell's face uses corner 0, outside the grid, while the seam cell's last
   * face stays inside it.
   */
  lemma OneBasedReading(rows: nat)
    requires rows >= 2
    ensures var f := CellFaces(rows, 0, 0);
      f == [(0, rows, rows + 1)] && !FaceInGrid(f[0], rows * rows, 1) && FaceInGrid(f[0], rows * rows, 0)
    ensures var f := CellFaces(rows, rows - 2, rows - 1);
      |f| >= 1 && FaceInGrid(f[|f| - 1], rows * rows, 1)
  {
    MulMonotone(2, rows, rows);
    assert (rows - 2) * rows + rows == (rows - 1) * rows;
    assert (rows - 1) * rows + rows == rows * rows;
  }

  /** A mesh as far as the model goes: one texture coordinate per vertex, and the triangle list. */
  datatype Mesh = Mesh(uvs: seq<(real, real)>, faces: seq<Face>)

  /** The two loops of `create360Projection` over a `rows` × `cols` grid. */
  method BuildSphere(rect: EyeRect, rows: nat, cols: nat) returns (m: Mesh)
    requires rows > 0 && cols > 0
    ensures m.uvs == UvRows(rect, rows, cols, rows)
    ensures m.faces == FacesRows(rows, cols, rows)
  {
    var uvs := BuildUvs(rect, rows, cols);
    var faces := BuildFaces(rows, cols);
    m := Mesh(uvs, faces);
  }

  /** The texture-coordinate loop, row by row. */
  method BuildUvs(rect: EyeRect, rows: nat, cols: nat) returns (uvs: seq<(real, real)>)
    requires rows > 0 && cols > 0
    ensures uvs == UvRows(rect, rows, cols, rows)
  {
    uvs := [];
    var row := 0;
    while row < rows
      invariant 0 <= row <= rows
      invariant uvs == UvRows(rect, rows, cols, row)
    {
      var line := UvLine(rect, rows, cols, row);
      uvs := uvs + line;
      row := row + 1;
    }
  }

  /** The coordinates of one row of vertices. */
  method UvLine(rect: EyeRect, rows: nat, cols: nat, row: nat) returns (line: seq<(real, real)>)
    requires rows > 0 && cols > 0
    ensures line == UvRow(rect, rows, cols, row, cols)
  {
    line := [];
    var col := 0;
    while col < cols
      invariant 0 <= col <= cols
      invariant line == UvRow(rect, rows, cols, row, col)
    {
      var u := rect.x + rect.width * (col as real) / (cols as real);
      var v := rect.y + rect.height * (row as real) / (rows as real);
      assert Uv(rect, rows, cols, row, col).0 == u;
      assert Uv(rect, rows, cols, row, col).1 == v;
      assert (u, v) == Uv(rect, rows, cols, row, col);
      line := line + [(u, v)];
      assert line == UvRow(rect, rows, cols, row, col + 1);
      col := col + 1;
    }
  }

  /** The face loop, row by row. */
  method BuildFaces(rows: nat, cols: nat) returns (faces: seq<Face>)
    ensures faces == FacesRows(rows, cols, rows)
  {
    faces := [];
    var row := 0;
    while row < rows
      invariant 0 <= row <= rows
      invariant faces == FacesRows(rows, cols, row)
    {
      var line := FaceLine(rows, cols, row);
      faces := faces + line;
      row := row + 1;
    }
  }

  /** The faces of one row of cells, with the guards as written. */
  method FaceLine(rows: nat, cols: nat, row: nat) returns (line: seq<Face>)
    ensures line == FacesRow(rows, row, cols)
  {
    line := [];
    var col := 0;
    while col < cols
      invariant 0 <= col <= cols
      invariant line == FacesRow(rows, row, col)
    {
      var a := row * rows + col + 1;
      var b := row * rows + col;
      var c := (row + 1) * rows + col;
      var d := (row + 1) * rows + col + 1;
      var cell: seq<Face> := [];
      if row > 0 {
        cell := cell + [(a, b, d)];
      }
      if row != row - 1 {
        cell := cell + [(b, c, d)];
      }
      line := line + cell;
      col := col + 1;
    }
  }

  /** `create360Projection`: the 60 × 60 sphere over the given texture rectangle. */
  method Create360Projection(rect: EyeRect) returns (m: Mesh)
    ensures m.uvs == UvRows(rect, Rows, Cols, Rows)
    ensures m.faces == FacesRows(Rows, Cols, Rows)
  {
    m := BuildSphere(rect, Rows, Cols);
  }

  // ---------------------------------------------------------------------------
  // The video node
  // ---------------------------------------------------------------------------

  datatype DeviceEye = LeftEye | RightEye

  /** An eye node: its mesh, and whether `SelectEye` has switched it on or off (`None` until then). */
  datatype EyeNode = EyeNode(rect: EyeRect, mesh: Mesh, shown: Option<bool>)

  /** A new eye node over `rect`, with the 360° sphere as its mesh. */
  method MakeEye(rect: EyeRect) returns (n: Option<EyeNode>)
    ensures n.Some? && n.value.rect == rect && n.value.shown.None?
  {
    var mesh := Create360Projection(rect);
    n := Some(EyeNode(rect, mesh, None));
  }

  class VRVideoNode {
    var projection: Projection
    var leftEye: Option<EyeNode>
    var rightEye: Option<EyeNode>

    /** The nodes the root toggle holds, in order; `None` is a null node. They are the eye nodes themselves. */
    function RootNodes(): seq<Option<EyeNode>>
      reads this
    {
      [leftEye] + (if rightEye.Some? then [rightEye] else [])
    }

    /** `Create` and `Initialize`: make the eyes for the projection and add them to the root. */
    constructor (projectionCode: int)
      ensures projection == ProjectionOf(projectionCode)
      ensures var eyes := UpdateProjection(projection);
        && (leftEye.Some? <==> eyes.left.Some?) && (rightEye.Some? <==> eyes.right.Some?)
        && (leftEye.Some? ==> leftEye.value.rect == eyes.left.value && leftEye.value.shown.None?)
        && (rightEye.Some? ==> rightEye.value.rect == eyes.right.value && rightEye.value.shown.None?)
      ensures |RootNodes()| == (if rightEye.Some? then 2 else 1) && RootNodes()[0] == leftEye
    {
      projection := ProjectionOf(projectionCode);
      var eyes := UpdateProjection(ProjectionOf(projectionCode));
      var left: Option<EyeNode> := None;
      var right: Option<EyeNode> := None;
      if eyes.left.Some? {
        left := MakeEye(eyes.left.value);
      }
      if eyes.right.Some? {
        right := MakeEye(eyes.right.value);
      }
      leftEye := left;
      rightEye := right;
    }

    /** `SelectEye`: without a right eye nothing changes; otherwise only the selected eye is shown. */
    method SelectEye(eye: DeviceEye)
      modifies this
      ensures old(rightEye).None? ==> leftEye == old(leftEye) && rightEye == old(rightEye)
      ensures old(rightEye).Some? && old(leftEye).Some? ==>
        && leftEye == Some(old(leftEye).value.(shown := Some(eye == LeftEye)))
        && rightEye == Some(old(rightEye).value.(shown := Some(eye == RightEye)))
      ensures projection == old(projection) && |RootNodes()| == |old(RootNodes())|
    {
      if rightEye.None? {
        return;
      }
      if leftEye.Some? {
        leftEye := Some(leftEye.value.(shown := Some(eye == LeftEye)));
      }
      rightEye := Some(rightEye.value.(shown := Some(eye == RightEye)));
    }
  }

  /** Without a 360° projection the root is given a single null node. */
  lemma NullRootNode(code: int)
    requires code != 1 && code != 2
    ensures UpdateProjection(ProjectionOf(code)) == Eyes(None, None)
  {
  }
}
