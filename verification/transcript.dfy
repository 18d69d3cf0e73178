/**
 * The results transcript (`resultados.txt`): the calibration result fields
 * written as bracketed text. How JavaScript prints a number is left open: every
 * function takes the printer `show` as a parameter.
 */
module Transcript {
  import opened Strings
  import opened Calibration

  /** Punctuation of a vector list: the list and row openers, the separator between rows, and the closers. */
  const ListOpen := "[ [ "
  const RowOpen := "[ "
  const RowSep := " ,\n "
  const RowClose := " ]"
  const ListClose := " ] ]"
  const ComponentSep := " , "

  /** `xs[k]` concatenated into a string: the printed number, or "undefined" past the end. */
  function Elem(xs: seq<real>, k: nat, show: real -> string): string
  {
    if k < |xs| then show(xs[k]) else "undefined"
  }

  /** The three components of one vector, separated by " , ". */
  function Components(v: seq<real>, show: real -> string): string
  {
    Elem(v, 0, show) + ComponentSep + Elem(v, 1, show) + ComponentSep + Elem(v, 2, show)
  }

  /** The text `getVecsCalibrationData` appends for the vector at `index`, as written. */
  function VecPiece(vecs: seq<seq<real>>, index: nat, show: real -> string): string
    requires index < |vecs|
  {
    var inner := Components(vecs[index], show);
    if |vecs| == 1 then ListOpen + inner + ListClose
    else if index == 0 then ListOpen + inner + RowClose + RowSep
    else if index == |vecs| - 1 then RowOpen + inner + ListClose
    else RowOpen + inner + RowClose + RowSep
  }

  /** The pieces for the first `n` vectors, appended in index order. */
  function Accumulate(vecs: seq<seq<real>>, n: nat, show: real -> string): string
    requires n <= |vecs|
  {
    if n == 0 then "" else Accumulate(vecs, n - 1, show) + VecPiece(vecs, n - 1, show)
  }

  /** `getVecsCalibrationData`: every vector's piece, in order. */
  function VecsData(vecs: seq<seq<real>>, show: real -> string): string
  {
    Accumulate(vecs, |vecs|, show)
  }

  /** One vector as a bracketed row. */
  function Row(v: seq<real>, show: real -> string): string
  {
    RowOpen + Components(v, show) + RowClose
  }

  function Rows(vecs: seq<seq<real>>, show: real -> string): (r: seq<string>)
    ensures |r| == |vecs|
  {
    seq(|vecs|, i requires 0 <= i < |vecs| => Row(vecs[i], show))
  }

  /**
   * The intended layout of a vector list, stated independently: the rows in
   * input order, joined by RowSep and enclosed in one more pair of brackets;
   * nothing at all for an empty list.
   */
  function VecsLayout(vecs: seq<seq<real>>, show: real -> string): string
  {
    if |vecs| == 0 then "" else RowOpen + Join(Rows(vecs, show), RowSep) + RowClose
  }

  /** The piece of a vector that is neither first nor last: its row and a separator; the last one's: its row and the list's closing bracket. */
  lemma {:induction false} MiddleAndLastPiece(vecs: seq<seq<real>>, i: nat, show: real -> string)
    requires 1 <= i < |vecs|
    ensures i < |vecs| - 1 ==> VecPiece(vecs, i, show) == Row(vecs[i], show) + RowSep
    ensures i == |vecs| - 1 ==> VecPiece(vecs, i, show) == Row(vecs[i], show) + RowClose
  {
  }

  /** Joining one more row appends a separator and the row. */
  lemma {:induction false} JoinRowsSnoc(rows: seq<string>, n: nat, sep: string)
    requires 2 <= n <= |rows|
    ensures Join(rows[..n], sep) == Join(rows[..n - 1], sep) + sep + rows[n - 1]
  {
    assert rows[..n][..n - 1] == rows[..n - 1];
  }

  lemma {:induction false} Reassociate(o: string, j: string, s: string, row: string, c: string)
    ensures (o + j + s) + (row + c) == o + (j + s + row) + c
  {
  }

  /** In a list of two or more, the first piece opens the list, then holds the first row and a separator. */
  lemma {:induction false} FirstPiece(vecs: seq<seq<real>>, show: real -> string)
    requires 2 <= |vecs|
    ensures Accumulate(vecs, 1, show) == RowOpen + Join(Rows(vecs, show)[..1], RowSep) + RowSep
  {
    FirstPieceText(vecs, show);
    RowsAt(vecs, 0, show);
    JoinOne(Rows(vecs, show)[..1], RowSep);
    OpenTwice(Components(vecs[0], show));
  }

  lemma {:induction false} FirstPieceText(vecs: seq<seq<real>>, show: real -> string)
    requires 2 <= |vecs|
    ensures Accumulate(vecs, 1, show) == ListOpen + Components(vecs[0], show) + RowClose + RowSep
  {
    assert Accumulate(vecs, 0, show) == "";
  }

  /** The list opener is two row openers. */
  lemma {:induction false} OpenTwice(c: string)
    ensures ListOpen + c + RowClose + RowSep == RowOpen + (RowOpen + c + RowClose) + RowSep
  {
    assert ListOpen == RowOpen + RowOpen;
  }

  /** A prefix of at least one and fewer than all pieces is the opened list with a trailing separator. */
  lemma {:induction false} AccumulatePrefix(vecs: seq<seq<real>>, n: nat, show: real -> string)
    requires 1 <= n < |vecs|
    ensures Accumulate(vecs, n, show) == RowOpen + Join(Rows(vecs, show)[..n], RowSep) + RowSep
  {
    var rows := Rows(vecs, show);
    if n == 1 {
      FirstPiece(vecs, show);
    } else {
      AccumulatePrefix(vecs, n - 1, show);
      MiddleAndLastPiece(vecs, n - 1, show);
      JoinRowsSnoc(rows, n, RowSep);
      Reassociate(RowOpen, Join(rows[..n - 1], RowSep), RowSep, rows[n - 1], RowSep);
    }
  }

  /** The as-written accumulation produces exactly the intended layout, for every list length. */
  lemma {:induction false} VecsDataIsLayout(vecs: seq<seq<real>>, show: real -> string)
    ensures VecsData(vecs, show) == VecsLayout(vecs, show)
  {
    if |vecs| == 1 {
      SingleVecsDataIsLayout(vecs, show);
    } else if |vecs| >= 2 {
      LongVecsDataIsLayout(vecs, show);
    }
  }

  lemma {:induction false} SingleVecsDataIsLayout(vecs: seq<seq<real>>, show: real -> string)
    requires |vecs| == 1
    ensures VecsData(vecs, show) == RowOpen + Join(Rows(vecs, show), RowSep) + RowClose
  {
    assert Accumulate(vecs, 0, show) == "";
    assert Rows(vecs, show) == [Row(vecs[0], show)];
  }

  lemma {:induction false} LongVecsDataIsLayout(vecs: seq<seq<real>>, show: real -> string)
    requires |vecs| >= 2
    ensures VecsData(vecs, show) == RowOpen + Join(Rows(vecs, show), RowSep) + RowClose
  {
    var n := |vecs|;
    var rows := Rows(vecs, show);
    AccumulatePrefix(vecs, n - 1, show);
    LastPiece(vecs, show);
    MiddleAndLastPiece(vecs, n - 1, show);
    RowsAt(vecs, n - 1, show);
    JoinLast(rows, RowSep);
    Splice(Accumulate(vecs, n - 1, show), VecPiece(vecs, n - 1, show), Join(rows, RowSep),
      RowOpen, Join(rows[..n - 1], RowSep), RowSep, rows[n - 1], RowClose);
  }

  /** A nonempty list prints as its earlier pieces followed by the last vector's piece. */
  lemma {:induction false} LastPiece(vecs: seq<seq<real>>, show: real -> string)
    requires |vecs| >= 1
    ensures VecsData(vecs, show) == Accumulate(vecs, |vecs| - 1, show) + VecPiece(vecs, |vecs| - 1, show)
  {
  }

  lemma {:induction false} RowsAt(vecs: seq<seq<real>>, i: nat, show: real -> string)
    requires i < |vecs|
    ensures Rows(vecs, show)[i] == Row(vecs[i], show)
  {
  }

  /** A join of two or more parts ends with a separator and the last part. */
  lemma {:induction false} JoinLast(parts: seq<string>, sep: string)
    requires |parts| >= 2
    ensures Join(parts, sep) == Join(parts[..|parts| - 1], sep) + sep + parts[|parts| - 1]
  {
  }

  /** Gluing an opened prefix to a closed last piece gives the joined whole, enclosed. */
  lemma {:induction false} Splice(a: string, p: string, whole: string, o: string, j: string, s: string, r: string, c: string)
    requires a == o + j + s && p == r + c && whole == j + s + r
    ensures a + p == o + whole + c
  {
    Reassociate(o, j, s, r, c);
  }

  /** An empty list prints nothing; a single vector prints as `[ [ a , b , c ] ]`. */
  lemma {:induction false} VecsDataSmall(vecs: seq<seq<real>>, show: real -> string)
    ensures |vecs| == 0 ==> VecsData(vecs, show) == ""
    ensures |vecs| == 1 ==> VecsData(vecs, show) == "[ [ " + Components(vecs[0], show) + " ] ]"
  {
    if |vecs| == 1 {
      assert Accumulate(vecs, 0, show) == "";
    }
  }

  /**
   * The pieces of a list of two or more vectors: the first opens with "[ [ ",
   * the others with "[ ", every piece but the last closes with " ] ,\n ",
   * and the last closes the list with " ] ]", so there are exactly n - 1
   * separators.
   */
  lemma {:induction false} PieceShapes(vecs: seq<seq<real>>, show: real -> string)
    requires |vecs| >= 2
    ensures StartsWith(VecPiece(vecs, 0, show), "[ [ ")
    ensures forall i :: 0 <= i < |vecs| ==> (EndsWith(VecPiece(vecs, i, show), " ] ,\n ") <==> i < |vecs| - 1)
    ensures EndsWith(VecPiece(vecs, |vecs| - 1, show), " ] ]")
  {
    forall i | 0 <= i < |vecs|
      ensures EndsWith(VecPiece(vecs, i, show), " ] ,\n ") <==> i < |vecs| - 1
    {
      var p := VecPiece(vecs, i, show);
      if i == |vecs| - 1 {
        assert p[|p| - 1] == ']';
      }
    }
  }

  /** The first `n` entries of `v`, or all of them when there are fewer. */
  function Head(v: seq<real>, n: nat): seq<real>
  {
    if |v| <= n then v else v[..n]
  }

  /** An entry below `n` prints the same from the whole array and from its first `n` entries. */
  lemma {:induction false} ElemOfHead(v: seq<real>, n: nat, k: nat, show: real -> string)
    requires k < n
    ensures Elem(v, k, show) == Elem(Head(v, n), k, show)
  {
  }

  /** Only components 0, 1 and 2 of each vector reach the text: lists that agree on them print the same. */
  lemma {:induction false} VecsDataUsesFirstThree(a: seq<seq<real>>, b: seq<seq<real>>, show: real -> string)
    requires |a| == |b|
    requires forall i :: 0 <= i < |a| ==> Head(a[i], 3) == Head(b[i], 3)
    ensures VecsData(a, show) == VecsData(b, show)
  {
    forall i | 0 <= i < |a|
      ensures Row(a[i], show) == Row(b[i], show)
    {
      ElemOfHead(a[i], 3, 0, show); ElemOfHead(b[i], 3, 0, show);
      ElemOfHead(a[i], 3, 1, show); ElemOfHead(b[i], 3, 1, show);
      ElemOfHead(a[i], 3, 2, show); ElemOfHead(b[i], 3, 2, show);
    }
    assert Rows(a, show) == Rows(b, show);
    VecsDataIsLayout(a, show);
    VecsDataIsLayout(b, show);
  }

  /** The camera matrix as written: nine entries in three rows of three. */
  function MatrixText(m: seq<real>, show: real -> string): string
  {
    RowOpen + Elem(m, 0, show) + ComponentSep + Elem(m, 1, show) + ComponentSep + Elem(m, 2, show) + RowSep +
    Elem(m, 3, show) + ComponentSep + Elem(m, 4, show) + ComponentSep + Elem(m, 5, show) + RowSep +
    Elem(m, 6, show) + ComponentSep + Elem(m, 7, show) + ComponentSep + Elem(m, 8, show) + RowClose
  }

  /** The distortion coefficients as written: five entries, one per line. */
  function DistortionText(d: seq<real>, show: real -> string): string
  {
    RowOpen + Elem(d, 0, show) + RowSep +
    Elem(d, 1, show) + RowSep +
    Elem(d, 2, show) + RowSep +
    Elem(d, 3, show) + RowSep +
    Elem(d, 4, show) + RowClose
  }

  /** Row `r` of the camera matrix: entries 3r, 3r + 1 and 3r + 2 joined by " , ". */
  function MatrixRow(m: seq<real>, r: nat, show: real -> string): string
  {
    Join([Elem(m, 3 * r, show), Elem(m, 3 * r + 1, show), Elem(m, 3 * r + 2, show)], ComponentSep)
  }

  /** `x` followed by a join of three parts is `x` followed by the parts and separators one by one. */
  lemma {:induction false} AppendJoinThree(x: string, a: string, b: string, c: string, sep: string)
    ensures x + Join([a, b, c], sep) == x + a + sep + b + sep + c
  {
    JoinThree([a, b, c], sep);
    Assoc(x, a + sep + b + sep, c);
    Assoc(x, a + sep + b, sep);
    Assoc(x, a + sep, b);
    Assoc(x, a, sep);
  }

  /**
   * The matrix text is the list of its three rows, row r holding entries
   * 3r .. 3r + 2 joined by " , ", the rows joined by " ,\n ", in one pair of brackets.
   */
  lemma {:induction false} MatrixLayout(m: seq<real>, show: real -> string)
    ensures MatrixText(m, show) ==
      RowOpen + Join([MatrixRow(m, 0, show), MatrixRow(m, 1, show), MatrixRow(m, 2, show)], RowSep) + RowClose
  {
    var e := i requires 0 <= i < 9 => Elem(m, i, show);
    var r0, r1, r2 := MatrixRow(m, 0, show), MatrixRow(m, 1, show), MatrixRow(m, 2, show);
    AppendJoinThree(RowOpen, r0, r1, r2, RowSep);
    AppendJoinThree(RowOpen, e(0), e(1), e(2), ComponentSep);
    AppendJoinThree(RowOpen + r0 + RowSep, e(3), e(4), e(5), ComponentSep);
    AppendJoinThree(RowOpen + r0 + RowSep + r1 + RowSep, e(6), e(7), e(8), ComponentSep);
  }

  /** The distortion text is entries 0 .. 4 joined by " ,\n " in one pair of brackets. */
  lemma {:induction false} DistortionLayout(d: seq<real>, show: real -> string)
    ensures DistortionText(d, show) == RowOpen + Join(Printed(d, 5, show), RowSep) + RowClose
  {
    var p := Printed(d, 5, show);
    var j2 := Join(p[..2], RowSep);
    var j3 := Join(p[..3], RowSep);
    var j4 := Join(p[..4], RowSep);
    assert p[..5] == p;
    assert p[..2][..1] == p[..1];
    assert p[..3][..2] == p[..2];
    assert p[..4][..3] == p[..3];
    assert Join(p[..2][..1], RowSep) == p[0];
    assert j2 == p[0] + RowSep + p[1];
    assert j3 == j2 + RowSep + p[2];
    assert j4 == j3 + RowSep + p[3];
    assert Join(p, RowSep) == j4 + RowSep + p[4];
    Assoc(RowOpen, j4 + RowSep, p[4]);
    Assoc(RowOpen, j4, RowSep);
    Assoc(RowOpen, j3 + RowSep, p[3]);
    Assoc(RowOpen, j3, RowSep);
    Assoc(RowOpen, j2 + RowSep, p[2]);
    Assoc(RowOpen, j2, RowSep);
    Assoc(RowOpen, p[0] + RowSep, p[1]);
    Assoc(RowOpen, p[0], RowSep);
  }

  /** Entries 0 .. count - 1 of `xs`, printed. */
  function Printed(xs: seq<real>, count: nat, show: real -> string): (r: seq<string>)
    ensures |r| == count
    ensures forall i :: 0 <= i < count ==> r[i] == Elem(xs, i, show)
  {
    seq(count, i requires 0 <= i < count => Elem(xs, i, show))
  }

  /** Matrices that agree on entries 0 .. 8, and distortion vectors that agree on entries 0 .. 4, print the same. */
  lemma {:induction false} OnlyLeadingEntriesPrinted(m: seq<real>, m': seq<real>, d: seq<real>, d': seq<real>, show: real -> string)
    ensures Head(m, 9) == Head(m', 9) ==> MatrixText(m, show) == MatrixText(m', show)
    ensures Head(d, 5) == Head(d', 5) ==> DistortionText(d, show) == DistortionText(d', show)
  {
    if Head(m, 9) == Head(m', 9) {
      forall k | 0 <= k < 9 ensures Elem(m, k, show) == Elem(m', k, show) {
        ElemOfHead(m, 9, k, show);
        ElemOfHead(m', 9, k, show);
      }
    }
    if Head(d, 5) == Head(d', 5) {
      forall k | 0 <= k < 5 ensures Elem(d, k, show) == Elem(d', k, show) {
        ElemOfHead(d, 5, k, show);
        ElemOfHead(d', 5, k, show);
      }
    }
  }

  /** The five sections of the transcript, in the order they are written. */
  datatype Section = ErrorSection | MatrixSection | DistortionSection | RotationSection | TranslationSection

  const SectionOrder := [ErrorSection, MatrixSection, DistortionSection, RotationSection, TranslationSection]

  function Rank(k: Section): nat
  {
    match k
    case ErrorSection => 0
    case MatrixSection => 1
    case DistortionSection => 2
    case RotationSection => 3
    case TranslationSection => 4
  }

  const ErrorHeading := "* Error Final de Calibración:\n"
  const MatrixHeading := "* Matriz de Cámara:\n"
  const DistortionHeading := "* Coeficientes de Distorción:\n"
  const RotationHeading := "* Vectores de Rotación:\n"
  const TranslationHeading := "* Vectores de Traslación:\n"
  const BlankLine := "\n\n"

  function Heading(k: Section): string
  {
    match k
    case ErrorSection => ErrorHeading
    case MatrixSection => MatrixHeading
    case DistortionSection => DistortionHeading
    case RotationSection => RotationHeading
    case TranslationSection => TranslationHeading
  }

  /** A section is written when its field is truthy: a non-zero error, a non-null array (even an empty one). */
  predicate Present(f: Fields, k: Section)
  {
    match k
    case ErrorSection => f.rms != 0.0
    case MatrixSection => f.cameraMatrix.Some?
    case DistortionSection => f.distCoeffs.Some?
    case RotationSection => f.rvecs.Some?
    case TranslationSection => f.tvecs.Some?
  }

  function Body(f: Fields, k: Section, show: real -> string): string
  {
    match k
    case ErrorSection => show(f.rms)
    case MatrixSection => MatrixText(f.cameraMatrix.GetOr([]), show)
    case DistortionSection => DistortionText(f.distCoeffs.GetOr([]), show)
    case RotationSection => VecsData(f.rvecs.GetOr([]), show)
    case TranslationSection => VecsData(f.tvecs.GetOr([]), show)
  }

  /** A blank line after every section but the last one. */
  function Trailer(k: Section): string
  {
    if k == TranslationSection then "" else BlankLine
  }

  function Render(f: Fields, k: Section, show: real -> string): string
  {
    Heading(k) + Body(f, k, show) + Trailer(k)
  }

  /** The sections of `ks` whose field is truthy, in the order of `ks`. */
  function Keep(f: Fields, ks: seq<Section>): seq<Section>
  {
    if |ks| == 0 then []
    else Keep(f, ks[..|ks| - 1]) + (if Present(f, ks[|ks| - 1]) then [ks[|ks| - 1]] else [])
  }

  /** The sections the transcript holds. */
  function Sections(f: Fields): seq<Section>
  {
    Keep(f, SectionOrder)
  }

  function Renders(f: Fields, ks: seq<Section>, show: real -> string): (r: seq<string>)
    ensures |r| == |ks|
  {
    if |ks| == 0 then [] else Renders(f, ks[..|ks| - 1], show) + [Render(f, ks[|ks| - 1], show)]
  }

  /** The intended transcript: the rendered present sections, one after the other. */
  function Layout(f: Fields, show: real -> string): string
  {
    Concat(Renders(f, Sections(f), show))
  }

  /** `getCalibrationData`, as written: five guarded appends. */
  function CalibrationData(f: Fields, show: real -> string): string
  {
    var error := if f.rms != 0.0 then ErrorHeading + show(f.rms) + BlankLine else "";
    var matrix := if f.cameraMatrix.Some? then MatrixHeading + MatrixText(f.cameraMatrix.value, show) + BlankLine else "";
    var distortion := if f.distCoeffs.Some? then DistortionHeading + DistortionText(f.distCoeffs.value, show) + BlankLine else "";
    var rotation := if f.rvecs.Some? then RotationHeading + VecsData(f.rvecs.value, show) + BlankLine else "";
    var translation := if f.tvecs.Some? then TranslationHeading + VecsData(f.tvecs.value, show) else "";
    error + matrix + distortion + rotation + translation
  }

  /** Ranks strictly increase along `ks`. */
  predicate Ascending(ks: seq<Section>)
  {
    forall a, b :: 0 <= a < b < |ks| ==> Rank(ks[a]) < Rank(ks[b])
  }

  /** A section is kept exactly when it is listed and present, and kept sections keep ascending ranks. */
  lemma {:induction false} KeepSound(f: Fields, ks: seq<Section>)
    ensures forall k :: k in Keep(f, ks) <==> k in ks && Present(f, k)
    ensures Ascending(ks) ==> Ascending(Keep(f, ks))
    ensures forall k :: k in Keep(f, ks) ==> k in ks
    decreases |ks|
  {
    if |ks| > 0 {
      var init, last := ks[..|ks| - 1], ks[|ks| - 1];
      KeepSound(f, init);
      assert ks == init + [last];
      var rest := Keep(f, init);
      if Ascending(ks) {
        assert Ascending(init);
        forall k | k in rest ensures Rank(k) < Rank(last) {
          var a :| 0 <= a < |init| && init[a] == k;
          assert ks[a] == k;
        }
      }
    }
  }

  /**
   * The transcript's sections: exactly those whose field is truthy, in the
   * fixed order error, matrix, distortion, rotation, translation. A zero error
   * leaves the error section out.
   */
  lemma SectionsPresentInOrder(f: Fields)
    ensures forall k :: k in Sections(f) <==> Present(f, k)
    ensures Ascending(Sections(f))
    ensures ErrorSection in Sections(f) <==> f.rms != 0.0
  {
    KeepSound(f, SectionOrder);
    forall k ensures k in SectionOrder {
      assert SectionOrder[Rank(k)] == k;
    }
  }

  /** Every section but the translation section ends with a blank line; the translation section ends with its vectors. */
  lemma SectionEndings(f: Fields, k: Section, show: real -> string)
    ensures k != TranslationSection ==> EndsWith(Render(f, k, show), "\n\n")
    ensures k == TranslationSection ==> Render(f, k, show) == Heading(k) + VecsData(f.tvecs.GetOr([]), show)
  {
  }

  /** A section's text when its field is truthy, nothing otherwise. */
  function SectionText(f: Fields, k: Section, show: real -> string): string
  {
    if Present(f, k) then Render(f, k, show) else ""
  }

  /** Each listed section's text when present, nothing when not, in order. */
  function Guarded(f: Fields, ks: seq<Section>, show: real -> string): string
  {
    if |ks| == 0 then ""
    else Guarded(f, ks[..|ks| - 1], show) + SectionText(f, ks[|ks| - 1], show)
  }

  /** Concatenating the rendered kept sections is concatenating each listed section's text when present. */
  lemma {:induction false} KeepRenders(f: Fields, ks: seq<Section>, show: real -> string)
    ensures Concat(Renders(f, Keep(f, ks), show)) == Guarded(f, ks, show)
    decreases |ks|
  {
    if |ks| > 0 {
      var init, last := ks[..|ks| - 1], ks[|ks| - 1];
      KeepRenders(f, init, show);
      var rest := Keep(f, init);
      if Present(f, last) {
        var kept := rest + [last];
        assert kept[..|kept| - 1] == rest;
        var r := Renders(f, kept, show);
        assert r[..|r| - 1] == Renders(f, rest, show);
      } else {
        assert Keep(f, ks) == rest;
      }
    }
  }

  /** The guarded text of a prefix one section longer. */
  lemma {:induction false} GuardedPrefix(f: Fields, ks: seq<Section>, i: nat, show: real -> string)
    requires 0 < i <= |ks|
    ensures Guarded(f, ks[..i], show) == Guarded(f, ks[..i - 1], show) + SectionText(f, ks[i - 1], show)
  {
    assert ks[..i][..i - 1] == ks[..i - 1];
  }

  /** Each present section's text, spelled out from its field. */
  lemma {:induction false} RenderPresent(f: Fields, show: real -> string)
    ensures f.rms != 0.0 ==> Render(f, ErrorSection, show) == ErrorHeading + show(f.rms) + BlankLine
    ensures f.cameraMatrix.Some? ==>
      Render(f, MatrixSection, show) == MatrixHeading + MatrixText(f.cameraMatrix.value, show) + BlankLine
    ensures f.distCoeffs.Some? ==>
      Render(f, DistortionSection, show) == DistortionHeading + DistortionText(f.distCoeffs.value, show) + BlankLine
    ensures f.rvecs.Some? ==>
      Render(f, RotationSection, show) == RotationHeading + VecsData(f.rvecs.value, show) + BlankLine
    ensures f.tvecs.Some? ==>
      Render(f, TranslationSection, show) == TranslationHeading + VecsData(f.tvecs.value, show)
  {
    var tr := TranslationHeading + VecsData(f.tvecs.GetOr([]), show);
    assert tr + "" == tr;
  }

  /** The as-written transcript is the intended one: the present sections' texts, in the fixed order. */
  lemma {:induction false} CalibrationDataIsLayout(f: Fields, show: real -> string)
    ensures CalibrationData(f, show) == Layout(f, show)
  {
    KeepRenders(f, SectionOrder, show);
    GuardedOrder(f, show);
    RenderPresent(f, show);
  }

  /** The guarded texts over the fixed order, section by section. */
  lemma {:induction false} GuardedOrder(f: Fields, show: real -> string)
    ensures Guarded(f, SectionOrder, show) ==
      SectionText(f, ErrorSection, show) + SectionText(f, MatrixSection, show) +
      SectionText(f, DistortionSection, show) + SectionText(f, RotationSection, show) +
      SectionText(f, TranslationSection, show)
  {
    GuardedFive(f, SectionOrder, show);
  }

  /** The guarded text of five listed sections, written out. */
  lemma {:induction false} GuardedFive(f: Fields, ks: seq<Section>, show: real -> string)
    requires |ks| == 5
    ensures Guarded(f, ks, show) ==
      SectionText(f, ks[0], show) + SectionText(f, ks[1], show) + SectionText(f, ks[2], show) +
      SectionText(f, ks[3], show) + SectionText(f, ks[4], show)
  {
    GuardedFirst(f, ks, show);
    GuardedPrefix(f, ks, 2, show);
    GuardedPrefix(f, ks, 3, show);
    GuardedPrefix(f, ks, 4, show);
    GuardedPrefix(f, ks, 5, show);
    TakeAll(ks);
  }

  /** The guarded text of a one-section prefix is that section's text. */
  lemma {:induction false} GuardedFirst(f: Fields, ks: seq<Section>, show: real -> string)
    requires |ks| >= 1
    ensures Guarded(f, ks[..1], show) == SectionText(f, ks[0], show)
  {
    assert ks[..1][..0] == [];
  }
}
