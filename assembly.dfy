/** The element's contribution to the circuit equations A * dx/dt + B * x = c:
    a constant 10x10 dynamic matrix, a 10x10 algebraic matrix that depends on
    the operating point, and a residual of length 10. Rows: 0 charge balance,
    1 and 2 drain current, 3 bulk balance, 4 power, 5..9 the charges of the
    gate-bulk, gate-source, gate-drain, source-bulk and drain-bulk capacitors. */
module Assembly {
  import opened Parameters
  import opened Device

  /** The stored charges: gate-bulk, gate-source, gate-drain, source-bulk, drain-bulk. */
  datatype Charges = Charges(Qgb: real, Qgs: real, Qgd: real, Qsb: real, Qdb: real)

  const NoCharge := Charges(0.0, 0.0, 0.0, 0.0, 0.0)

  /** Size of the stamp. */
  const N := 10

  /** Cell (i, j) of the dynamic matrix; it depends on nothing. */
  function DynamicEntry(i: int, j: int): real
  {
    match (i, j)
    case (0, 5) => 1.0
    case (0, 6) => 1.0
    case (0, 7) => 1.0
    case (1, 6) => -1.0
    case (1, 8) => 1.0
    case (2, 7) => -1.0
    case (2, 9) => 1.0
    case (3, 5) => -1.0
    case (3, 8) => -1.0
    case (3, 9) => -1.0
    case _ => 0.0
  }

  /** Cell (i, j) of the algebraic matrix. */
  function AlgebraicEntry(o: Operating, prm: Params, i: int, j: int): real
  {
    match i
    case 1 =>
      (match j case 0 => -o.gm case 1 => o.gm + o.gd case 2 => -o.gd case 4 => -o.didT case _ => 0.0)
    case 2 =>
      (match j case 0 => o.gm case 1 => -(o.gm + o.gd) case 2 => o.gd case 4 => o.didT case _ => 0.0)
    case 4 =>
      (match j case 0 => o.dPdvgs case 1 => -(o.dPdvgs + o.dPdvds) case 2 => o.dPdvds case 4 => o.dPdT case _ => 0.0)
    case 5 => (match j case 0 => prm.Cgb case 3 => -prm.Cgb case 5 => -1.0 case _ => 0.0)
    case 6 => (match j case 0 => prm.Cgs case 1 => -prm.Cgs case 6 => -1.0 case _ => 0.0)
    case 7 => (match j case 0 => prm.Cgd case 2 => -prm.Cgd case 7 => -1.0 case _ => 0.0)
    case 8 => (match j case 1 => prm.Csb case 3 => -prm.Csb case 8 => -1.0 case _ => 0.0)
    case 9 => (match j case 2 => prm.Cdb case 3 => -prm.Cdb case 9 => -1.0 case _ => 0.0)
    case _ => 0.0
  }

  /** Entry i of the residual. */
  function ResidualEntry(o: Operating, prm: Params, ext: External, q: Charges, i: int): real
  {
    match i
    case 1 => -o.ids
    case 2 => o.ids
    case 4 => o.P
    case 5 => prm.Cgb * (ext.vg - ext.vb) - q.Qgb
    case 6 => prm.Cgs * (ext.vg - ext.vs) - q.Qgs
    case 7 => prm.Cgd * (ext.vg - ext.vd) - q.Qgd
    case 8 => prm.Csb * (ext.vs - ext.vb) - q.Qsb
    case 9 => prm.Cdb * (ext.vd - ext.vb) - q.Qdb
    case _ => 0.0
  }

  /** The three outputs, each allocated zero-filled and written cell by cell. */
  method Assemble(o: Operating, prm: Params, ext: External, q: Charges)
    returns (a: array2<real>, b: array2<real>, c: array<real>)
    ensures fresh(a) && fresh(b) && fresh(c)
    ensures a.Length0 == N && a.Length1 == N && b.Length0 == N && b.Length1 == N && c.Length == N
    ensures forall i, j :: 0 <= i < N && 0 <= j < N ==> a[i, j] == DynamicEntry(i, j)
    ensures forall i, j :: 0 <= i < N && 0 <= j < N ==> b[i, j] == AlgebraicEntry(o, prm, i, j)
    ensures forall i :: 0 <= i < N ==> c[i] == ResidualEntry(o, prm, ext, q, i)
  {
    a := DynamicMatrix();
    b := AlgebraicMatrix(o, prm);
    c := Residual(o, prm, ext, q);
  }

  /** The dynamic matrix (constant). */
  method DynamicMatrix() returns (a: array2<real>)
    ensures fresh(a) && a.Length0 == N && a.Length1 == N
    ensures forall i, j :: 0 <= i < N && 0 <= j < N ==> a[i, j] == DynamicEntry(i, j)
  {
    a := new real[N, N]((i, j) => 0.0);
    a[0, 5] := 1.0;
    a[0, 6] := 1.0;
    a[0, 7] := 1.0;
    a[1, 6] := -1.0;
    a[1, 8] := 1.0;
    a[2, 7] := -1.0;
    a[2, 9] := 1.0;
    a[3, 5] := -1.0;
    a[3, 8] := -1.0;
    a[3, 9] := -1.0;
  }

  /** The algebraic part: the current and power rows, then the charge rows. */
  method AlgebraicMatrix(o: Operating, prm: Params) returns (b: array2<real>)
    ensures fresh(b) && b.Length0 == N && b.Length1 == N
    ensures forall i, j :: 0 <= i < N && 0 <= j < N ==> b[i, j] == AlgebraicEntry(o, prm, i, j)
  {
    b := new real[N, N]((i, j) => 0.0);
    CurrentRows(b, o, prm);
    ChargeRows(b, o, prm);
  }

  /** Rows 1, 2 and 4: drain current and power, non-linear in the operating point. */
  method CurrentRows(b: array2<real>, o: Operating, prm: Params)
    requires b.Length0 == N && b.Length1 == N
    requires forall i, j :: 0 <= i < 5 && 0 <= j < N ==> b[i, j] == 0.0
    modifies b
    ensures forall i, j :: 0 <= i < 5 && 0 <= j < N ==> b[i, j] == AlgebraicEntry(o, prm, i, j)
    ensures forall i, j :: 5 <= i < N && 0 <= j < N ==> b[i, j] == old(b[i, j])
  {
    b[1, 0] := -o.gm;
    b[1, 1] := o.gm + o.gd;
    b[1, 2] := -o.gd;
    b[1, 4] := -o.didT;
    b[2, 0] := o.gm;
    b[2, 1] := -(o.gm + o.gd);
    b[2, 2] := o.gd;
    b[2, 4] := o.didT;
    b[4, 0] := o.dPdvgs;
    b[4, 1] := -(o.dPdvgs + o.dPdvds);
    b[4, 2] := o.dPdvds;
    b[4, 4] := o.dPdT;
    forall i, j | 0 <= i < 5 && 0 <= j < N ensures b[i, j] == AlgebraicEntry(o, prm, i, j) {
      if j == 0 {
      } else if j == 1 {
      } else if j == 2 {
      } else if j == 4 {
      } else {
        assert b[i, j] == 0.0;
      }
    }
  }

  /** Rows 5..9: one per capacitor. */
  method ChargeRows(b: array2<real>, o: Operating, prm: Params)
    requires b.Length0 == N && b.Length1 == N
    requires forall i, j :: 5 <= i < N && 0 <= j < N ==> b[i, j] == 0.0
    modifies b
    ensures forall i, j :: 5 <= i < N && 0 <= j < N ==> b[i, j] == AlgebraicEntry(o, prm, i, j)
    ensures forall i, j :: 0 <= i < 5 && 0 <= j < N ==> b[i, j] == old(b[i, j])
  {
    b[5, 0] := prm.Cgb;
    b[5, 3] := -prm.Cgb;
    b[6, 0] := prm.Cgs;
    b[6, 1] := -prm.Cgs;
    b[7, 0] := prm.Cgd;
    b[7, 2] := -prm.Cgd;
    b[8, 1] := prm.Csb;
    b[8, 3] := -prm.Csb;
    b[9, 2] := prm.Cdb;
    b[9, 3] := -prm.Cdb;

    b[5, 5] := -1.0;
    b[6, 6] := -1.0;
    b[7, 7] := -1.0;
    b[8, 8] := -1.0;
    b[9, 9] := -1.0;
    forall i, j | 5 <= i < N && 0 <= j < N ensures b[i, j] == AlgebraicEntry(o, prm, i, j) {
      if j == i {
      } else if i == 5 {
        if j != 0 && j != 3 { assert b[i, j] == 0.0; }
      } else if i == 6 {
        if j != 0 && j != 1 { assert b[i, j] == 0.0; }
      } else if i == 7 {
        if j != 0 && j != 2 { assert b[i, j] == 0.0; }
      } else if i == 8 {
        if j != 1 && j != 3 { assert b[i, j] == 0.0; }
      } else {
        if j != 2 && j != 3 { assert b[i, j] == 0.0; }
      }
    }
  }

  /** The residual; entry 3 keeps its initial zero. */
  method Residual(o: Operating, prm: Params, ext: External, q: Charges) returns (c: array<real>)
    ensures fresh(c) && c.Length == N
    ensures forall i :: 0 <= i < N ==> c[i] == ResidualEntry(o, prm, ext, q, i)
  {
    c := new real[N](i => 0.0);
    c[0] := 0.0;
    c[1] := -o.ids;
    c[2] := o.ids;
    c[4] := o.P;
    c[5] := prm.Cgb * (ext.vg - ext.vb) - q.Qgb;
    c[6] := prm.Cgs * (ext.vg - ext.vs) - q.Qgs;
    c[7] := prm.Cgd * (ext.vg - ext.vd) - q.Qgd;
    c[8] := prm.Csb * (ext.vs - ext.vb) - q.Qsb;
    c[9] := prm.Cdb * (ext.vd - ext.vb) - q.Qdb;
    forall i | 0 <= i < N ensures c[i] == ResidualEntry(o, prm, ext, q, i) {
      if i == 3 {
        assert c[3] == 0.0;
      }
    }
  }

  /** The cells of the dynamic matrix that are not zero. */
  function DynamicSupport(): set<(int, int)>
  {
    set i, j | 0 <= i < N && 0 <= j < N && DynamicEntry(i, j) != 0.0 :: (i, j)
  }

  /** The dynamic matrix has exactly ten nonzero cells. */
  lemma DynamicHasTenEntries()
    ensures |DynamicSupport()| == 10
  {
    var display := {(0, 5), (0, 6), (0, 7), (1, 6), (1, 8), (2, 7), (2, 9), (3, 5), (3, 8), (3, 9)};
    assert DynamicSupport() == display;
  }

  /** Each node's charge balance: column sums of the dynamic matrix, taken over
      the charge columns, are zero (each charge enters once with +1, once with -1). */
  lemma DynamicChargeColumnsBalance(j: int)
    requires 5 <= j < N
    ensures DynamicEntry(0, j) + DynamicEntry(1, j) + DynamicEntry(2, j) + DynamicEntry(3, j) == 0.0
  {
  }

  /** Row 2 of the algebraic matrix and entry 2 of the residual are the
      negation of row 1 and entry 1: equal and opposite drain currents. */
  lemma DrainRowsOpposite(o: Operating, prm: Params, ext: External, q: Charges)
    ensures forall j :: AlgebraicEntry(o, prm, 2, j) == -AlgebraicEntry(o, prm, 1, j)
    ensures ResidualEntry(o, prm, ext, q, 1) == -ResidualEntry(o, prm, ext, q, 2)
  {
  }

  /** The current and power rows depend on voltage differences only: each of
      rows 1, 2 and 4 sums to zero over the gate, source and drain columns. */
  lemma VoltageRowsSumToZero(o: Operating, prm: Params, i: int)
    requires i in {1, 2, 4}
    ensures AlgebraicEntry(o, prm, i, 0) + AlgebraicEntry(o, prm, i, 1) + AlgebraicEntry(o, prm, i, 2) == 0.0
  {
  }

  /** Row 3 of the algebraic matrix and entries 0 and 3 of the residual are zero. */
  lemma BulkRowZero(o: Operating, prm: Params, ext: External, q: Charges)
    ensures forall j :: AlgebraicEntry(o, prm, 3, j) == 0.0
    ensures ResidualEntry(o, prm, ext, q, 0) == 0.0 && ResidualEntry(o, prm, ext, q, 3) == 0.0
  {
  }

  /** The sum of the products of the first n corresponding entries. */
  function Dot(u: seq<real>, v: seq<real>, n: nat): real
    requires n <= |u| == |v|
  {
    if n == 0 then 0.0 else Dot(u, v, n - 1) + u[n - 1] * v[n - 1]
  }

  /** Row i of the algebraic matrix. */
  function AlgebraicRow(o: Operating, prm: Params, i: int): seq<real>
  {
    seq(N, j => AlgebraicEntry(o, prm, i, j))
  }

  /** The state vector: the five external values followed by the five charges. */
  function State(ext: External, q: Charges): seq<real>
  {
    [ext.vg, ext.vs, ext.vd, ext.vb, ext.T, q.Qgb, q.Qgs, q.Qgd, q.Qsb, q.Qdb]
  }

  /** The charge rows are linear: each carries -1 on its own charge, and its
      residual is exactly that row of the algebraic matrix applied to the state. */
  lemma ChargeRowsLinear(o: Operating, prm: Params, ext: External, q: Charges, i: int)
    requires 5 <= i < N
    ensures AlgebraicEntry(o, prm, i, i) == -1.0
    ensures ResidualEntry(o, prm, ext, q, i) == Dot(AlgebraicRow(o, prm, i), State(ext, q), N)
  {
    var x, r := State(ext, q), AlgebraicRow(o, prm, i);
    DotTen(r, x);
    if i == 5 {
      assert ResidualEntry(o, prm, ext, q, i) == r[0] * x[0] + r[3] * x[3] + r[5] * x[5];
    } else if i == 6 {
      assert ResidualEntry(o, prm, ext, q, i) == r[0] * x[0] + r[1] * x[1] + r[6] * x[6];
    } else if i == 7 {
      assert ResidualEntry(o, prm, ext, q, i) == r[0] * x[0] + r[2] * x[2] + r[7] * x[7];
    } else if i == 8 {
      assert ResidualEntry(o, prm, ext, q, i) == r[1] * x[1] + r[3] * x[3] + r[8] * x[8];
    } else {
      assert ResidualEntry(o, prm, ext, q, i) == r[2] * x[2] + r[3] * x[3] + r[9] * x[9];
    }
  }

  /** A product of two ten-entry vectors, written out term by term. */
  lemma DotTen(u: seq<real>, v: seq<real>)
    requires |u| == |v| == N
    ensures Dot(u, v, N) ==
      u[0] * v[0] + u[1] * v[1] + u[2] * v[2] + u[3] * v[3] + u[4] * v[4] +
      u[5] * v[5] + u[6] * v[6] + u[7] * v[7] + u[8] * v[8] + u[9] * v[9]
  {
    assert Dot(u, v, 1) == u[0] * v[0];
    assert Dot(u, v, 2) == Dot(u, v, 1) + u[1] * v[1];
    assert Dot(u, v, 3) == Dot(u, v, 2) + u[2] * v[2];
    assert Dot(u, v, 4) == Dot(u, v, 3) + u[3] * v[3];
    assert Dot(u, v, 5) == Dot(u, v, 4) + u[4] * v[4];
    assert Dot(u, v, 6) == Dot(u, v, 5) + u[5] * v[5];
    assert Dot(u, v, 7) == Dot(u, v, 6) + u[6] * v[6];
    assert Dot(u, v, 8) == Dot(u, v, 7) + u[7] * v[7];
    assert Dot(u, v, 9) == Dot(u, v, 8) + u[8] * v[8];
  }

  /** With no stored charge the charge rows are capacitance times voltage. */
  lemma UnchargedResidual(o: Operating, prm: Params, ext: External)
    ensures ResidualEntry(o, prm, ext, NoCharge, 5) == prm.Cgb * (ext.vg - ext.vb)
    ensures ResidualEntry(o, prm, ext, NoCharge, 6) == prm.Cgs * (ext.vg - ext.vs)
    ensures ResidualEntry(o, prm, ext, NoCharge, 7) == prm.Cgd * (ext.vg - ext.vd)
    ensures ResidualEntry(o, prm, ext, NoCharge, 8) == prm.Csb * (ext.vs - ext.vb)
    ensures ResidualEntry(o, prm, ext, NoCharge, 9) == prm.Cdb * (ext.vd - ext.vb)
  {
  }
}
