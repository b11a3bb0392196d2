/** The element evaluator the circuit simulator calls once per element and
    Newton step: it checks its inputs, selects the polarity from the element
    type, resolves the parameters, evaluates the device and assembles the stamp. */
module Element {
  import opened Parameters
  import opened Device
  import opened Assembly

  datatype Result<T, E> = Success(value: T) | Failure(error: E)

  /** The input errors that abort an evaluation before anything is computed. */
  datatype Error =
    | ParameterCountMismatch  // parameter values and names of different lengths
    | ExternalCountMismatch   // external values not exactly five
    | InternalCountMismatch   // internal values neither empty nor five
    | UnknownElementType      // element type neither NMOS nor PMOS

  /** The checked inputs: polarity, pins and stored charges. */
  datatype Inputs = Inputs(pol: Polarity, ext: External, q: Charges)

  /** The three outputs: dynamic matrix, algebraic matrix and residual. */
  datatype Stamp = Stamp(a: array2<real>, b: array2<real>, c: array<real>)

  /** The input checks, in the order the evaluator makes them; an empty
      internal vector stands for five zero charges. */
  function Validate(eltype: string, values: seq<real>, names: seq<string>, extvar: seq<real>, intvar: seq<real>)
    : (r: Result<Inputs, Error>)
    ensures r.Success? <==>
      |values| == |names| && |extvar| == 5 && (|intvar| == 0 || |intvar| == 5) && eltype in {"NMOS", "PMOS"}
    ensures r == Failure(ParameterCountMismatch) <==> |values| != |names|
    ensures r == Failure(ExternalCountMismatch) <==> |values| == |names| && |extvar| != 5
    ensures r == Failure(InternalCountMismatch) <==>
      |values| == |names| && |extvar| == 5 && |intvar| != 0 && |intvar| != 5
    ensures r.Success? ==>
      r.value.pol == (if eltype == "NMOS" then NType else PType) &&
      r.value.ext == External(extvar[0], extvar[1], extvar[2], extvar[3], extvar[4]) &&
      r.value.q == (if |intvar| == 0 then NoCharge else Charges(intvar[0], intvar[1], intvar[2], intvar[3], intvar[4]))
  {
    if |values| != |names| then Failure(ParameterCountMismatch)
    else if |extvar| != 5 then Failure(ExternalCountMismatch)
    else if |intvar| != 0 && |intvar| != 5 then Failure(InternalCountMismatch)
    else
      var ext := External(extvar[0], extvar[1], extvar[2], extvar[3], extvar[4]);
      var q := if |intvar| == 0 then NoCharge
               else Charges(intvar[0], intvar[1], intvar[2], intvar[3], intvar[4]);
      if eltype == "NMOS" then Success(Inputs(NType, ext, q))
      else if eltype == "PMOS" then Success(Inputs(PType, ext, q))
      else Failure(UnknownElementType)
  }

  /** Every other element type is rejected, once the argument lengths are right. */
  lemma UnknownTypeRejected(eltype: string, values: seq<real>, names: seq<string>, extvar: seq<real>, intvar: seq<real>)
    requires |values| == |names| && |extvar| == 5 && (|intvar| == 0 || |intvar| == 5)
    requires eltype != "NMOS" && eltype != "PMOS"
    ensures Validate(eltype, values, names, extvar, intvar) == Failure(UnknownElementType)
  {
  }

  /** The parameters a polarity evaluates with: its defaults, overridden by name. */
  function ResolvedParams(pol: Polarity, values: seq<real>, names: seq<string>): Params
    requires |names| <= |values|
  {
    Resolve(Defaults(pol), names, values)
  }

  /** The callers' obligation: resolved parameters that divide safely. */
  predicate Evaluable(values: seq<real>, names: seq<string>)
  {
    |names| == |values| ==>
      Physical(ResolvedParams(NType, values, names)) && Physical(ResolvedParams(PType, values, names))
  }

  /** The whole evaluation: check inputs, resolve parameters, evaluate the
      device of the selected polarity and assemble its stamp. Returns the
      stamp, or the first input error, and the unrecognised parameter names. */
  method Evaluate(eltype: string, values: seq<real>, names: seq<string>, extvar: seq<real>, intvar: seq<real>,
                  pow: (real, real) -> real)
    returns (r: Result<Stamp, Error>, warnings: seq<string>)
    requires Evaluable(values, names)
    ensures Validate(eltype, values, names, extvar, intvar).Failure? ==>
      r == Failure(Validate(eltype, values, names, extvar, intvar).error) && warnings == []
    ensures Validate(eltype, values, names, extvar, intvar).Success? ==>
      var input := Validate(eltype, values, names, extvar, intvar).value;
      var prm := ResolvedParams(input.pol, values, names);
      var o := Operate(input.pol, input.ext, prm, pow);
      r.Success? && warnings == UnknownNames(names) &&
      fresh(r.value.a) && fresh(r.value.b) && fresh(r.value.c) &&
      StampHolds(r.value, o, prm, input.ext, input.q)
  {
    warnings := [];
    var checked := Validate(eltype, values, names, extvar, intvar);
    if checked.Failure? {
      return Failure(checked.error), warnings;
    }
    var input := checked.value;
    var prm;
    prm, warnings := SetParameters(values, names, Defaults(input.pol));
    var o := if input.pol == NType then Nmos(input.ext, prm, pow) else Pmos(input.ext, prm, pow);
    var a, b, c := Assemble(o, prm, input.ext, input.q);
    r := Success(Stamp(a, b, c));
  }

  /** The stamp holds, cell by cell, the entries its specification gives. */
  ghost predicate StampHolds(s: Stamp, o: Operating, prm: Params, ext: External, q: Charges)
    reads s.a, s.b, s.c
  {
    s.a.Length0 == N && s.a.Length1 == N && s.b.Length0 == N && s.b.Length1 == N && s.c.Length == N &&
    (forall i, j :: 0 <= i < N && 0 <= j < N ==> s.a[i, j] == DynamicEntry(i, j)) &&
    (forall i, j :: 0 <= i < N && 0 <= j < N ==> s.b[i, j] == AlgebraicEntry(o, prm, i, j)) &&
    (forall i :: 0 <= i < N ==> s.c[i] == ResidualEntry(o, prm, ext, q, i))
  }

  /** A gate below threshold: the n-type device is cut off and only the
      default 1 MOhm drain resistor conducts. */
  lemma CutoffScenario(pow: (real, real) -> real)
    ensures NmosRegion(0.0, 1.0, Defaults(NType).Vth) == Cutoff
    ensures Nmos(External(0.0, 0.0, 1.0, 0.0, 300.0), Defaults(NType), pow).ids == 1e-6
  {
  }

  /** Default n-type device at vgs = 1, vds = 0.4 and the reference
      temperature, where the temperature factor is 1 and k = mu0 * Cox = 1e-14. */
  lemma TriodeScenario(pow: (real, real) -> real)
    requires pow(1.0, -1.5) == 1.0
    ensures NmosRegion(1.0, 0.4, Defaults(NType).Vth) == Triode
    ensures Nmos(External(1.0, 0.0, 0.4, 0.0, 300.0), Defaults(NType), pow).ids == 1e-14 * 0.12 + 4e-7
    ensures Nmos(External(1.0, 0.0, 0.4, 0.0, 300.0), Defaults(NType), pow).gm == 1e-14 * 0.4
  {
    var g := GainAt(NType, Defaults(NType), 300.0, pow);
    assert (300.0 + 0.0) / 300.0 == 1.0;
    assert g.k == 1e-14;
  }

  /** An unknown parameter name leaves every default intact and is reported. */
  lemma UnknownParameterScenario(pol: Polarity, v: real)
    ensures ResolvedParams(pol, [v], ["bogus"]) == Defaults(pol)
    ensures UnknownNames(["bogus"]) == ["bogus"]
  {
    var names: seq<string> := ["bogus"];
    assert names[..0] == [];
    assert Resolve(Defaults(pol), names, [v]) == Apply(Resolve(Defaults(pol), [], [v]), "bogus", v);
    ApplyUnrecognised(Defaults(pol), "bogus", v);
  }
}
