/** Model parameters of the simplified Shichman-Hodges MOSFET: the per-polarity
    defaults and the override loop that replaces defaults by named values. */
module Parameters {

  datatype Option<T> = None | Some(value: T)

  /** The two device polarities the element evaluator knows. */
  datatype Polarity = NType | PType

  /** The twelve model parameters, in the order the override routine takes them. */
  datatype Params = Params(
    rd: real, W: real, L: real, mu0: real, Vth: real, Cox: real,
    Cgs: real, Cgd: real, Cgb: real, Csb: real, Cdb: real, Tshift: real)

  /** One recognised parameter name each. */
  datatype Field = Rd | W | L | Mu0 | Vth | Cox | Cgs | Cgd | Cgb | Csb | Cdb | Tshift

  /** The name under which a field is overridden. */
  function FieldName(f: Field): string
  {
    match f
    case Rd => "rd"
    case W => "W"
    case L => "L"
    case Mu0 => "mu0"
    case Vth => "Vth"
    case Cox => "Cox"
    case Cgs => "Cgs"
    case Cgd => "Cgd"
    case Cgb => "Cgb"
    case Csb => "Csb"
    case Cdb => "Cdb"
    case Tshift => "Tshift"
  }

  /** The field a name denotes, if any: the inverse of FieldName. */
  function FieldOf(name: string): (r: Option<Field>)
    ensures r.Some? ==> FieldName(r.value) == name
    ensures r.None? ==> forall f: Field :: FieldName(f) != name
  {
    if name == "rd" then Some(Rd)
    else if name == "W" then Some(W)
    else if name == "L" then Some(L)
    else if name == "mu0" then Some(Mu0)
    else if name == "Vth" then Some(Vth)
    else if name == "Cox" then Some(Cox)
    else if name == "Cgs" then Some(Cgs)
    else if name == "Cgd" then Some(Cgd)
    else if name == "Cgb" then Some(Cgb)
    else if name == "Csb" then Some(Csb)
    else if name == "Cdb" then Some(Cdb)
    else if name == "Tshift" then Some(Tshift)
    else None
  }

  lemma FieldNameRoundTrip(f: Field)
    ensures FieldOf(FieldName(f)) == Some(f)
  {
  }

  /** The value a parameter set holds for one field. */
  function Get(p: Params, f: Field): real
  {
    match f
    case Rd => p.rd
    case W => p.W
    case L => p.L
    case Mu0 => p.mu0
    case Vth => p.Vth
    case Cox => p.Cox
    case Cgs => p.Cgs
    case Cgd => p.Cgd
    case Cgb => p.Cgb
    case Csb => p.Csb
    case Cdb => p.Cdb
    case Tshift => p.Tshift
  }

  /** Two parameter sets that agree on every field are equal. */
  lemma FieldsDetermineParams(p: Params, q: Params)
    requires forall f: Field :: Get(p, f) == Get(q, f)
    ensures p == q
  {
    assert Get(p, Rd) == Get(q, Rd) && Get(p, W) == Get(q, W) && Get(p, L) == Get(q, L);
    assert Get(p, Mu0) == Get(q, Mu0) && Get(p, Vth) == Get(q, Vth) && Get(p, Cox) == Get(q, Cox);
    assert Get(p, Cgs) == Get(q, Cgs) && Get(p, Cgd) == Get(q, Cgd) && Get(p, Cgb) == Get(q, Cgb);
    assert Get(p, Csb) == Get(q, Csb) && Get(p, Cdb) == Get(q, Cdb) && Get(p, Tshift) == Get(q, Tshift);
  }

  /** Default parameters of each polarity; the capacitances are derived from
      the default oxide capacitance before any override is applied. */
  function Defaults(pol: Polarity): Params
  {
    var cox := 1e-9;
    Params(
      rd := 1e6, W := 1.0, L := 1.0, mu0 := 1e-5,
      Vth := if pol == NType then 0.5 else -0.5,
      Cox := cox, Cgs := 0.1 * cox, Cgd := 0.1 * cox, Cgb := cox,
      Csb := 0.1 * cox, Cdb := 0.1 * cox, Tshift := 0.0)
  }

  /** The two polarities' defaults differ in the threshold voltage only. */
  lemma DefaultsDifferOnlyInVth()
    ensures Defaults(NType).Vth == 0.5 && Defaults(PType).Vth == -0.5
    ensures forall f: Field :: f != Vth ==> Get(Defaults(NType), f) == Get(Defaults(PType), f)
  {
  }

  /** The default capacitances: gate-bulk equals the oxide capacitance, the
      other four are a tenth of it. */
  lemma DefaultCapacitances(pol: Polarity)
    ensures Defaults(pol).Cox == 1e-9
    ensures Defaults(pol).Cgb == Defaults(pol).Cox
    ensures Defaults(pol).Cgs == Defaults(pol).Cgd == Defaults(pol).Csb == Defaults(pol).Cdb == 1e-10
  {
  }

  /** One step of the override loop: the name selects at most one field. */
  function Apply(p: Params, name: string, v: real): Params
  {
    match FieldOf(name)
    case None => p
    case Some(f) => Set(p, f, v)
  }

  /** The parameter set with one field replaced. */
  function Set(p: Params, f: Field, v: real): (q: Params)
    ensures Get(q, f) == v
    ensures forall g: Field :: g != f ==> Get(q, g) == Get(p, g)
  {
    match f
    case Rd => p.(rd := v)
    case W => p.(W := v)
    case L => p.(L := v)
    case Mu0 => p.(mu0 := v)
    case Vth => p.(Vth := v)
    case Cox => p.(Cox := v)
    case Cgs => p.(Cgs := v)
    case Cgd => p.(Cgd := v)
    case Cgb => p.(Cgb := v)
    case Csb => p.(Csb := v)
    case Cdb => p.(Cdb := v)
    case Tshift => p.(Tshift := v)
  }

  /** A recognised name overwrites its own field and leaves the other eleven alone. */
  lemma ApplyRecognised(p: Params, name: string, v: real)
    requires FieldOf(name).Some?
    ensures Get(Apply(p, name, v), FieldOf(name).value) == v
    ensures forall g: Field :: g != FieldOf(name).value ==> Get(Apply(p, name, v), g) == Get(p, g)
  {
  }

  /** An unrecognised name changes nothing. */
  lemma ApplyUnrecognised(p: Params, name: string, v: real)
    requires FieldOf(name).None?
    ensures Apply(p, name, v) == p
  {
  }

  /** The effect of one step on one field. */
  lemma ApplyField(p: Params, name: string, v: real, f: Field)
    ensures Get(Apply(p, name, v), f) == if FieldOf(name) == Some(f) then v else Get(p, f)
  {
    if FieldOf(name).Some? {
      ApplyRecognised(p, name, v);
    }
  }

  /** The parameter set after applying the first |names| overrides in order. */
  function Resolve(init: Params, names: seq<string>, values: seq<real>): Params
    requires |names| <= |values|
  {
    if |names| == 0 then init
    else
      var n := |names| - 1;
      Apply(Resolve(init, names[..n], values), names[n], values[n])
  }

  /** A field no override names keeps its initial value. */
  lemma {:induction false} ResolveUntouched(init: Params, names: seq<string>, values: seq<real>, f: Field)
    requires |names| <= |values|
    requires forall k :: 0 <= k < |names| ==> FieldOf(names[k]) != Some(f)
    ensures Get(Resolve(init, names, values), f) == Get(init, f)
  {
    if |names| > 0 {
      var n := |names| - 1;
      ResolveUntouched(init, names[..n], values, f);
      ApplyField(Resolve(init, names[..n], values), names[n], values[n], f);
    }
  }

  /** When a field is named several times, the value of its last occurrence wins. */
  lemma {:induction false} ResolveLastWins(init: Params, names: seq<string>, values: seq<real>, f: Field, j: int)
    requires |names| <= |values|
    requires 0 <= j < |names| && FieldOf(names[j]) == Some(f)
    requires forall k :: j < k < |names| ==> FieldOf(names[k]) != Some(f)
    ensures Get(Resolve(init, names, values), f) == values[j]
  {
    var n := |names| - 1;
    ApplyField(Resolve(init, names[..n], values), names[n], values[n], f);
    if j < n {
      ResolveLastWins(init, names[..n], values, f, j);
    }
  }

  /** Unrecognised names can be dropped from the override list without effect. */
  lemma {:induction false} ResolveIgnoresUnknown(init: Params, names: seq<string>, values: seq<real>, name: string, v: real)
    requires |names| <= |values|
    requires FieldOf(name).None?
    ensures Resolve(init, names + [name], values[..|names|] + [v]) == Resolve(init, names, values)
  {
    var names', values' := names + [name], values[..|names|] + [v];
    assert names'[..|names|] == names;
    ResolvePrefixValues(init, names, values, values');
    ApplyUnrecognised(Resolve(init, names, values), name, v);
  }

  /** Only the values paired with a name matter to the result. */
  lemma {:induction false} ResolvePrefixValues(init: Params, names: seq<string>, values: seq<real>, values': seq<real>)
    requires |names| <= |values| && |names| <= |values'|
    requires values[..|names|] == values'[..|names|]
    ensures Resolve(init, names, values) == Resolve(init, names, values')
  {
    if |names| > 0 {
      var n := |names| - 1;
      assert values[n] == values[..|names|][n];
      assert values'[n] == values'[..|names|][n];
      assert values[..n] == values[..|names|][..n];
      assert values'[..n] == values'[..|names|][..n];
      ResolvePrefixValues(init, names[..n], values, values');
    }
  }

  /** Overriding Cox does not rescale the capacitances derived from it: unless
      named themselves, they keep the values computed from the default Cox. */
  lemma CoxOverrideKeepsCapacitances(pol: Polarity, names: seq<string>, values: seq<real>)
    requires |names| <= |values|
    requires forall k :: 0 <= k < |names| ==> names[k] !in {"Cgs", "Cgd", "Cgb", "Csb", "Cdb"}
    ensures Resolve(Defaults(pol), names, values).Cgb == 1e-9
    ensures Resolve(Defaults(pol), names, values).Cgs == 1e-10
    ensures Resolve(Defaults(pol), names, values).Cgd == 1e-10
    ensures Resolve(Defaults(pol), names, values).Csb == 1e-10
    ensures Resolve(Defaults(pol), names, values).Cdb == 1e-10
  {
    forall f: Field | f in {Cgs, Cgd, Cgb, Csb, Cdb}
      ensures Get(Resolve(Defaults(pol), names, values), f) == Get(Defaults(pol), f)
    {
      forall k | 0 <= k < |names| ensures FieldOf(names[k]) != Some(f) {
        assert names[k] != FieldName(f);
      }
      ResolveUntouched(Defaults(pol), names, values, f);
    }
  }

  /** Whatever the overrides, the two polarities' resolved parameters differ in
      the threshold voltage only. */
  lemma {:induction false} ResolvedDifferOnlyInVth(names: seq<string>, values: seq<real>, f: Field)
    requires |names| <= |values|
    requires f != Vth
    ensures Get(Resolve(Defaults(NType), names, values), f) == Get(Resolve(Defaults(PType), names, values), f)
  {
    if |names| == 0 {
      DefaultsDifferOnlyInVth();
    } else {
      var n := |names| - 1;
      ResolvedDifferOnlyInVth(names[..n], values, f);
      ApplyField(Resolve(Defaults(NType), names[..n], values), names[n], values[n], f);
      ApplyField(Resolve(Defaults(PType), names[..n], values), names[n], values[n], f);
    }
  }

  /** Hence the resolved p-type parameters are the resolved n-type ones with
      the p-type threshold. */
  lemma ResolvedPolaritiesAgree(names: seq<string>, values: seq<real>)
    requires |names| <= |values|
    ensures Resolve(Defaults(PType), names, values) ==
      Resolve(Defaults(NType), names, values).(Vth := Resolve(Defaults(PType), names, values).Vth)
  {
    var p, n := Resolve(Defaults(PType), names, values), Resolve(Defaults(NType), names, values);
    forall f: Field ensures Get(p, f) == Get(n.(Vth := p.Vth), f) {
      if f != Vth {
        ResolvedDifferOnlyInVth(names, values, f);
      }
    }
    FieldsDetermineParams(p, n.(Vth := p.Vth));
  }

  /** The names the override loop warns about, in order. */
  function UnknownNames(names: seq<string>): (r: seq<string>)
    ensures forall s :: s in r <==> s in names && FieldOf(s).None?
  {
    if |names| == 0 then []
    else
      var n := |names| - 1;
      UnknownNames(names[..n]) + (if FieldOf(names[n]).None? then [names[n]] else [])
  }

  /** Walks the names and values in parallel and overwrites the field each
      recognised name selects; an unknown name is only reported. */
  method SetParameters(values: seq<real>, names: seq<string>, init: Params) returns (p: Params, unknown: seq<string>)
    requires |names| <= |values|
    ensures p == Resolve(init, names, values)
    ensures unknown == UnknownNames(names)
  {
    p, unknown := init, [];
    var i := 0;
    while i < |names|
      invariant 0 <= i <= |names|
      invariant p == Resolve(init, names[..i], values)
      invariant unknown == UnknownNames(names[..i])
    {
      var name := names[i];
      if name == "rd" {
        p := p.(rd := values[i]);
      } else if name == "W" {
        p := p.(W := values[i]);
      } else if name == "L" {
        p := p.(L := values[i]);
      } else if name == "mu0" {
        p := p.(mu0 := values[i]);
      } else if name == "Vth" {
        p := p.(Vth := values[i]);
      } else if name == "Cox" {
        p := p.(Cox := values[i]);
      } else if name == "Cgs" {
        p := p.(Cgs := values[i]);
      } else if name == "Cgd" {
        p := p.(Cgd := values[i]);
      } else if name == "Cgb" {
        p := p.(Cgb := values[i]);
      } else if name == "Csb" {
        p := p.(Csb := values[i]);
      } else if name == "Cdb" {
        p := p.(Cdb := values[i]);
      } else if name == "Tshift" {
        p := p.(Tshift := values[i]);
      } else {
        unknown := unknown + [name];
      }
      assert names[..i + 1][..i] == names[..i];
      i := i + 1;
    }
    assert names[..i] == names;
  }
}
