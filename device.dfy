/** Operating-point evaluation of the simplified Shichman-Hodges MOSFET:
    region selection and the closed-form drain current, conductances,
    temperature sensitivity and power, for the n-type and p-type device. */
module Device {
  import opened Parameters

  /** The external pins: gate, source, drain and bulk voltages and the temperature. */
  datatype External = External(vg: real, vs: real, vd: real, vb: real, T: real)

  /** The four branches of region selection, in the order they are tested. */
  datatype Region = Cutoff | Triode | Reverse | Saturation

  /** Drain current with its transconductance, output conductance and temperature derivative. */
  datatype Currents = Currents(gm: real, gd: real, ids: real, didT: real)

  /** Everything the evaluator computes at one operating point. */
  datatype Operating = Operating(
    gm: real, gd: real, ids: real, didT: real,
    P: real, dPdT: real, dPdvgs: real, dPdvds: real)

  /** The gain factor k and its temperature derivative. */
  datatype Gain = Gain(k: real, dkdT: real)

  /** Parameter sets the evaluator can divide by: a zero drain resistance or
      channel length would give an infinite quantity. */
  predicate Physical(prm: Params)
  {
    prm.rd != 0.0 && prm.L != 0.0
  }

  function Sign(pol: Polarity): real
  {
    if pol == NType then 1.0 else -1.0
  }

  /** The temperature-scaled gain; `pow` stands for the floating-point power
      function of the C library, which this model does not define. */
  function GainAt(pol: Polarity, prm: Params, T: real, pow: (real, real) -> real): Gain
    requires prm.L != 0.0
  {
    var theta := (T + prm.Tshift) / 300.0;
    Gain(
      Sign(pol) * (prm.mu0 * prm.Cox * pow(theta, -1.5) * prm.W / prm.L),
      Sign(pol) * (prm.mu0 * prm.Cox * prm.W * (-1.5) * pow(theta, -2.5) * (1.0 / 300.0) / prm.L))
  }

  /** The p-type gain is the n-type gain negated, for the same parameters. */
  lemma PmosGainNegated(prm: Params, T: real, pow: (real, real) -> real)
    requires prm.L != 0.0
    ensures GainAt(PType, prm, T, pow).k == -GainAt(NType, prm, T, pow).k
    ensures GainAt(PType, prm, T, pow).dkdT == -GainAt(NType, prm, T, pow).dkdT
  {
  }

  /** The n-type region selection, stated as four disjoint conditions that
      cover every operating point. */
  function NmosRegion(vgs: real, vds: real, Vth: real): (r: Region)
    ensures r == Cutoff <==> vgs < Vth
    ensures r == Triode <==> Vth <= vgs && 0.0 <= vds <= vgs - Vth
    ensures r == Reverse <==> Vth <= vgs && vds < 0.0
    ensures r == Saturation <==> 0.0 <= vgs - Vth < vds
  {
    if vgs < Vth then Cutoff
    else if vgs - Vth >= vds && vds >= 0.0 then Triode
    else if vgs - Vth >= vds && vds < 0.0 then Reverse
    else Saturation
  }

  /** The p-type region selection: every comparison of the n-type one reversed. */
  function PmosRegion(vgs: real, vds: real, Vth: real): (r: Region)
    ensures r == Cutoff <==> vgs > Vth
    ensures r == Triode <==> vgs <= Vth && vgs - Vth <= vds <= 0.0
    ensures r == Reverse <==> vgs <= Vth && vds > 0.0
    ensures r == Saturation <==> vds < vgs - Vth <= 0.0
  {
    if vgs > Vth then Cutoff
    else if vgs - Vth <= vds && vds <= 0.0 then Triode
    else if vgs - Vth <= vds && vds > 0.0 then Reverse
    else Saturation
  }

  /** The p-type regions are the n-type regions of the negated voltages. */
  lemma PmosRegionMirrors(vgs: real, vds: real, Vth: real)
    ensures PmosRegion(vgs, vds, Vth) == NmosRegion(-vgs, -vds, -Vth)
  {
  }

  /** Cutoff (and reverse): only the drain resistor conducts. */
  function CutoffCurrents(vds: real, rd: real): (c: Currents)
    requires rd != 0.0
    ensures c.ids == vds / rd
  {
    var gd := 1.0 / rd;
    Currents(gm := 0.0, gd := gd, ids := vds * gd, didT := 0.0)
  }

  /** Triode: the channel current depends on both vgs and vds. */
  function TriodeCurrents(g: Gain, vov: real, vds: real, rd: real): Currents
    requires rd != 0.0
  {
    Currents(
      gm := g.k * vds,
      gd := g.k * (vov - vds) + 1.0 / rd,
      ids := g.k * (vov * vds - vds * vds / 2.0) + vds / rd,
      didT := g.dkdT * (vov * vds - vds * vds / 2.0))
  }

  /** Saturation: the channel current depends on the overdrive vov = vgs - Vth only. */
  function SaturationCurrents(g: Gain, vov: real, vds: real, rd: real): Currents
    requires rd != 0.0
  {
    Currents(
      gm := g.k * vov,
      gd := 1.0 / rd,
      ids := (g.k / 2.0) * (vov * vov) + vds / rd,
      didT := (g.dkdT / 2.0) * (vov * vov))
  }

  /** The power terms common to both polarities. */
  function WithPower(c: Currents, vds: real): Operating
  {
    Operating(c.gm, c.gd, c.ids, c.didT,
      -c.ids * vds, -c.didT * vds, -c.gm * vds, -(c.gd * vds + c.ids))
  }

  /** The power terms are the derivatives of P = -ids * vds: moving ids along
      its slope gm (in vgs) or didT (in T) moves P along dPdvgs or dPdT
      exactly; moving vds by h, with ids moving along gd, moves P along
      dPdvds up to the second-order term gd * h * h. */
  lemma PowerSlopes(c: Currents, vds: real, h: real)
    ensures -(c.ids + c.gm * h) * vds == WithPower(c, vds).P + h * WithPower(c, vds).dPdvgs
    ensures -(c.ids + c.didT * h) * vds == WithPower(c, vds).P + h * WithPower(c, vds).dPdT
    ensures -(c.ids + c.gd * h) * (vds + h) == WithPower(c, vds).P + h * WithPower(c, vds).dPdvds - c.gd * h * h
  {
  }

  /** The triode conductances and temperature slope are the derivatives of
      the triode current: exact in the overdrive and in the gain, up to the
      quadratic term -k * h * h / 2 in vds. */
  lemma TriodeSlopes(g: Gain, vov: real, vds: real, rd: real, h: real)
    requires rd != 0.0
    ensures TriodeCurrents(g, vov + h, vds, rd).ids - TriodeCurrents(g, vov, vds, rd).ids ==
      h * TriodeCurrents(g, vov, vds, rd).gm
    ensures TriodeCurrents(g, vov, vds + h, rd).ids - TriodeCurrents(g, vov, vds, rd).ids ==
      h * TriodeCurrents(g, vov, vds, rd).gd - g.k * h * h / 2.0
    ensures TriodeCurrents(Gain(g.k + h * g.dkdT, g.dkdT), vov, vds, rd).ids - TriodeCurrents(g, vov, vds, rd).ids ==
      h * TriodeCurrents(g, vov, vds, rd).didT
  {
    var x := vov * vds - vds * vds / 2.0;
    assert (vov + h) * vds - vds * vds / 2.0 == x + h * vds;
    assert vov * (vds + h) - (vds + h) * (vds + h) / 2.0 == x + h * (vov - vds) - h * h / 2.0;
    assert (g.k + h * g.dkdT) * x == g.k * x + h * (g.dkdT * x);
    assert TriodeCurrents(Gain(g.k + h * g.dkdT, g.dkdT), vov, vds, rd).ids == (g.k + h * g.dkdT) * x + vds / rd;
    assert TriodeCurrents(g, vov, vds, rd).ids == g.k * x + vds / rd;
  }

  /** The saturation conductances and temperature slope are the derivatives
      of the saturation current: exact in vds and in the gain, up to the
      quadratic term k * h * h / 2 in the overdrive. */
  lemma SaturationSlopes(g: Gain, vov: real, vds: real, rd: real, h: real)
    requires rd != 0.0
    ensures SaturationCurrents(g, vov + h, vds, rd).ids - SaturationCurrents(g, vov, vds, rd).ids ==
      h * SaturationCurrents(g, vov, vds, rd).gm + g.k * h * h / 2.0
    ensures SaturationCurrents(g, vov, vds + h, rd).ids - SaturationCurrents(g, vov, vds, rd).ids ==
      h * SaturationCurrents(g, vov, vds, rd).gd
    ensures SaturationCurrents(Gain(g.k + h * g.dkdT, g.dkdT), vov, vds, rd).ids - SaturationCurrents(g, vov, vds, rd).ids ==
      h * SaturationCurrents(g, vov, vds, rd).didT
  {
    assert (vov + h) * (vov + h) == vov * vov + 2.0 * h * vov + h * h;
    assert ((g.k + h * g.dkdT) / 2.0) * (vov * vov) == (g.k / 2.0) * (vov * vov) + h * ((g.dkdT / 2.0) * (vov * vov));
  }

  /** The power dissipated and its derivatives, in terms of the currents. */
  predicate PowerConsistent(o: Operating, vds: real)
  {
    o.P == -o.ids * vds &&
    o.dPdT == -o.didT * vds &&
    o.dPdvgs == -o.gm * vds &&
    o.dPdvds == -(o.gd * vds + o.ids)
  }

  /** The branch the n-type region selects. */
  function NmosCurrents(vgs: real, vds: real, Vth: real, g: Gain, rd: real): Currents
    requires rd != 0.0
  {
    match NmosRegion(vgs, vds, Vth)
    case Cutoff => CutoffCurrents(vds, rd)
    case Triode => TriodeCurrents(g, vgs - Vth, vds, rd)
    case Reverse => CutoffCurrents(vds, rd)
    case Saturation => SaturationCurrents(g, vgs - Vth, vds, rd)
  }

  /** The branch the p-type region selects. */
  function PmosCurrents(vgs: real, vds: real, Vth: real, g: Gain, rd: real): Currents
    requires rd != 0.0
  {
    match PmosRegion(vgs, vds, Vth)
    case Cutoff => CutoffCurrents(vds, rd)
    case Triode => TriodeCurrents(g, vgs - Vth, vds, rd)
    case Reverse => CutoffCurrents(vds, rd)
    case Saturation => SaturationCurrents(g, vgs - Vth, vds, rd)
  }

  function Vgs(ext: External): real { ext.vg - ext.vs }
  function Vds(ext: External): real { ext.vd - ext.vs }

  /** The n-type device at one operating point. */
  function Nmos(ext: External, prm: Params, pow: (real, real) -> real): (o: Operating)
    requires Physical(prm)
    ensures PowerConsistent(o, Vds(ext))
    ensures NmosRegion(Vgs(ext), Vds(ext), prm.Vth) in {Cutoff, Reverse} ==>
      o.gm == 0.0 && o.didT == 0.0 && o.gd == 1.0 / prm.rd && o.ids == Vds(ext) / prm.rd
    ensures NmosRegion(Vgs(ext), Vds(ext), prm.Vth) != Triode ==> o.gd == 1.0 / prm.rd
  {
    WithPower(NmosCurrents(Vgs(ext), Vds(ext), prm.Vth, GainAt(NType, prm, ext.T, pow), prm.rd), Vds(ext))
  }

  /** The p-type device at one operating point. */
  function Pmos(ext: External, prm: Params, pow: (real, real) -> real): (o: Operating)
    requires Physical(prm)
    ensures PowerConsistent(o, Vds(ext))
    ensures PmosRegion(Vgs(ext), Vds(ext), prm.Vth) in {Cutoff, Reverse} ==>
      o.gm == 0.0 && o.didT == 0.0 && o.gd == 1.0 / prm.rd && o.ids == Vds(ext) / prm.rd
    ensures PmosRegion(Vgs(ext), Vds(ext), prm.Vth) != Triode ==> o.gd == 1.0 / prm.rd
  {
    WithPower(PmosCurrents(Vgs(ext), Vds(ext), prm.Vth, GainAt(PType, prm, ext.T, pow), prm.rd), Vds(ext))
  }

  /** The evaluator the element type selects. */
  function Operate(pol: Polarity, ext: External, prm: Params, pow: (real, real) -> real): Operating
    requires Physical(prm)
  {
    if pol == NType then Nmos(ext, prm, pow) else Pmos(ext, prm, pow)
  }

  /** At the triode/saturation boundary vgs - Vth == vds the two closed forms agree. */
  lemma TriodeSaturationAgree(g: Gain, vov: real, rd: real)
    requires rd != 0.0
    ensures TriodeCurrents(g, vov, vov, rd) == SaturationCurrents(g, vov, vov, rd)
  {
  }

  /** So an n-type device on the boundary, which takes the triode branch, has
      exactly the saturation values. */
  lemma NmosContinuousAtSaturation(ext: External, prm: Params, pow: (real, real) -> real)
    requires Physical(prm)
    requires Vgs(ext) - prm.Vth == Vds(ext) >= 0.0
    ensures NmosRegion(Vgs(ext), Vds(ext), prm.Vth) == Triode
    ensures Nmos(ext, prm, pow) ==
      WithPower(SaturationCurrents(GainAt(NType, prm, ext.T, pow), Vgs(ext) - prm.Vth, Vds(ext), prm.rd), Vds(ext))
  {
    TriodeSaturationAgree(GainAt(NType, prm, ext.T, pow), Vds(ext), prm.rd);
  }

  /** The same for the p-type device, on its boundary vds == vgs - Vth <= 0. */
  lemma PmosContinuousAtSaturation(ext: External, prm: Params, pow: (real, real) -> real)
    requires Physical(prm)
    requires Vgs(ext) - prm.Vth == Vds(ext) <= 0.0
    ensures PmosRegion(Vgs(ext), Vds(ext), prm.Vth) == Triode
    ensures Pmos(ext, prm, pow) ==
      WithPower(SaturationCurrents(GainAt(PType, prm, ext.T, pow), Vgs(ext) - prm.Vth, Vds(ext), prm.rd), Vds(ext))
  {
    TriodeSaturationAgree(GainAt(PType, prm, ext.T, pow), Vds(ext), prm.rd);
  }

  /** At zero overdrive the saturation closed form gives the cutoff values:
      the current is continuous across the threshold. */
  lemma SaturationMeetsCutoff(g: Gain, vds: real, rd: real)
    requires rd != 0.0
    ensures SaturationCurrents(g, 0.0, vds, rd) == CutoffCurrents(vds, rd)
  {
  }

  /** At vds == 0 the triode and reverse branches meet: the current is
      continuous (zero on both sides), but the output conductance jumps by
      k * (vgs - Vth), because the reverse branch drops the channel. */
  lemma TriodeMeetsReverse(g: Gain, vov: real, rd: real)
    requires rd != 0.0
    ensures TriodeCurrents(g, vov, 0.0, rd).ids == CutoffCurrents(0.0, rd).ids == 0.0
    ensures TriodeCurrents(g, vov, 0.0, rd).gd - CutoffCurrents(0.0, rd).gd == g.k * vov
  {
  }

  /** The p-type quantities from the n-type ones of the mirrored device:
      the currents and the sensitivities to vds change sign, the conductances
      and the power do not. */
  function Mirror(o: Operating): Operating
  {
    Operating(o.gm, o.gd, -o.ids, -o.didT, o.P, o.dPdT, -o.dPdvgs, -o.dPdvds)
  }

  /** The external pins with every node voltage negated. */
  function Negated(ext: External): External
  {
    External(-ext.vg, -ext.vs, -ext.vd, -ext.vb, ext.T)
  }

  /** Currents of the mirrored device: same conductances, opposite current. */
  predicate MirroredCurrents(c: Currents, c': Currents)
  {
    c'.gm == c.gm && c'.gd == c.gd && c'.ids == -c.ids && c'.didT == -c.didT
  }

  lemma MirrorPower(c: Currents, c': Currents, vds: real)
    requires MirroredCurrents(c, c')
    ensures WithPower(c', -vds) == Mirror(WithPower(c, vds))
  {
  }

  lemma MirrorCutoff(vds: real, rd: real)
    requires rd != 0.0
    ensures MirroredCurrents(CutoffCurrents(vds, rd), CutoffCurrents(-vds, rd))
  {
  }

  lemma MirrorTriode(g: Gain, vov: real, vds: real, rd: real)
    requires rd != 0.0
    ensures MirroredCurrents(TriodeCurrents(g, vov, vds, rd), TriodeCurrents(Gain(-g.k, -g.dkdT), -vov, -vds, rd))
  {
  }

  lemma MirrorSaturation(g: Gain, vov: real, vds: real, rd: real)
    requires rd != 0.0
    ensures MirroredCurrents(SaturationCurrents(g, vov, vds, rd), SaturationCurrents(Gain(-g.k, -g.dkdT), -vov, -vds, rd))
  {
  }

  /** Branch by branch, the p-type currents are the mirrored n-type currents. */
  lemma PmosCurrentsMirror(vgs: real, vds: real, vth: real, g: Gain, rd: real)
    requires rd != 0.0
    ensures MirroredCurrents(NmosCurrents(-vgs, -vds, -vth, g, rd), PmosCurrents(vgs, vds, vth, Gain(-g.k, -g.dkdT), rd))
  {
    PmosRegionMirrors(vgs, vds, vth);
    assert -vgs - -vth == -(vgs - vth);
    match NmosRegion(-vgs, -vds, -vth)
    case Cutoff => MirrorCutoff(-vds, rd);
    case Reverse => MirrorCutoff(-vds, rd);
    case Triode => MirrorTriode(g, -(vgs - vth), -vds, rd);
    case Saturation => MirrorSaturation(g, -(vgs - vth), -vds, rd);
  }

  /** The p-type device is the n-type device with node voltages, threshold and
      gain negated: a p-type evaluation equals the mirrored n-type evaluation. */
  lemma PmosMirrorsNmos(ext: External, prm: Params, pow: (real, real) -> real)
    requires Physical(prm)
    ensures Pmos(ext, prm, pow) == Mirror(Nmos(Negated(ext), prm.(Vth := -prm.Vth), pow))
  {
    var prm' := prm.(Vth := -prm.Vth);
    var ext' := Negated(ext);
    var vgs, vds, vth := Vgs(ext), Vds(ext), prm.Vth;
    assert Vgs(ext') == -vgs && Vds(ext') == -vds;
    var g := GainAt(NType, prm', ext.T, pow);
    PmosGainNegated(prm, ext.T, pow);
    assert GainAt(PType, prm, ext.T, pow) == Gain(-g.k, -g.dkdT);
    var c, c' := NmosCurrents(-vgs, -vds, -vth, g, prm.rd), PmosCurrents(vgs, vds, vth, Gain(-g.k, -g.dkdT), prm.rd);
    PmosCurrentsMirror(vgs, vds, vth, g, prm.rd);
    MirrorPower(c, c', -vds);
    assert Nmos(ext', prm', pow) == WithPower(c, -vds);
    assert Pmos(ext, prm, pow) == WithPower(c', vds);
  }
}
