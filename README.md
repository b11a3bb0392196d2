# Simplified Shichman-Hodges MOSFET element model

A Dafny model of the device evaluator of OCS (a circuit simulator for Octave)
for the simplified Shichman-Hodges MOSFET, in its n-type and p-type variants.
One call checks its inputs and picks the polarity from the element type
(`NMOS` or `PMOS`). It sets the polarity's default parameters and overrides
them by name. It selects the operating region (cutoff, triode, reverse or
saturation). From the region it computes the drain current `ids`, the
transconductance `gm`, the output conductance `gd`, the temperature
sensitivity `didT` and the power terms. Finally it assembles the element's
stamp: a constant 10x10 dynamic matrix `a`, a 10x10 algebraic matrix `b`
and a residual `c` of length 10.

Files, one module each:

- `parameters.dfy` (`Parameters`): the twelve parameters, the per-polarity
  defaults, and the override loop. The loop is a method over a parameter
  record, specified by the function `Resolve`.
- `device.dfy` (`Device`): region selection and the closed-form quantities.
  The `nmos` and `pmos` routines are pure functions returning a record.
- `assembly.dfy` (`Assembly`): the stamp. Zero-filled arrays are written cell
  by cell, and each cell is specified by an entry function.
- `element.dfy` (`Element`): input validation as a `Result`, and the top-level
  evaluation method.

All quantities are `real`, so the model has no floating-point rounding.
The source calls `pow` from the C maths library in two ways. The squares
`pow(vds,2)` and `pow((vgs-Vth),2)` (lines 141, 144, 155, 158, 195, 198, 209,
212) are modelled as the exact products `vds * vds` and `vov * vov`. Only the
fractional powers in the gain (lines 126-127 and 180-181) go through a function
parameter `pow: (real, real) -> real`; the gain `k` and its derivative `dkdT`
are the source's own expressions in it.

Behaviour worth knowing, as the code has it:

- The final n-type branch holds for `0 <= vgs-Vth < vds`, with a strict
  inequality, although the comment at line 153 writes `<=`. The p-type final
  branch holds for `vds < vgs-Vth <= 0`; its comment (line 207) repeats the
  n-type text.
- Duplicate parameter names are accepted, and the last value wins.
- The capacitances are derived from the default `Cox` before the overrides
  are applied, so overriding `Cox` does not rescale them.
- When an input check sets the error flag, the evaluator skips the block
  guarded at line 345 and reaches the end of the function (line 549) without a
  `return`, which is undefined behaviour in C++. The model reads this as the
  evidently intended outcome: a `Failure` carrying the input error, with no stamp.
- The reverse branch produces the cutoff values. At `vds = 0`, `ids` is
  continuous between triode and reverse, but `gd` jumps by `k*(vgs-Vth)`.

## Model

| member | source | states |
|---|---|---|
| Parameters.FieldOf | src/Mshichmanhodgesmosfet.cc:83-108 | a name selects at most one of the twelve fields, and only the field carrying exactly that name; any other name selects none |
| Parameters.FieldNameRoundTrip | src/Mshichmanhodgesmosfet.cc:83-106 | each of the twelve recognised names selects its own field |
| Parameters.DefaultsDifferOnlyInVth | src/Mshichmanhodgesmosfet.cc:452-463 | the p-type defaults equal the n-type defaults (lines 352-363) in every field except the threshold, 0.5 for n-type and -0.5 for p-type |
| Parameters.DefaultCapacitances | src/Mshichmanhodgesmosfet.cc:352-363 | default Cox is 1e-9, Cgb equals Cox, and Cgs, Cgd, Csb, Cdb are a tenth of it |
| Parameters.ApplyRecognised | src/Mshichmanhodgesmosfet.cc:83-106 | one override step with a recognised name sets exactly that field to the value and leaves the other eleven unchanged |
| Parameters.ApplyUnrecognised | src/Mshichmanhodgesmosfet.cc:107-108 | one override step with an unknown name changes no field |
| Parameters.ApplyField | src/Mshichmanhodgesmosfet.cc:83-108 | the effect of one override step on any single field: the new value if the name selects it, the old value otherwise |
| Parameters.ResolveUntouched | src/Mshichmanhodgesmosfet.cc:81-111 | after the whole loop, a field that no name selects keeps its initial value |
| Parameters.ResolveLastWins | src/Mshichmanhodgesmosfet.cc:81-111 | after the whole loop, a field named several times holds the value paired with its last occurrence |
| Parameters.ResolveIgnoresUnknown | src/Mshichmanhodgesmosfet.cc:107-110 | appending an unknown name and any value to the override list leaves the result unchanged |
| Parameters.ResolvePrefixValues | src/Mshichmanhodgesmosfet.cc:81-111 | the result depends only on the values paired with names; extra values are never read |
| Parameters.CoxOverrideKeepsCapacitances | src/Mshichmanhodgesmosfet.cc:352-366 | when no capacitance is named, Cgb stays 1e-9 and Cgs, Cgd, Csb, Cdb stay 1e-10 whatever Cox is overridden to |
| Parameters.ResolvedDifferOnlyInVth | src/Mshichmanhodgesmosfet.cc:452-466 | for any override list, the resolved n-type and p-type parameters agree in every field except the threshold |
| Parameters.ResolvedPolaritiesAgree | src/Mshichmanhodgesmosfet.cc:452-466 | for any override list, the resolved p-type parameters are the resolved n-type ones with the p-type threshold |
| Parameters.UnknownNames | src/Mshichmanhodgesmosfet.cc:107-108 | the reported names are exactly the names, among the overrides, that select no field |
| Parameters.SetParameters | src/Mshichmanhodgesmosfet.cc:73-112 | the loop leaves the parameters equal to the initial ones with every override applied in order, and reports the unknown names in order |
| Device.PmosGainNegated | src/Mshichmanhodgesmosfet.cc:180-181 | the p-type gain k and its temperature derivative are the n-type ones (lines 126-127) negated |
| Device.NmosRegion | src/Mshichmanhodgesmosfet.cc:132-153 | exactly one n-type branch holds: cutoff iff vgs < Vth; triode iff Vth <= vgs and 0 <= vds <= vgs-Vth; reverse iff Vth <= vgs and vds < 0; saturation iff 0 <= vgs-Vth < vds (strict) |
| Device.PmosRegion | src/Mshichmanhodgesmosfet.cc:186-207 | exactly one p-type branch holds: cutoff iff vgs > Vth; triode iff vgs <= Vth and vgs-Vth <= vds <= 0; reverse iff vgs <= Vth and vds > 0; saturation iff vds < vgs-Vth <= 0 |
| Device.PmosRegionMirrors | src/Mshichmanhodgesmosfet.cc:186-207 | the p-type region of (vgs, vds, Vth) is the n-type region (lines 132-153) of (-vgs, -vds, -Vth) |
| Device.CutoffCurrents | src/Mshichmanhodgesmosfet.cc:132-138 | in cutoff the drain current is vds/rd |
| Device.PowerSlopes | src/Mshichmanhodgesmosfet.cc:161-164 | the power terms are the derivatives of P = -ids*vds: moving ids by h*gm or h*didT moves P by exactly h*dPdvgs or h*dPdT, and moving vds by h with ids moving by h*gd moves P by h*dPdvds up to the second-order term gd*h*h |
| Device.TriodeSlopes | src/Mshichmanhodgesmosfet.cc:139-145 | gm, gd and didT are the derivatives of the triode current in vgs, vds and T: a step h in the overdrive or h*dkdT in the gain changes ids by exactly h*gm or h*didT; a step h in vds changes it by h*gd - k*h*h/2 |
| Device.SaturationSlopes | src/Mshichmanhodgesmosfet.cc:153-159 | gm, gd and didT are the derivatives of the saturation current: a step h in vds or h*dkdT in the gain changes ids by exactly h*gd or h*didT; a step h in the overdrive changes it by h*gm + k*h*h/2 |
| Device.Nmos | src/Mshichmanhodgesmosfet.cc:115-166 | the power terms satisfy the four power relations; in cutoff and in reverse gm = 0, didT = 0, gd = 1/rd and ids = vds/rd; outside triode gd = 1/rd |
| Device.Pmos | src/Mshichmanhodgesmosfet.cc:169-220 | the same as for the n-type device, with the p-type regions |
| Device.TriodeSaturationAgree | src/Mshichmanhodgesmosfet.cc:141-157 | at vds = vgs-Vth the triode and saturation closed forms give identical ids, gm, gd and didT |
| Device.NmosContinuousAtSaturation | src/Mshichmanhodgesmosfet.cc:139-159 | an n-type device on the boundary vgs-Vth = vds >= 0 takes the triode branch and its outputs equal the saturation formulas |
| Device.PmosContinuousAtSaturation | src/Mshichmanhodgesmosfet.cc:193-213 | a p-type device on the boundary vgs-Vth = vds <= 0 takes the triode branch and its outputs equal the saturation formulas |
| Device.SaturationMeetsCutoff | src/Mshichmanhodgesmosfet.cc:132-158 | at zero overdrive the saturation formulas give the cutoff values, so the current is continuous across the threshold |
| Device.TriodeMeetsReverse | src/Mshichmanhodgesmosfet.cc:139-152 | at vds = 0 the triode and reverse branches both give ids = 0, but gd jumps by k*(vgs-Vth) |
| Device.PmosCurrentsMirror | src/Mshichmanhodgesmosfet.cc:186-213 | branch by branch, the p-type currents with gain -k equal the n-type currents of the negated voltages and threshold, with ids and didT negated |
| Device.PmosMirrorsNmos | src/Mshichmanhodgesmosfet.cc:169-220 | a p-type evaluation equals the n-type evaluation (lines 115-166) of the negated node voltages and threshold, with ids, didT, dPdvgs and dPdvds negated and gm, gd, P, dPdT kept |
| Assembly.Assemble | src/Mshichmanhodgesmosfet.cc:388-441 | the three outputs are fresh, 10x10, 10x10 and 10 long, and hold cell by cell the dynamic, algebraic and residual entries of the stamp |
| Assembly.DynamicMatrix | src/Mshichmanhodgesmosfet.cc:390-399 | the dynamic matrix holds the ten constant entries and zero elsewhere |
| Assembly.AlgebraicMatrix | src/Mshichmanhodgesmosfet.cc:401-430 | the algebraic matrix holds the current, power and capacitance entries and zero elsewhere |
| Assembly.CurrentRows | src/Mshichmanhodgesmosfet.cc:402-413 | rows 0-4 hold the drain-current and power entries; rows 5-9 are untouched |
| Assembly.ChargeRows | src/Mshichmanhodgesmosfet.cc:415-430 | rows 5-9 hold the capacitances and the -1 diagonal; rows 0-4 are untouched |
| Assembly.Residual | src/Mshichmanhodgesmosfet.cc:433-441 | the residual holds -ids, ids, P and the five capacitor residuals, with entries 0 and 3 zero |
| Assembly.DynamicHasTenEntries | src/Mshichmanhodgesmosfet.cc:390-399 | the dynamic matrix has exactly ten nonzero cells; it takes no argument, so it is the same for both polarities |
| Assembly.DynamicChargeColumnsBalance | src/Mshichmanhodgesmosfet.cc:390-399 | in every charge column of the dynamic matrix, rows 0-3 sum to zero |
| Assembly.DrainRowsOpposite | src/Mshichmanhodgesmosfet.cc:402-435 | row 2 of the algebraic matrix is the negation of row 1, and c[1] = -c[2] |
| Assembly.VoltageRowsSumToZero | src/Mshichmanhodgesmosfet.cc:402-413 | rows 1, 2 and 4 of the algebraic matrix sum to zero over columns 0-2 |
| Assembly.BulkRowZero | src/Mshichmanhodgesmosfet.cc:401-436 | row 3 of the algebraic matrix is zero, and so are c[0] and c[3] |
| Assembly.ChargeRowsLinear | src/Mshichmanhodgesmosfet.cc:415-441 | each charge row i in 5..9 has -1 at (i, i), and its residual equals that row of the algebraic matrix applied to the state (Vg, Vs, Vd, Vb, T, Qgb, Qgs, Qgd, Qsb, Qdb) |
| Assembly.UnchargedResidual | src/Mshichmanhodgesmosfet.cc:437-441 | with zero charges, c[5..9] are the capacitances times the matching voltage differences |
| Element.Validate | src/Mshichmanhodgesmosfet.cc:319-544 | succeeds iff names and values have equal length, there are five external values, zero or five internal values (lines 319-337) and the type is NMOS or PMOS (lines 348, 449 and 543-544); otherwise reports the first failing check; an empty internal vector means zero charges |
| Element.UnknownTypeRejected | src/Mshichmanhodgesmosfet.cc:543-544 | with well-formed arguments, any element type other than NMOS and PMOS is an error |
| Element.Evaluate | src/Mshichmanhodgesmosfet.cc:345-547 | an invalid input gives its error and no stamp; otherwise the stamp is that of the selected polarity's device with the defaults overridden in order, and the unknown names are reported |
| Element.CutoffScenario | src/Mshichmanhodgesmosfet.cc:132-138 | default n-type device with Vg = 0, Vd = 1: cutoff, ids = 1e-6 |
| Element.TriodeScenario | src/Mshichmanhodgesmosfet.cc:139-145 | default n-type device with Vg = 1, Vd = 0.4 at 300 K: triode, ids = 1e-14*0.12 + 4e-7 and gm = 1e-14*0.4 |
| Element.UnknownParameterScenario | src/Mshichmanhodgesmosfet.cc:107-108 | overriding the unknown name bogus keeps every default and reports bogus |

## Left out

- `print_parameters` and `print_values` (lines 34-70): output to the pager only, and their calls are commented out.
- Octave argument marshalling: the argument count, the string and real-scalar type checks, and the conversion of Octave values. The model takes plain sequences and keeps only the length checks.
- The time argument `t`: it is validated by type only and never used. The bulk voltage is not used by `nmos`/`pmos` either.
- The text of the unknown-parameter warning: the model returns the unknown names instead.
- The global error flag: errors are a `Result`. When several checks fail, the model reports the first one in the source's order.
- The fractional powers of the temperature ratio in the gain (lines 126-127 and 180-181): they go through the `pow` parameter, so the model does not know their values. The integer squares elsewhere are modelled exactly.
- IEEE infinities and NaN: `Evaluate`, `Nmos` and `Pmos` require a nonzero drain resistance `rd` and channel length `L`, because the source divides by both unguarded. A non-positive `T + Tshift` only reaches `pow`.
- Floating-point rounding: `0.1*Cox` and the other products are exact over the reals.
