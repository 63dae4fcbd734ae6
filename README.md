# MiscibilityWater: a slightly compressible, constant-viscosity fluid

This project models `Opm::MiscibilityWater` from OPM's black-oil fluid library. The class provides PVT properties for a single fluid. It stores four numbers:

- the reference pressure `ref_press_`;
- the reference formation-volume factor `ref_B_`;
- the compressibility `comp_`;
- the constant viscosity `viscosity_`.

From these it answers five queries: viscosity, the formation-volume factor `B`, its pressure derivative `dB/dp`, the dissolved ratio `R`, and `dR/dp`. Each query has a scalar form and a batch form that fills caller-owned output vectors.

The two files are:

- `miscibility_water.dfy`, module `Opm`:
  - the PVTW and PVCDO keyword records, as plain datatypes of five reals;
  - the class `MiscibilityWater`, with its three ways of initialisation and its ten queries;
  - the lemmas about the class.
- `std_vector.dfy`, module `StdVector`: the output vector the batch queries write into (`std::vector<double>` passed by reference), with `clear`, `resize` and element assignment.

Doubles are modelled as Dafny `real`. The volume factor is the exact rational expression `ref_B / (1 + x + x²/2)` with `x = comp * (p - ref_press)`. The denominator equals `(x + 1)²/2 + 1/2`, so it is at least 1/2 and the division is defined for every pressure (`Denominator`).

The scalar queries are functions that read the object. The batch queries are methods. Their `modifies` clause names only the output vectors, so no query can change the four fields. The C++ references `output_B` and `output_dBdp` of the batch `dBdp` may be the same vector. The model allows this and states what each vector holds in both cases.

Both constructors set the four fields once. `initFromPvcdo` (MiscibilityWater.hpp:77-87) overwrites all four fields of an existing object. It does so before it checks the viscosibility item, so a call that fails still leaves the new values in place. `InitFromPvcdo` models exactly that.

## Model

| member | source | states |
|---|---|---|
| `Opm.MiscibilityWater.FromPvtwItems` | opm/porsol/blackoil/fluid/MiscibilityWater.hpp:56-60 | the allocation step of `FromPvtw` only, not an entry point: the four fields are the record's P_REF, WATER_VOL_FACTOR, WATER_COMPRESSIBILITY and WATER_VISCOSITY items |
| `Opm.MiscibilityWater.FromPvtw` | opm/porsol/blackoil/fluid/MiscibilityWater.hpp:54-65 | construction from a PVTW record fails with the unsupported-viscosibility error exactly when WATER_VISCOSIBILITY is non-zero; otherwise it yields a fresh object whose four fields equal the four items |
| `Opm.MiscibilityWater.constructor` | opm/porsol/blackoil/fluid/MiscibilityWater.hpp:68-74 | scalar construction sets reference pressure 0, reference volume factor 1, compressibility 0 and the given viscosity |
| `Opm.ConstantFluidQueries` | opm/porsol/blackoil/fluid/MiscibilityWater.hpp:68-74 | a fluid built from a single viscosity has `B == 1`, `dBdp == 0` and that viscosity at every pressure |
| `Opm.MiscibilityWater.InitFromPvcdo` | opm/porsol/blackoil/fluid/MiscibilityWater.hpp:77-87 | the four fields always become the record's P_REF, OIL_VOL_FACTOR, OIL_COMPRESSIBILITY and OIL_VISCOSITY items, even when the call fails; it fails exactly when OIL_VISCOSIBILITY is non-zero |
| `Opm.MiscibilityWater.GetViscosity` | opm/porsol/blackoil/fluid/MiscibilityWater.hpp:93-96 | scalar viscosity is the stored viscosity; pressure, region and composition play no part |
| `Opm.ViscosityIsConstant` | opm/porsol/blackoil/fluid/MiscibilityWater.hpp:93-96 | scalar viscosity is the stored viscosity whatever the pressure |
| `Opm.MiscibilityWater.GetViscosityBatch` | opm/porsol/blackoil/fluid/MiscibilityWater.hpp:98-106 | the output has one entry per input entry, and every entry is the stored viscosity |
| `Opm.Denominator` | opm/porsol/blackoil/fluid/MiscibilityWater.hpp:112-113 | `1 + x + x²/2 >= 1/2` for every x, so `B` never divides by zero |
| `Opm.RationalVolumeFactor` | opm/porsol/blackoil/fluid/MiscibilityWater.hpp:112-113 | `ref_B / (1 + x + x²/2)` is `ref_B` at x = 0, and it is positive, zero or negative exactly when `ref_B` is |
| `Opm.DenominatorGrows` | opm/porsol/blackoil/fluid/MiscibilityWater.hpp:112-113 | `1 + x + x²/2` does not decrease in x from x = -1 on |
| `Opm.RationalLaw` | opm/porsol/blackoil/fluid/MiscibilityWater.hpp:112-113 | the approximated volume factor b solves `b * (1 + x + x²/2) == ref_B` |
| `Opm.RationalBounds` | opm/porsol/blackoil/fluid/MiscibilityWater.hpp:112-113 | for a positive `ref_B` the approximation lies in `(0, 2 * ref_B]` |
| `Opm.RationalNonIncreasing` | opm/porsol/blackoil/fluid/MiscibilityWater.hpp:112-113 | for `ref_B >= 0` and `-1 <= x1 <= x2` the approximation at x2 is at most that at x1 |
| `Opm.MiscibilityWater.B` | opm/porsol/blackoil/fluid/MiscibilityWater.hpp:108-117 | scalar `B` is `ref_B` when `comp == 0` or at the reference pressure, and it is positive exactly when `ref_B` is |
| `Opm.VolumeFactorLaw` | opm/porsol/blackoil/fluid/MiscibilityWater.hpp:108-117 | scalar `B` is `ref_B` when `comp == 0`; otherwise `B * (1 + x + x²/2) == ref_B` with `x = comp * (p - ref_press)` |
| `Opm.VolumeFactorAtReference` | opm/porsol/blackoil/fluid/MiscibilityWater.hpp:108-117 | at the reference pressure `B` equals `ref_B`, in both branches |
| `Opm.VolumeFactorBounds` | opm/porsol/blackoil/fluid/MiscibilityWater.hpp:108-117 | with `ref_B > 0`, `0 < B(p) <= 2 * ref_B` at every pressure |
| `Opm.VolumeFactorNonIncreasing` | opm/porsol/blackoil/fluid/MiscibilityWater.hpp:108-117 | with `comp > 0` and `ref_B >= 0`, `B` does not increase with pressure from `x = -1` upwards |
| `Opm.IncompressibleFluid` | opm/porsol/blackoil/fluid/MiscibilityWater.hpp:108-146 | when `comp == 0`, `B(p) == ref_B` and `dBdp(p) == 0` at every pressure |
| `Opm.WorkedExample` | opm/porsol/blackoil/fluid/MiscibilityWater.hpp:108-146 | with reference pressure 1e7, `ref_B` 1.02 and compressibility 1e-9, at 2e7: `B == 1.02 / 1.01005` and `dBdp == -1e-9 * B` |
| `Opm.MiscibilityWater.BBatch` | opm/porsol/blackoil/fluid/MiscibilityWater.hpp:119-137 | the output has length `|pressures|` and entry i is scalar `B` of `pressures[i][phase]`; when `comp == 0` every entry is `ref_B`, and `phase` is then not required to be in range |
| `StdVector.Resized` | opm/porsol/blackoil/fluid/MiscibilityWater.hpp:124-136 | `resize(n, v)` yields length n, keeps the old entries below n and fills the rest with v |
| `Opm.MiscibilityWater.DBdp` | opm/porsol/blackoil/fluid/MiscibilityWater.hpp:139-146 | scalar `dBdp` is `-comp * B(p)` for every pressure, which is 0 when `comp == 0` |
| `Opm.DerivativeNegative` | opm/porsol/blackoil/fluid/MiscibilityWater.hpp:139-146 | with `comp > 0` and `ref_B > 0`, `dBdp(p) < 0` |
| `Opm.MiscibilityWater.DBdpBatch` | opm/porsol/blackoil/fluid/MiscibilityWater.hpp:148-166 | `output_dBdp` has length `|pressures|` and entry i is scalar `dBdp` of `pressures[i][phase]` (all 0 when `comp == 0`); when the two outputs are distinct, `output_B` holds exactly the batch `B` result |
| `Opm.MiscibilityWater.ScaleVolumeFactors` | opm/porsol/blackoil/fluid/MiscibilityWater.hpp:156-161 | the compressible branch sets `output_dBdp[i] = -comp * output_B[i]` for every i, over the length of `output_B`, and leaves a distinct `output_B` unchanged |
| `Opm.MiscibilityWater.R` | opm/porsol/blackoil/fluid/MiscibilityWater.hpp:168-171 | scalar `R` is 0 at every pressure: nothing is dissolved |
| `Opm.MiscibilityWater.DRdp` | opm/porsol/blackoil/fluid/MiscibilityWater.hpp:183-186 | scalar `dRdp` is 0 at every pressure |
| `Opm.NoDissolvedComponent` | opm/porsol/blackoil/fluid/MiscibilityWater.hpp:168-186 | scalar `R` and `dRdp` are 0 at every pressure |
| `Opm.MiscibilityWater.RBatch` | opm/porsol/blackoil/fluid/MiscibilityWater.hpp:173-181 | the output has length `|pressures|` and is all zero |
| `Opm.MiscibilityWater.DRdpBatch` | opm/porsol/blackoil/fluid/MiscibilityWater.hpp:188-199 | both outputs have length `|pressures|` and are all zero, whether or not they are the same vector |

## Left out

- Deck parsing (`getRecord(0)`, `getItem`, `getSIDouble`, SI unit conversion) is a call into the parser library. Each record is a datatype of five reals already in SI units.
- `OPM_THROW` / `std::runtime_error` is modelled as a `Result` from `FromPvtw` and an `Outcome` from `InitFromPvcdo`. When `FromPvtw` fails it returns no object, just as the C++ constructor leaves no object behind.
- IEEE-754 rounding, NaN and infinities are not modelled. `if (comp_)` is modelled as `comp != 0`, which differs from C++ only for NaN.
- How close `ref_B / (1 + x + x²/2)` comes to `ref_B * exp(-x)` is not stated, because the model has no exponential.
- The `#pragma omp parallel for` loops run sequentially in the model. Each iteration writes only its own index, and the per-index postconditions capture this.
- `MiscibilityProps` (the base class), virtual dispatch, `surfvol_t`, `PhaseVec` and `CompVec` are not part of this model. Pressures are `seq<seq<real>>`, indexed as `pressures[i][phase]`.
- The region and composition arguments of the scalar queries, the composition batch of the batch queries, and the unnamed `int` phase argument of the batch `getViscosity`, `R` and `dRdp` (MiscibilityWater.hpp:100, 175, 190) are dropped. The code never reads them.
- The conversion of `pressures.size()` to `int` is not modelled. Batch lengths are unbounded naturals.
- The output vectors are modelled as values held in a `Vector` object. Capacity and reallocation are not modelled.
- The destructor has no behaviour to model.
