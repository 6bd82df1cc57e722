/** Configuration defaulting: each adapter's `process_conf` fills every missing item
    from its own default table and fixes the items it does not use. */
module Config {
  import opened Common

  /** The default relative (and, for PETSc, absolute) tolerance 1e-8. */
  const DEFAULT_EPS: real := 0.00000001

  /** A user configuration: every item may be missing (or `None`). */
  datatype RawConf = RawConf(
    methodName: Option<string>,
    precond: Option<string>,
    accel: Option<string>,
    presolve: Option<bool>,
    warn: Option<bool>,
    iMax: Option<int>,
    epsA: Option<real>,
    epsR: Option<real>)

  datatype DirectConf = DirectConf(methodName: string, presolve: bool, warn: bool,
                                   iMax: Option<int>, epsA: Option<real>, epsR: Option<real>)
  {
    /** The processed configuration handed back as a user configuration. */
    function AsRaw(): RawConf {
      RawConf(Some(methodName), None, None, Some(presolve), Some(warn), iMax, epsA, epsR)
    }
  }

  datatype IterativeConf = IterativeConf(methodName: string, iMax: int, epsA: Option<real>, epsR: real)
  {
    function AsRaw(): RawConf {
      RawConf(Some(methodName), None, None, None, None, Some(iMax), epsA, Some(epsR))
    }
  }

  datatype AmgConf = AmgConf(methodName: string, accel: Option<string>,
                             iMax: Option<int>, epsA: Option<real>, epsR: real)
  {
    function AsRaw(): RawConf {
      RawConf(Some(methodName), None, accel, None, None, iMax, epsA, Some(epsR))
    }
  }

  datatype PetscConf = PetscConf(methodName: string, precond: string, iMax: int, epsA: real, epsR: real)
  {
    function AsRaw(): RawConf {
      RawConf(Some(methodName), Some(precond), None, None, None, Some(iMax), Some(epsA), Some(epsR))
    }
  }

  /** `ScipyDirect.process_conf`: method `auto`, no presolve, warnings on; the
      direct solver has no tolerances or iteration cap, whatever is configured. */
  function ProcessDirect(raw: RawConf): (c: DirectConf)
    ensures raw.methodName.Some? ==> c.methodName == raw.methodName.value
    ensures raw.methodName.None? ==> c.methodName == "auto"
    ensures raw.presolve.Some? ==> c.presolve == raw.presolve.value
    ensures raw.presolve.None? ==> !c.presolve
    ensures raw.warn.Some? ==> c.warn == raw.warn.value
    ensures raw.warn.None? ==> c.warn
    ensures c.iMax.None? && c.epsA.None? && c.epsR.None?
  {
    DirectConf(raw.methodName.GetOr("auto"), raw.presolve.GetOr(false), raw.warn.GetOr(true), None, None, None)
  }

  /** `ScipyIterative.process_conf`: method `cg`, 100 iterations, `eps_r` 1e-8;
      `eps_a` is always `None`. */
  function ProcessIterative(raw: RawConf): (c: IterativeConf)
    ensures raw.methodName.Some? ==> c.methodName == raw.methodName.value
    ensures raw.methodName.None? ==> c.methodName == "cg"
    ensures raw.iMax.Some? ==> c.iMax == raw.iMax.value
    ensures raw.iMax.None? ==> c.iMax == 100
    ensures raw.epsR.Some? ==> c.epsR == raw.epsR.value
    ensures raw.epsR.None? ==> c.epsR == DEFAULT_EPS
    ensures c.epsA.None?
  {
    IterativeConf(raw.methodName.GetOr("cg"), raw.iMax.GetOr(100), None, raw.epsR.GetOr(DEFAULT_EPS))
  }

  /** `PyAMGSolver.process_conf`: method `smoothed_aggregation_solver`, no
      acceleration, `eps_r` 1e-8; `i_max` and `eps_a` are always `None`. */
  function ProcessAmg(raw: RawConf): (c: AmgConf)
    ensures raw.methodName.Some? ==> c.methodName == raw.methodName.value
    ensures raw.methodName.None? ==> c.methodName == "smoothed_aggregation_solver"
    ensures c.accel == raw.accel
    ensures raw.epsR.Some? ==> c.epsR == raw.epsR.value
    ensures raw.epsR.None? ==> c.epsR == DEFAULT_EPS
    ensures c.iMax.None? && c.epsA.None?
  {
    AmgConf(raw.methodName.GetOr("smoothed_aggregation_solver"), raw.accel, None, None, raw.epsR.GetOr(DEFAULT_EPS))
  }

  /** `PETScKrylovSolver.process_conf`: KSP `cg`, preconditioner `icc`, 100
      iterations, `eps_a` and `eps_r` 1e-8. */
  function ProcessPetsc(raw: RawConf): (c: PetscConf)
    ensures raw.methodName.Some? ==> c.methodName == raw.methodName.value
    ensures raw.methodName.None? ==> c.methodName == "cg"
    ensures raw.precond.Some? ==> c.precond == raw.precond.value
    ensures raw.precond.None? ==> c.precond == "icc"
    ensures raw.iMax.Some? ==> c.iMax == raw.iMax.value
    ensures raw.iMax.None? ==> c.iMax == 100
    ensures raw.epsA.Some? ==> c.epsA == raw.epsA.value
    ensures raw.epsA.None? ==> c.epsA == DEFAULT_EPS
    ensures raw.epsR.Some? ==> c.epsR == raw.epsR.value
    ensures raw.epsR.None? ==> c.epsR == DEFAULT_EPS
  {
    PetscConf(raw.methodName.GetOr("cg"), raw.precond.GetOr("icc"), raw.iMax.GetOr(100),
              raw.epsA.GetOr(DEFAULT_EPS), raw.epsR.GetOr(DEFAULT_EPS))
  }

  /** `ScipyDirect.process_conf` is idempotent, and reads only `method`, `presolve`
      and `warn`: every other item is ignored, never an error. */
  lemma DirectProcessingStable(a: RawConf, b: RawConf)
    ensures ProcessDirect(ProcessDirect(a).AsRaw()) == ProcessDirect(a)
    ensures a.methodName == b.methodName && a.presolve == b.presolve && a.warn == b.warn
            ==> ProcessDirect(a) == ProcessDirect(b)
  {
  }

  /** `ScipyIterative.process_conf` is idempotent, and reads only `method`, `i_max`
      and `eps_r`. */
  lemma IterativeProcessingStable(a: RawConf, b: RawConf)
    ensures ProcessIterative(ProcessIterative(a).AsRaw()) == ProcessIterative(a)
    ensures a.methodName == b.methodName && a.iMax == b.iMax && a.epsR == b.epsR
            ==> ProcessIterative(a) == ProcessIterative(b)
  {
  }

  /** `PyAMGSolver.process_conf` is idempotent, and reads only `method`, `accel`
      and `eps_r`. */
  lemma AmgProcessingStable(a: RawConf, b: RawConf)
    ensures ProcessAmg(ProcessAmg(a).AsRaw()) == ProcessAmg(a)
    ensures a.methodName == b.methodName && a.accel == b.accel && a.epsR == b.epsR
            ==> ProcessAmg(a) == ProcessAmg(b)
  {
  }

  /** `PETScKrylovSolver.process_conf` is idempotent, and reads only `method`,
      `precond`, `i_max`, `eps_a` and `eps_r`. */
  lemma PetscProcessingStable(a: RawConf, b: RawConf)
    ensures ProcessPetsc(ProcessPetsc(a).AsRaw()) == ProcessPetsc(a)
    ensures a.methodName == b.methodName && a.precond == b.precond && a.iMax == b.iMax
            && a.epsA == b.epsA && a.epsR == b.epsR
            ==> ProcessPetsc(a) == ProcessPetsc(b)
  {
  }
}
