/** `PETScKrylovSolver`: a KSP object whose Krylov method and preconditioner are fixed
    at construction, a cached native copy of the matrix with native solution and
    right-hand-side vectors, rebuilt only when a different matrix object arrives,
    and tolerances set afresh on every call. */
module Petsc {
  import opened Common
  import opened Backend
  import opened Config

  const PETSC_MISSING: string := "cannot import petsc4py!"

  /** The KSP object: its type, its preconditioner type, the matrix whose native
      copy is its operator, and the tolerances last set on it. */
  datatype Ksp = Ksp(kspType: string, pcType: string, operator: Option<MatrixRef>, tols: Option<Tolerances>)

  /** `pmtx`, `sol` and `rhs`: the native copy of a matrix and the contents of
      the two native vectors made for it. */
  datatype Native = Native(pmtx: MatrixRef, sol: Vec, rhs: Vec)

  datatype PetscSolver = PetscSolver(conf: PetscConf, mtx: Option<MatrixRef>, epsA: real, epsR: real,
                                     ksp: Ksp, native: Option<Native>, builds: nat)

  /** The diagnostic line of a call: KSP type, preconditioner, raw `ksp.reason`. */
  datatype PetscReport = PetscReport(methodName: string, precond: string, reason: int)

  datatype PetscStep = PetscStep(solver: PetscSolver, sol: Vec, rebuilt: bool, report: PetscReport)

  /** `set_matrix`: a native copy of the matrix and two freshly allocated vectors. */
  function SetMatrix(m: MatrixRef): Native {
    Native(m, Allocated(m), Allocated(m))
  }

  /** Native data is cached exactly when a matrix is, it belongs to that matrix,
      and the KSP operator is that native copy. */
  predicate Consistent(s: PetscSolver) {
    && (s.native.Some? <==> s.mtx.Some?)
    && (s.native.Some? ==> s.native.value.pmtx == s.mtx.value && s.ksp.operator == s.mtx)
    && s.ksp.kspType == s.conf.methodName && s.ksp.pcType == s.conf.precond
  }

  /** `PETScKrylovSolver.__init__`: `petsc4py` must import; the KSP takes the
      configured method and preconditioner; native data is made at once only when
      a matrix is given. */
  function PetscConstruct(conf: PetscConf, env: Env, mtx: Option<MatrixRef>): (r: Result<PetscSolver>)
    ensures r.Err? <==> !env.petsc
    ensures r.Err? ==> r.error == ImportError(PETSC_MISSING)
    ensures r.Ok? ==> Consistent(r.value)
    ensures r.Ok? ==> r.value.conf == conf && r.value.mtx == mtx
                      && r.value.epsA == conf.epsA && r.value.epsR == conf.epsR
    ensures r.Ok? ==> r.value.ksp.tols.None?
    ensures r.Ok? ==> (r.value.builds == 0 <==> mtx.None?) && r.value.builds <= 1
    ensures r.Ok? && mtx.Some? ==> r.value.native == Some(Native(mtx.value, Allocated(mtx.value), Allocated(mtx.value)))
  {
    if !env.petsc then Err(ImportError(PETSC_MISSING))
    else
      var native := if mtx.Some? then Some(SetMatrix(mtx.value)) else None;
      var ksp := Ksp(conf.methodName, conf.precond, mtx, None);
      Ok(PetscSolver(conf, mtx, conf.epsA, conf.epsR, ksp, native, if mtx.Some? then 1 else 0))
  }

  /** `PETScKrylovSolver.__call__` as written. Native data is rebuilt when none is
      cached or the call's matrix is not the very object cached. Tolerances are the
      call's values, else the stored ones, and are set on the KSP every call; the
      stored ones never change. The call's `conf` is fetched and never read. The
      native solution vector is overwritten from `x0` only when `x0` is given, so
      otherwise it still holds the previous solution (or the fresh allocation)
      when it is handed to `ksp.solve`; the native right-hand side is always
      overwritten. `reason` is the raw `ksp.reason` after the solve. */
  function PetscCall(s: PetscSolver, rhs: Vec, x0: Option<Vec>, conf: Option<PetscConf>, o: Overrides,
                     reason: int): (r: Result<PetscStep>)
    ensures r.Err? <==> s.native.None? && o.mtx.None? && s.mtx.None?
    ensures r.Err? ==> r.error == NoMatrix
    ensures r.Ok? ==> (r.value.rebuilt <==> s.native.None? || (o.mtx.Some? && o.mtx != s.mtx))
    ensures r.Ok? ==> r.value.solver.builds == s.builds + (if r.value.rebuilt then 1 else 0)
    ensures r.Ok? ==> r.value.solver.conf == s.conf && r.value.solver.epsA == s.epsA
                      && r.value.solver.epsR == s.epsR
    ensures r.Ok? && !r.value.rebuilt ==> r.value.solver.mtx == s.mtx
    ensures r.Ok? && r.value.rebuilt ==> r.value.solver.mtx == o.mtx.OrElse(s.mtx)
    ensures r.Ok? ==>
              var t := Tolerances(o.epsA.GetOr(s.epsA), o.epsR.GetOr(s.epsR), o.iMax.GetOr(s.conf.iMax));
              && r.value.sol.KspSolve? && r.value.sol.tols == t
              && r.value.solver.ksp.tols == Some(t)
    ensures r.Ok? ==>
              && r.value.sol.KspSolve?
              && r.value.sol.kspType == s.ksp.kspType && r.value.sol.pcType == s.ksp.pcType
              && r.value.sol.rhs == rhs
              && (r.value.rebuilt ==> r.value.solver.mtx == Some(r.value.sol.mtx))
              && r.value.solver.native == Some(Native(r.value.sol.mtx, r.value.sol, rhs))
    ensures r.Ok? && x0.Some? ==> r.value.sol.solIn == x0.value
    ensures r.Ok? && x0.None? && !r.value.rebuilt ==> r.value.sol.solIn == s.native.value.sol
    ensures r.Ok? && x0.None? && r.value.rebuilt ==> r.value.sol.solIn == Allocated(r.value.sol.mtx)
    ensures r.Ok? ==> r.value.report == PetscReport(s.conf.methodName, s.conf.precond, reason)
  {
    var epsA := o.epsA.GetOr(s.epsA);
    var epsR := o.epsR.GetOr(s.epsR);
    var iMax := o.iMax.GetOr(s.conf.iMax);
    var mtx := o.mtx.OrElse(s.mtx);
    var rebuild := s.native.None? || mtx != s.mtx;
    if rebuild && mtx.None? then Err(NoMatrix)
    else
      var native := if rebuild then SetMatrix(mtx.value) else s.native.value;
      var mtx' := if rebuild then mtx else s.mtx;
      var ksp := if rebuild then s.ksp.(operator := mtx) else s.ksp;
      var tols := Tolerances(epsA, epsR, iMax);
      var solIn := if x0.Some? then x0.value else native.sol;
      var sol := KspSolve(ksp.kspType, ksp.pcType, native.pmtx, rhs, solIn, tols);
      var s' := s.(mtx := mtx', ksp := ksp.(tols := Some(tols)),
                   native := Some(Native(native.pmtx, sol, rhs)),
                   builds := if rebuild then s.builds + 1 else s.builds);
      Ok(PetscStep(s', sol, rebuild, PetscReport(s.conf.methodName, s.conf.precond, reason)))
  }

  /** Calls keep a consistent solver consistent; on a consistent solver a call
      fails only when no matrix is known at all, and it rebuilds exactly when it is
      handed a matrix object other than the cached one. */
  lemma PetscCallPreservesConsistent(s: PetscSolver, rhs: Vec, x0: Option<Vec>, conf: Option<PetscConf>,
                                     o: Overrides, reason: int)
    requires Consistent(s)
    ensures PetscCall(s, rhs, x0, conf, o, reason).Err? <==> o.mtx.None? && s.mtx.None?
    ensures var r := PetscCall(s, rhs, x0, conf, o, reason);
            r.Ok? ==> Consistent(r.value.solver)
                      && (r.value.rebuilt <==> o.mtx.Some? && o.mtx != s.mtx)
  {
  }

  /** As written, the call's `conf` changes nothing: two calls that differ only in
      it give the same result. */
  lemma PetscCallIgnoresCallConf(s: PetscSolver, rhs: Vec, x0: Option<Vec>, c1: Option<PetscConf>,
                                 c2: Option<PetscConf>, o: Overrides, reason: int)
    ensures PetscCall(s, rhs, x0, c1, o, reason) == PetscCall(s, rhs, x0, c2, o, reason)
  {
  }

  /** `PETScKrylovSolver.__call__` with the class's promise kept: tolerances not
      passed as keywords come from the call's `conf` when one is given, and only
      otherwise from the stored ones. The stored state is not changed by the
      call's `conf`. */
  function PetscCallIntended(s: PetscSolver, rhs: Vec, x0: Option<Vec>, conf: Option<PetscConf>, o: Overrides,
                             reason: int): (r: Result<PetscStep>)
    ensures conf.None? ==> r == PetscCall(s, rhs, x0, None, o, reason)
    ensures r.Err? <==> PetscCall(s, rhs, x0, conf, o, reason).Err?
    ensures r.Ok? && conf.Some? ==>
              var c := conf.value;
              && r.value.sol.KspSolve?
              && r.value.sol.tols == Tolerances(o.epsA.GetOr(c.epsA), o.epsR.GetOr(c.epsR), o.iMax.GetOr(c.iMax))
    ensures r.Ok? ==> r.value.solver.conf == s.conf && r.value.solver.epsA == s.epsA
                      && r.value.solver.epsR == s.epsR
  {
    var o' := if conf.None? then o
              else o.(epsA := Some(o.epsA.GetOr(conf.value.epsA)), epsR := Some(o.epsR.GetOr(conf.value.epsR)),
                      iMax := Some(o.iMax.GetOr(conf.value.iMax)));
    PetscCall(s, rhs, x0, conf, o', reason)
  }

  /** The discrepancy: a call's `conf` with its own `eps_r` and no `eps_r` keyword
      is solved with the stored `eps_r` as written, and with the `conf`'s as
      intended. */
  lemma CallConfToleranceIgnored(s: PetscSolver, rhs: Vec, x0: Option<Vec>, c: PetscConf, o: Overrides, reason: int)
    requires s.mtx.Some? && o.epsR.None? && c.epsR != s.epsR
    ensures var asWritten := PetscCall(s, rhs, x0, Some(c), o, reason);
            var intended := PetscCallIntended(s, rhs, x0, Some(c), o, reason);
            && asWritten.Ok? && intended.Ok?
            && asWritten.value.sol.tols.rtol == s.epsR
            && intended.value.sol.tols.rtol == c.epsR
            && asWritten != intended
  {
  }

  /** Without `x0`, a call on the same matrix hands `ksp.solve` a solution vector
      still holding the previous call's solution. */
  lemma SolutionVectorKeepsPreviousSolution(s: PetscSolver, rhs1: Vec, rhs2: Vec, x0: Option<Vec>,
                                                  o1: Overrides, o2: Overrides, reason1: int, reason2: int)
    requires Consistent(s)
    requires PetscCall(s, rhs1, x0, None, o1, reason1).Ok?
    requires o2.mtx.None? || o2.mtx == PetscCall(s, rhs1, x0, None, o1, reason1).value.solver.mtx
    ensures var first := PetscCall(s, rhs1, x0, None, o1, reason1).value;
            var second := PetscCall(first.solver, rhs2, None, None, o2, reason2);
            && second.Ok? && !second.value.rebuilt
            && second.value.sol.solIn == first.sol
            && second.value.sol.rhs == rhs2
  {
    PetscCallPreservesConsistent(s, rhs1, x0, None, o1, reason1);
  }

  /** Solve once per matrix of `ms`, passing each as the call's matrix. */
  function RunPetsc(s: PetscSolver, ms: seq<MatrixRef>, rhs: Vec, reason: int): Result<PetscSolver>
    decreases |ms|
  {
    if |ms| == 0 then Ok(s)
    else
      match PetscCall(s, rhs, None, None, MatrixOnly(ms[0]), reason)
      case Err(e) => Err(e)
      case Ok(step) => RunPetsc(step.solver, ms[1..], rhs, reason)
  }

  /** Over any run of calls, native data is rebuilt exactly as often as the matrix
      object changes. */
  lemma {:induction false} RunPetscBuilds(s: PetscSolver, ms: seq<MatrixRef>, rhs: Vec, reason: int)
    requires Consistent(s)
    ensures RunPetsc(s, ms, rhs, reason).Ok?
    ensures Consistent(RunPetsc(s, ms, rhs, reason).value)
    ensures RunPetsc(s, ms, rhs, reason).value.builds == s.builds + Switches(s.mtx, ms)
    decreases |ms|
  {
    if |ms| > 0 {
      PetscCallPreservesConsistent(s, rhs, None, None, MatrixOnly(ms[0]), reason);
      var step := PetscCall(s, rhs, None, None, MatrixOnly(ms[0]), reason);
      RunPetscBuilds(step.value.solver, ms[1..], rhs, reason);
    }
  }
}
