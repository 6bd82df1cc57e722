/** The opaque numerical back ends, as seen from the adapter layer.

    Matrices are identity tokens: two `MatrixRef`s are equal exactly when they
    denote the same Python object (`is`), never because their entries agree.
    Every solve is recorded as a symbolic `Vec` term naming the back end that was
    called and everything it was handed, so that a contract can say which back end
    produced a solution without interpreting any arithmetic. */
module Backend {
  import opened Common

  datatype MatrixRef = MatrixRef(id: nat)

  /** A sparse LU factorization closure (`factorized(mtx)`), made while scipy's
      `useUmfpack` switch held the recorded value. The switch is only a request:
      it does not say which library did the work. */
  datatype Factor = Factor(mtx: MatrixRef, useUmfpack: bool)

  /** A multigrid hierarchy built by the named PyAMG constructor from a matrix. */
  datatype Hierarchy = Hierarchy(builder: string, mtx: MatrixRef)

  /** PETSc `setTolerances(atol, rtol, max_it)`. */
  datatype Tolerances = Tolerances(atol: real, rtol: real, maxIt: int)

  /** Vector contents. `Data` is a vector supplied by the caller; `Allocated` is a
      freshly allocated native vector of the given matrix's shape; the other
      constructors are the results of the back-end calls they name (`SpSolve`
      records the `useUmfpack` switch at call time). `solIn` of a
      `KspSolve` is the contents of the native solution vector handed to
      `ksp.solve`; whether KSP reads it as a starting point is the back end's
      business. */
  datatype Vec =
    | Data(values: seq<real>)
    | Allocated(owner: MatrixRef)
    | FactorSolve(factor: Factor, rhs: Vec)
    | SpSolve(useUmfpack: bool, mtx: MatrixRef, rhs: Vec)
    | KrylovSolve(routine: string, mtx: MatrixRef, rhs: Vec, x0: Option<Vec>, tol: real, maxIter: int)
    | AmgSolve(mg: Hierarchy, rhs: Vec, x0: Option<Vec>, accel: Option<string>, tol: real)
    | KspSolve(kspType: string, pcType: string, mtx: MatrixRef, rhs: Vec, solIn: Vec, tols: Tolerances)

  /** The per-call keyword arguments `eps_a`, `eps_r`, `i_max` and `mtx` of `__call__`. */
  datatype Overrides = Overrides(epsA: Option<real>, epsR: Option<real>, iMax: Option<int>, mtx: Option<MatrixRef>)

  /** A call that overrides nothing but the matrix. */
  function MatrixOnly(m: MatrixRef): Overrides {
    Overrides(None, None, None, Some(m))
  }

  /** What the running Python environment offers: the module paths that import,
      the modules among them that carry `UMFPACK_OK`, the attribute names of the
      scipy Krylov module, the attribute names of `pyamg` (None when it does not
      import) and whether `petsc4py` imports. */
  datatype Env = Env(
    importable: set<string>,
    umfpackOk: set<string>,
    krylov: set<string>,
    pyamg: Option<set<string>>,
    petsc: bool)

  /** How many calls along `ms` hand over a matrix object different from the one
      held just before, starting from `cur`. */
  function Switches(cur: Option<MatrixRef>, ms: seq<MatrixRef>): nat
    decreases |ms|
  {
    if |ms| == 0 then 0
    else (if Some(ms[0]) != cur then 1 else 0) + Switches(Some(ms[0]), ms[1..])
  }

  /** Handing over the same object again and again never counts as a switch. */
  lemma {:induction false} SwitchesOfRepeats(m: MatrixRef, ms: seq<MatrixRef>)
    requires forall i | 0 <= i < |ms| :: ms[i] == m
    ensures Switches(Some(m), ms) == 0
    decreases |ms|
  {
    if |ms| > 0 {
      SwitchesOfRepeats(m, ms[1..]);
    }
  }
}
