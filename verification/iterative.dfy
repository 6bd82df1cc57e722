/** `ScipyIterative`: a scipy Krylov routine chosen by name, with `cg` as the fallback
    for an unknown name, and the routine's raw outcome mapped to a reason by its sign. */
module Iterative {
  import opened Common
  import opened Backend
  import opened Config

  const SUCCESSFUL_EXIT: string := "successful exit"
  const ITERATION_LIMIT: string := "number of iterations"
  const BREAKDOWN: string := "illegal input or breakdown"

  /** `converged_reasons`, keyed by the sign of the outcome. */
  const CONVERGED_REASONS: map<int, string> :=
    map[0 := SUCCESSFUL_EXIT, 1 := ITERATION_LIMIT, -1 := BREAKDOWN]

  /** `numpy.sign` on an integer. */
  function Sign(x: int): int {
    if x > 0 then 1 else if x < 0 then -1 else 0
  }

  /** `converged_reasons[nm.sign(info)]`: the lookup is defined for every integer
      outcome, and the reason tells the three signs apart. */
  function ReasonOf(info: int): (reason: string)
    ensures info == 0 <==> reason == SUCCESSFUL_EXIT
    ensures info > 0 <==> reason == ITERATION_LIMIT
    ensures info < 0 <==> reason == BREAKDOWN
  {
    CONVERGED_REASONS[Sign(info)]
  }

  /** A constructed iterative solver: its configuration (holding the method name as
      configured), its matrix, and the routine actually bound. */
  datatype IterativeSolver = IterativeSolver(conf: IterativeConf, mtx: Option<MatrixRef>, routine: string)

  /** The solver, and whether the "does not exist, using cg instead" notice was printed. */
  datatype IterativeSetup = IterativeSetup(solver: IterativeSolver, fellBack: bool)

  /** The diagnostic line of a call: configured method name, raw outcome, reason. */
  datatype Report = Report(methodName: string, info: int, reason: string)

  datatype IterativeOutcome = IterativeOutcome(sol: Vec, report: Report)

  /** `ScipyIterative.__init__`: `getattr(la, method)`, falling back to `la.cg` when
      the name is not an attribute of the Krylov module. An unknown name never
      raises; only a module without `cg` itself would. */
  function IterativeConstruct(conf: IterativeConf, env: Env, mtx: Option<MatrixRef>): (r: Result<IterativeSetup>)
    ensures r.Err? <==> conf.methodName !in env.krylov && "cg" !in env.krylov
    ensures r.Err? ==> r.error == AttributeError("cg")
    ensures r.Ok? ==> r.value.solver.conf == conf && r.value.solver.mtx == mtx
    ensures r.Ok? ==> (r.value.fellBack <==> conf.methodName !in env.krylov)
    ensures r.Ok? ==> r.value.solver.routine in env.krylov
    ensures r.Ok? && !r.value.fellBack ==> r.value.solver.routine == conf.methodName
    ensures r.Ok? && r.value.fellBack ==> r.value.solver.routine == "cg"
  {
    if conf.methodName in env.krylov then Ok(IterativeSetup(IterativeSolver(conf, mtx, conf.methodName), false))
    else if "cg" in env.krylov then Ok(IterativeSetup(IterativeSolver(conf, mtx, "cg"), true))
    else Err(AttributeError("cg"))
  }

  /** `ScipyIterative.__call__`: the bound routine is run on the call's matrix (else
      the stored one) with `tol` the call's `eps_r` (else the configured one) and
      `maxiter` the call's `i_max` (else the configured one). `info` is the routine's
      raw outcome. The report names the method as configured, even after a fallback. */
  function IterativeCall(s: IterativeSolver, rhs: Vec, x0: Option<Vec>, o: Overrides, info: int): (r: Result<IterativeOutcome>)
    ensures r.Err? <==> o.mtx.None? && s.mtx.None?
    ensures r.Err? ==> r.error == NoMatrix
    ensures r.Ok? ==>
              && r.value.sol.KrylovSolve?
              && r.value.sol.routine == s.routine
              && r.value.sol.rhs == rhs && r.value.sol.x0 == x0
              && (o.mtx.Some? ==> r.value.sol.mtx == o.mtx.value)
              && (o.mtx.None? ==> Some(r.value.sol.mtx) == s.mtx)
              && (o.epsR.Some? ==> r.value.sol.tol == o.epsR.value)
              && (o.epsR.None? ==> r.value.sol.tol == s.conf.epsR)
              && (o.iMax.Some? ==> r.value.sol.maxIter == o.iMax.value)
              && (o.iMax.None? ==> r.value.sol.maxIter == s.conf.iMax)
    ensures r.Ok? ==> r.value.report.methodName == s.conf.methodName && r.value.report.info == info
    ensures r.Ok? ==> r.value.report.reason == ReasonOf(info)
    ensures r.Ok? ==> (r.value.report.reason == SUCCESSFUL_EXIT <==> info == 0)
  {
    var tol := o.epsR.GetOr(s.conf.epsR);
    var maxIter := o.iMax.GetOr(s.conf.iMax);
    var mtx := o.mtx.OrElse(s.mtx);
    if mtx.None? then Err(NoMatrix)
    else Ok(IterativeOutcome(KrylovSolve(s.routine, mtx.value, rhs, x0, tol, maxIter),
                             Report(s.conf.methodName, info, ReasonOf(info))))
  }

  /** An unknown method name degrades to `cg` instead of failing, while the
      configuration, and so every report, keeps the name as configured. */
  lemma UnknownMethodFallsBackToCg(conf: IterativeConf, env: Env, mtx: Option<MatrixRef>,
                                   rhs: Vec, x0: Option<Vec>, o: Overrides, info: int)
    requires conf.methodName !in env.krylov && "cg" in env.krylov
    requires o.mtx.Some? || mtx.Some?
    ensures var setup := IterativeConstruct(conf, env, mtx);
            && setup.Ok? && setup.value.fellBack && setup.value.solver.routine == "cg"
            && var out := IterativeCall(setup.value.solver, rhs, x0, o, info);
               out.Ok? && out.value.sol.routine == "cg" && out.value.report.methodName == conf.methodName
  {
  }

  /** `eps_a` never reaches scipy: a call's absolute tolerance changes nothing. */
  lemma AbsoluteToleranceIgnored(s: IterativeSolver, rhs: Vec, x0: Option<Vec>, o: Overrides, epsA: Option<real>, info: int)
    ensures IterativeCall(s, rhs, x0, o.(epsA := epsA), info) == IterativeCall(s, rhs, x0, o, info)
  {
  }
}
