/** `PyAMGSolver`: a multigrid hierarchy built by a named PyAMG constructor
    (`smoothed_aggregation_solver` for an unknown name), cached together with the
    matrix it was built from and rebuilt only when a different matrix object arrives. */
module Amg {
  import opened Common
  import opened Backend
  import opened Config

  const AMG_FALLBACK: string := "smoothed_aggregation_solver"
  const PYAMG_MISSING: string := "cannot import pyamg!"

  /** A PyAMG solver: configuration, cached matrix, stored `eps_r`, bound
      constructor, cached hierarchy (`mg`) and the number of hierarchies built. */
  datatype AmgSolver = AmgSolver(conf: AmgConf, mtx: Option<MatrixRef>, epsR: real,
                                 builder: string, mg: Option<Hierarchy>, builds: nat)

  datatype AmgSetup = AmgSetup(solver: AmgSolver, fellBack: bool)

  /** The solver after a call, the solution, and whether the hierarchy was rebuilt. */
  datatype AmgStep = AmgStep(solver: AmgSolver, sol: Vec, rebuilt: bool)

  /** A hierarchy is cached exactly when a matrix is, and it is the bound
      constructor's hierarchy of that very matrix. */
  predicate Consistent(s: AmgSolver) {
    && (s.mg.Some? <==> s.mtx.Some?)
    && (s.mg.Some? ==> s.mg.value == Hierarchy(s.builder, s.mtx.value))
  }

  /** `PyAMGSolver.__init__`: `pyamg` must import; the constructor is
      `getattr(pyamg, method)`, else `smoothed_aggregation_solver`; a hierarchy is
      built at once only when a matrix is given. */
  function AmgConstruct(conf: AmgConf, env: Env, mtx: Option<MatrixRef>): (r: Result<AmgSetup>)
    ensures env.pyamg.None? ==> r == Err(ImportError(PYAMG_MISSING))
    ensures r.Err? <==> env.pyamg.None? || (conf.methodName !in env.pyamg.value && AMG_FALLBACK !in env.pyamg.value)
    ensures env.pyamg.Some? && r.Err? ==> r.error == AttributeError(AMG_FALLBACK)
    ensures r.Ok? ==> Consistent(r.value.solver)
    ensures r.Ok? ==> r.value.solver.conf == conf && r.value.solver.mtx == mtx && r.value.solver.epsR == conf.epsR
    ensures r.Ok? ==> r.value.solver.builder in env.pyamg.value
    ensures r.Ok? ==> (r.value.fellBack <==> conf.methodName !in env.pyamg.value)
    ensures r.Ok? && !r.value.fellBack ==> r.value.solver.builder == conf.methodName
    ensures r.Ok? && r.value.fellBack ==> r.value.solver.builder == AMG_FALLBACK
    ensures r.Ok? ==> (r.value.solver.builds == 0 <==> mtx.None?) && r.value.solver.builds <= 1
  {
    if env.pyamg.None? then Err(ImportError(PYAMG_MISSING))
    else
      var attrs := env.pyamg.value;
      if conf.methodName !in attrs && AMG_FALLBACK !in attrs then Err(AttributeError(AMG_FALLBACK))
      else
        var fellBack := conf.methodName !in attrs;
        var builder := if fellBack then AMG_FALLBACK else conf.methodName;
        var mg := if mtx.Some? then Some(Hierarchy(builder, mtx.value)) else None;
        Ok(AmgSetup(AmgSolver(conf, mtx, conf.epsR, builder, mg, if mtx.Some? then 1 else 0), fellBack))
  }

  /** `PyAMGSolver.__call__`. The hierarchy is rebuilt when none is cached or the
      call's matrix is not the very object cached; the call's matrix is then
      cached. The tolerance is the call's `eps_r` (else the stored one), the
      acceleration comes from the call's configuration (else the stored one), and
      the stored configuration is never changed. */
  function AmgCall(s: AmgSolver, rhs: Vec, x0: Option<Vec>, conf: Option<AmgConf>, o: Overrides): (r: Result<AmgStep>)
    ensures r.Err? <==> s.mg.None? && o.mtx.None? && s.mtx.None?
    ensures r.Err? ==> r.error == NoMatrix
    ensures r.Ok? ==> (r.value.rebuilt <==> s.mg.None? || (o.mtx.Some? && o.mtx != s.mtx))
    ensures r.Ok? && !r.value.rebuilt ==> r.value.solver == s
    ensures r.Ok? && r.value.rebuilt ==>
              && r.value.solver.mtx.Some?
              && r.value.solver.mg == Some(Hierarchy(s.builder, r.value.solver.mtx.value))
              && r.value.solver.mtx == o.mtx.OrElse(s.mtx)
              && r.value.solver.builds == s.builds + 1
    ensures r.Ok? ==> r.value.solver.conf == s.conf && r.value.solver.epsR == s.epsR
                      && r.value.solver.builder == s.builder
    ensures r.Ok? ==>
              && r.value.solver.mg.Some?
              && r.value.sol == AmgSolve(r.value.solver.mg.value, rhs, x0,
                                         (if conf.Some? then conf.value else s.conf).accel,
                                         o.epsR.GetOr(s.epsR))
  {
    var c := conf.GetOr(s.conf);
    var epsR := o.epsR.GetOr(s.epsR);
    var mtx := o.mtx.OrElse(s.mtx);
    var rebuild := s.mg.None? || mtx != s.mtx;
    if rebuild && mtx.None? then Err(NoMatrix)
    else
      var s' := if rebuild
                then s.(mg := Some(Hierarchy(s.builder, mtx.value)), mtx := mtx, builds := s.builds + 1)
                else s;
      Ok(AmgStep(s', AmgSolve(s'.mg.value, rhs, x0, c.accel, epsR), rebuild))
  }

  /** Calls keep a consistent solver consistent; on a consistent solver a call
      fails only when no matrix is known at all, and it rebuilds exactly when it is
      handed a matrix object other than the cached one. */
  lemma AmgCallPreservesConsistent(s: AmgSolver, rhs: Vec, x0: Option<Vec>, conf: Option<AmgConf>, o: Overrides)
    requires Consistent(s)
    ensures AmgCall(s, rhs, x0, conf, o).Err? <==> o.mtx.None? && s.mtx.None?
    ensures var r := AmgCall(s, rhs, x0, conf, o);
            r.Ok? ==> Consistent(r.value.solver)
                      && (r.value.rebuilt <==> o.mtx.Some? && o.mtx != s.mtx)
  {
  }

  /** Solve once per matrix of `ms`, passing each as the call's matrix. */
  function RunAmg(s: AmgSolver, ms: seq<MatrixRef>, rhs: Vec): Result<AmgSolver>
    decreases |ms|
  {
    if |ms| == 0 then Ok(s)
    else
      match AmgCall(s, rhs, None, None, MatrixOnly(ms[0]))
      case Err(e) => Err(e)
      case Ok(step) => RunAmg(step.solver, ms[1..], rhs)
  }

  /** Over any run of calls, hierarchies are built exactly as often as the matrix
      object changes: the same reference again costs no rebuild, a different one
      costs exactly one. */
  lemma {:induction false} RunAmgBuilds(s: AmgSolver, ms: seq<MatrixRef>, rhs: Vec)
    requires Consistent(s)
    ensures RunAmg(s, ms, rhs).Ok?
    ensures Consistent(RunAmg(s, ms, rhs).value)
    ensures RunAmg(s, ms, rhs).value.builds == s.builds + Switches(s.mtx, ms)
    ensures |ms| > 0 ==> RunAmg(s, ms, rhs).value.mtx == Some(ms[|ms| - 1])
    decreases |ms|
  {
    if |ms| > 0 {
      AmgCallPreservesConsistent(s, rhs, None, None, MatrixOnly(ms[0]));
      var step := AmgCall(s, rhs, None, None, MatrixOnly(ms[0]));
      RunAmgBuilds(step.value.solver, ms[1..], rhs);
      if |ms| > 1 {
        assert ms[1..][|ms[1..]| - 1] == ms[|ms| - 1];
      }
    }
  }

  /** Repeated calls with the matrix already cached never rebuild. */
  lemma SameMatrixNeverRebuilds(s: AmgSolver, ms: seq<MatrixRef>, rhs: Vec)
    requires Consistent(s) && s.mtx.Some?
    requires forall i | 0 <= i < |ms| :: ms[i] == s.mtx.value
    ensures RunAmg(s, ms, rhs).Ok? && RunAmg(s, ms, rhs).value.builds == s.builds
  {
    RunAmgBuilds(s, ms, rhs);
    SwitchesOfRepeats(s.mtx.value, ms);
  }
}
