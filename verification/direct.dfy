/** `ScipyDirect` and its compatibility subclass `Umfpack`: choosing between SuperLU
    and UMFPACK through scipy's process-wide `useUmfpack` switch, optional
    prefactorization at construction, and one-shot solves otherwise. The switch is
    explicit state here: construction takes and returns it, a call reads it. */
module Direct {
  import opened Common
  import opened Backend
  import opened Imports
  import opened Config

  const DSOLVE_IMPORTS: seq<Import> := [
    Import("scipy.linsolve", "sls"),
    Import("scipy.splinalg.dsolve", "sls"),
    Import("scipy.sparse.linalg.dsolve", "sls")]

  const DSOLVE_FAIL_MSG: string := "cannot import scipy sparse direct solvers!"

  const UMFPACK_IMPORTS: seq<Import> := [
    Import("scipy.linsolve.umfpack", "um"),
    Import("scipy.splinalg.dsolve.umfpack", "um"),
    Import("scipy.sparse.linalg.dsolve.umfpack", "um"),
    Import("scikits.umfpack", "um")]

  predicate IsDirectMethod(name: string) {
    name == "auto" || name == "superlu" || name == "umfpack"
  }

  function UnknownMethod(name: string): Error {
    ValueError("uknown solution method! (" + name + ")")
  }

  /** `is_umfpack`: the first UMFPACK candidate that imports carries `UMFPACK_OK`.
      Only that first module is inspected; a later candidate never rescues it. */
  function UmfpackAvailable(env: Env): (b: bool)
    ensures b <==> exists k :: IsFirstWorking(UMFPACK_IMPORTS, env.importable, k)
                              && UMFPACK_IMPORTS[k].path in env.umfpackOk
  {
    var aux := ProbeImports(UMFPACK_IMPORTS, env.importable, None);
    var um := Lookup(aux.value, "um");
    um.Ok? && um.value.path in env.umfpackOk
  }

  /** The outcome of the method check: the value of the `useUmfpack` switch after
      it, and whether the "umfpack not available" notice is printed. */
  datatype Resolution = Resolution(useUmfpack: bool, notice: bool)

  /** The method check of `ScipyDirect.__init__`. `superlu` switches UMFPACK off;
      `auto` and `umfpack` switch it on exactly when it is available and otherwise
      leave the switch as it was; anything else is a `ValueError`. A missing
      UMFPACK never raises, and the notice is printed only when `warn` is set. */
  function ResolveMethod(name: string, isUmfpack: bool, warn: bool, useUmfpack: bool): (r: Result<Resolution>)
    ensures r.Err? <==> !IsDirectMethod(name)
    ensures r.Err? ==> r.error == UnknownMethod(name)
    ensures name == "superlu" ==> r == Ok(Resolution(false, false))
    ensures r.Ok? && name != "superlu" && isUmfpack ==> r.value.useUmfpack
    ensures r.Ok? && !isUmfpack ==> r.value.useUmfpack == (name != "superlu" && useUmfpack)
    ensures r.Ok? ==> (r.value.notice <==> name == "umfpack" && !isUmfpack && warn)
  {
    var checked: Result<Resolution> :=
      if name == "superlu" then Ok(Resolution(false, false))
      else if name == "umfpack" then Ok(Resolution(useUmfpack, !isUmfpack && warn))
      else if name != "auto" then Err(UnknownMethod(name))
      else Ok(Resolution(useUmfpack, false));
    if checked.Ok? && name != "superlu" && isUmfpack
    then Ok(checked.value.(useUmfpack := true))
    else checked
  }

  /** A constructed direct solver: its configuration, the matrix and `presolve`
      attribute it was given, and the factorization made at construction. The
      attribute is `None` when absent and `Some(v)` when set, where `v` may itself
      be Python's `None`. */
  datatype DirectSolver = DirectSolver(conf: DirectConf, mtx: Option<MatrixRef>,
                                       presolve: Option<Option<bool>>, factor: Option<Factor>)

  datatype DirectSetup = DirectSetup(solver: DirectSolver, useUmfpack: bool, notice: bool)

  /** `_presolve`: an instance `presolve` attribute, when present, is returned as
      it is, and a `None` there counts as false; only an absent attribute defers to
      the configured item. */
  function PresolveOf(conf: DirectConf, presolve: Option<Option<bool>>): (b: bool)
    ensures presolve.None? ==> b == conf.presolve
    ensures presolve.Some? ==> (b <==> presolve.value == Some(true))
  {
    match presolve
    case None => conf.presolve
    case Some(attr) => attr.GetOr(false)
  }

  /** `ScipyDirect.__init__` as written. `try_imports` returns normally even when
      no candidate imports, so a missing scipy direct solver surfaces as
      `KeyError('sls')` at the lookup of its result, before the method check. A
      factorization is made, with the switch as just set, exactly when presolving is
      on and a matrix is present. */
  function DirectConstruct(conf: DirectConf, env: Env, useUmfpack: bool,
                           mtx: Option<MatrixRef>, presolve: Option<Option<bool>>): (r: Result<DirectSetup>)
    ensures NoneImportable(DSOLVE_IMPORTS, env.importable) ==> r == Err(KeyError("sls"))
    ensures !NoneImportable(DSOLVE_IMPORTS, env.importable) && !IsDirectMethod(conf.methodName)
            ==> r == Err(UnknownMethod(conf.methodName))
    ensures r.Ok? <==> !NoneImportable(DSOLVE_IMPORTS, env.importable) && IsDirectMethod(conf.methodName)
    ensures r.Ok? ==> r.value.solver.conf == conf && r.value.solver.mtx == mtx
                      && r.value.solver.presolve == presolve
    ensures r.Ok? ==> (r.value.useUmfpack <==>
                         conf.methodName != "superlu" && (UmfpackAvailable(env) || useUmfpack))
    ensures r.Ok? ==> (r.value.notice <==> conf.methodName == "umfpack" && !UmfpackAvailable(env) && conf.warn)
    ensures r.Ok? ==> (r.value.solver.factor.Some? <==> PresolveOf(conf, presolve) && mtx.Some?)
    ensures r.Ok? && r.value.solver.factor.Some?
            ==> r.value.solver.factor.value == Factor(mtx.value, r.value.useUmfpack)
  {
    // without a message the probe is what `TryImports` computes: it never fails
    var aux := ProbeImports(DSOLVE_IMPORTS, env.importable, None);
    var sls :- Lookup(aux.value, "sls");
    var res :- ResolveMethod(conf.methodName, UmfpackAvailable(env), conf.warn, useUmfpack);
    var factor := if PresolveOf(conf, presolve) && mtx.Some?
                  then Some(Factor(mtx.value, res.useUmfpack)) else None;
    Ok(DirectSetup(DirectSolver(conf, mtx, presolve, factor), res.useUmfpack, res.notice))
  }

  /** `ScipyDirect.__init__` with the probe's `else` read as the evidently intended
      `for … else`: a missing scipy direct solver is `ValueError(fail_msg)`, and in
      every other environment the constructor behaves exactly as written. */
  function DirectConstructIntended(conf: DirectConf, env: Env, useUmfpack: bool,
                                   mtx: Option<MatrixRef>, presolve: Option<Option<bool>>): (r: Result<DirectSetup>)
    ensures NoneImportable(DSOLVE_IMPORTS, env.importable) ==> r == Err(ValueError(DSOLVE_FAIL_MSG))
    ensures !NoneImportable(DSOLVE_IMPORTS, env.importable)
            ==> r == DirectConstruct(conf, env, useUmfpack, mtx, presolve)
  {
    var aux :- ProbeImports(DSOLVE_IMPORTS, env.importable, Some(DSOLVE_FAIL_MSG));
    DirectConstruct(conf, env, useUmfpack, mtx, presolve)
  }

  /** `Umfpack.__init__`: the configured method is overwritten with `umfpack`, so
      the method check can never fail; UMFPACK is used when available and the
      switch is otherwise left alone. Matrix, `presolve` attribute and
      prefactorization are those of `ScipyDirect.__init__`. */
  function UmfpackConstruct(conf: DirectConf, env: Env, useUmfpack: bool,
                            mtx: Option<MatrixRef>, presolve: Option<Option<bool>>): (r: Result<DirectSetup>)
    ensures r.Err? <==> NoneImportable(DSOLVE_IMPORTS, env.importable)
    ensures r.Err? ==> r.error == KeyError("sls")
    ensures r.Ok? ==> r.value.solver.conf == conf.(methodName := "umfpack")
    ensures r.Ok? ==> r.value.useUmfpack == (UmfpackAvailable(env) || useUmfpack)
    ensures r.Ok? ==> (r.value.notice <==> !UmfpackAvailable(env) && conf.warn)
    ensures r.Ok? ==> r.value.solver.mtx == mtx && r.value.solver.presolve == presolve
    ensures r.Ok? ==> (r.value.solver.factor.Some? <==> PresolveOf(conf, presolve) && mtx.Some?)
    ensures r.Ok? && r.value.solver.factor.Some?
            ==> r.value.solver.factor.value == Factor(mtx.value, r.value.useUmfpack)
  {
    DirectConstruct(conf.(methodName := "umfpack"), env, useUmfpack, mtx, presolve)
  }

  /** `ScipyDirect.__call__`. A factorization made at construction is applied to
      the right-hand side and any matrix passed to the call is ignored; otherwise
      the call matrix, or else the stored one, is solved once with the switch as it
      stands at call time. Tolerance overrides have no effect. */
  function DirectCall(s: DirectSolver, useUmfpack: bool, rhs: Vec, o: Overrides): (r: Result<Vec>)
    ensures s.factor.Some? ==> r == Ok(FactorSolve(s.factor.value, rhs))
    ensures s.factor.None? ==> (r.Ok? <==> o.mtx.Some? || s.mtx.Some?)
    ensures s.factor.None? && r.Ok? ==>
              && r.value.SpSolve? && r.value.useUmfpack == useUmfpack && r.value.rhs == rhs
              && (o.mtx.Some? ==> r.value.mtx == o.mtx.value)
              && (o.mtx.None? ==> Some(r.value.mtx) == s.mtx)
    ensures r.Err? ==> r.error == NoMatrix
  {
    var mtx := o.mtx.OrElse(s.mtx);
    if s.factor.Some? then Ok(FactorSolve(s.factor.value, rhs))
    else if mtx.Some? then Ok(SpSolve(useUmfpack, mtx.value, rhs))
    else Err(NoMatrix)
  }

  /** Once prefactorized, every call solves with the construction-time
      factorization: the result depends only on the right-hand side, not on the
      matrix, tolerances or switch of the call. */
  lemma PrefactorizedCallsAgree(s: DirectSolver, flag1: bool, flag2: bool, rhs: Vec, o1: Overrides, o2: Overrides)
    requires s.factor.Some?
    ensures DirectCall(s, flag1, rhs, o1) == DirectCall(s, flag2, rhs, o2)
  {
  }

  /** Construct with presolving and a matrix `a`, then call with any matrix: the
      solution comes from `a`'s factorization made with the switch of construction
      time. */
  lemma PresolvedConstructThenCall(conf: DirectConf, env: Env, flag: bool, a: MatrixRef,
                                   presolve: Option<Option<bool>>, flagNow: bool, rhs: Vec, o: Overrides)
    requires !NoneImportable(DSOLVE_IMPORTS, env.importable) && IsDirectMethod(conf.methodName)
    requires PresolveOf(conf, presolve)
    ensures var setup := DirectConstruct(conf, env, flag, Some(a), presolve);
            setup.Ok? && DirectCall(setup.value.solver, flagNow, rhs, o)
                         == Ok(FactorSolve(Factor(a, setup.value.useUmfpack), rhs))
  {
  }

  /** Presolving requested but no matrix at construction: no factorization is made
      and each call silently falls back to a one-shot solve of its own matrix. */
  lemma PresolveWithoutMatrixSolvesPerCall(conf: DirectConf, env: Env, flag: bool,
                                           presolve: Option<Option<bool>>, flagNow: bool, rhs: Vec, m: MatrixRef)
    requires !NoneImportable(DSOLVE_IMPORTS, env.importable) && IsDirectMethod(conf.methodName)
    ensures var setup := DirectConstruct(conf, env, flag, None, presolve);
            setup.Ok? && setup.value.solver.factor.None?
            && DirectCall(setup.value.solver, flagNow, rhs, MatrixOnly(m)) == Ok(SpSolve(flagNow, m, rhs))
  {
  }

  /** An instance `presolve` attribute set to `None` switches prefactorization off
      even when the configuration asks for it: no factorization is made, and each
      call solves its own matrix once. */
  lemma PresolveSetToNoneSolvesPerCall(conf: DirectConf, env: Env, flag: bool, a: MatrixRef,
                                       flagNow: bool, rhs: Vec, m: MatrixRef)
    requires !NoneImportable(DSOLVE_IMPORTS, env.importable) && IsDirectMethod(conf.methodName)
    ensures var setup := DirectConstruct(conf, env, flag, Some(a), Some(None));
            setup.Ok? && setup.value.solver.factor.None?
            && DirectCall(setup.value.solver, flagNow, rhs, MatrixOnly(m)) == Ok(SpSolve(flagNow, m, rhs))
  {
  }

  /** The direct-solver probe of `ScipyDirect.__init__` as written: `try_imports`
      never raises its message, so when no candidate imports the failure surfaces
      as `KeyError('sls')` at the lookup of its result. */
  method BindDsolveAsWritten(importable: set<string>) returns (r: Result<Import>)
    ensures NoneImportable(DSOLVE_IMPORTS, importable) ==> r == Err(KeyError("sls"))
    ensures !NoneImportable(DSOLVE_IMPORTS, importable) ==> r.Ok? && r.value.alias == "sls"
  {
    var aux := TryImports(DSOLVE_IMPORTS, importable, Some(DSOLVE_FAIL_MSG));
    r := Lookup(aux.value, "sls");
  }
}
