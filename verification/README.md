# sfepy linear-solver adapters: backend selection and setup caching

This project models the decision logic of sfepy's linear-solver layer,
`sfepy/solvers/ls.py`. That layer has four adapters:

- `ScipyDirect`, with its compatibility subclass `Umfpack`;
- `ScipyIterative`;
- `PyAMGSolver`;
- `PETScKrylovSolver`.

The model covers:

- probing for providers with `try_imports`;
- filling configuration defaults in each `process_conf`;
- checking the direct-solver method against UMFPACK availability, through scipy's process-wide `useUmfpack` switch;
- prefactorization at construction;
- the Krylov and multigrid name fallbacks;
- mapping the Krylov outcome to a reason;
- the identity-based caches of the PyAMG hierarchy and of the PETSc native matrix and vectors.

Each numerical back end is treated as an opaque capability:

- A matrix is a `MatrixRef` identity token. Token equality is Python's `is`.
- Every solve returns a symbolic `Vec` term. The term names the back end that was called and everything it was handed: matrix, right-hand side, initial guess or solution vector, tolerances and iteration cap.
- A back end's raw outcome code is a parameter of the call step. This covers scipy's `info` and PETSc's `ksp.reason`.
- The environment is an `Env` value. It records which modules import, which of them carry `UMFPACK_OK`, and the attribute names of the scipy Krylov module and of `pyamg`.

The adapters are immutable records, and construction and calls are pure functions. A call returns the updated record, the solution, and whether setup was rebuilt. scipy's global `useUmfpack` switch is explicit state: construction takes it and returns its new value, and a one-shot direct solve reads it at call time.

Modules:

- `Common`: `Option`, `Result` and the raised exceptions.
- `Backend`: matrix tokens, solve terms, the environment, per-call overrides, and the count of matrix switches.
- `Imports`: `try_imports`, as written and corrected.
- `Config`: the four `process_conf`.
- `Direct`, `Iterative`, `Amg`, `Petsc`: one module per adapter.

The `conf` passed to each constructor is taken to be the configuration after that adapter's `process_conf` has run. The base classes in `sfepy/solvers/solvers.py` are not part of this model.

The model follows the code in four places where a reader might expect otherwise:

- A requested but unavailable UMFPACK does not force SuperLU. No `use_solver` call is made, so the global switch keeps whatever value it had. That value may be UMFPACK, set by an earlier solver.
- The "does not exist, using cg instead" notices of the iterative and multigrid adapters are printed unconditionally. `warn` does not gate them.
- A missing scipy direct solver does not raise the intended `ValueError`. It surfaces as `KeyError('sls')` at line 56. See Findings.
- The per-call `conf` of `PETScKrylovSolver.__call__` is fetched and never read, although the class documentation says it overrides tolerances. See Findings.

## Model

| member | source | states |
|---|---|---|
| Imports.FirstWorkingFrom | sfepy/solvers/ls.py:9-14 | the index returned is the first importable candidate at or after the start, or the end when none imports |
| Imports.ProbeImports | sfepy/solvers/ls.py:8-18 | corrected probe: binds the first importable candidate after exactly that many attempts, so no later one is tried; raises ValueError(fail_msg) exactly when no candidate imports and a message is given |
| Imports.TryImports | sfepy/solvers/ls.py:8-18 | as-written probe: never raises, whatever `fail_msg` is, and always agrees with the corrected probe given no message |
| Imports.Lookup | sfepy/solvers/ls.py:56 | `aux[name]` succeeds exactly when the probe bound that alias, and otherwise is KeyError(name) |
| Direct.BindDsolveAsWritten | sfepy/solvers/ls.py:52-56 | as written, when no scipy direct-solver module imports, construction fails with KeyError('sls'), not the message passed to `try_imports`; otherwise `sls` is bound |
| Direct.UmfpackAvailable | sfepy/solvers/ls.py:57-67 | UMFPACK counts as available exactly when the first UMFPACK candidate that imports carries `UMFPACK_OK` |
| Direct.ResolveMethod | sfepy/solvers/ls.py:69-80 | an error exactly for a method other than auto/superlu/umfpack; superlu turns UMFPACK off; auto and umfpack turn it on when available and otherwise leave the switch unchanged; the notice is printed exactly for an unavailable umfpack with warn set |
| Direct.DirectConstruct | sfepy/solvers/ls.py:47-85 | as written, a missing direct solver is KeyError('sls'), raised before the method check; an unknown method raises; otherwise the switch is set as resolved, and a factorization of the given matrix, made under the new switch, exists exactly when `_presolve()` holds and a matrix is present (lines 99-103: an instance attribute, when present, decides, and `None` there means no factorization) |
| Direct.DirectConstructIntended | sfepy/solvers/ls.py:8-18 | corrected constructor: a missing direct solver is ValueError('cannot import scipy sparse direct solvers!'); in every other environment it agrees with the constructor as written |
| Direct.UmfpackConstruct | sfepy/solvers/ls.py:110-112 | the stored method is umfpack whatever was configured, so construction fails only when no direct solver imports, and then with KeyError('sls'); the matrix, the `presolve` attribute and the prefactorization are passed through to `ScipyDirect.__init__` unchanged, so a matrix is factorized exactly when `_presolve()` holds (lines 82-85) |
| Direct.DirectCall | sfepy/solvers/ls.py:87-97 | with a factorization, the result is that factorization applied to rhs, whatever matrix is passed; otherwise it is a one-shot solve of the call's matrix, else the stored one, under the switch at call time; it fails when neither matrix exists |
| Direct.PrefactorizedCallsAgree | sfepy/solvers/ls.py:93-95 | a prefactorized solver gives the same result for the same rhs whatever the call's matrix, tolerances or switch |
| Direct.PresolveOf | sfepy/solvers/ls.py:99-103 | an instance `presolve` attribute, when present, decides even when it is `None`, which counts as false; only an absent attribute defers to conf.presolve |
| Direct.PresolveSetToNoneSolvesPerCall | sfepy/solvers/ls.py:82-103 | with the instance attribute set to `None`, a matrix at construction is still not factorized even when conf.presolve is True, and each call solves its own matrix once |
| Direct.PresolvedConstructThenCall | sfepy/solvers/ls.py:82-95 | constructing with presolve and matrix A and then calling with any matrix solves with A's construction-time factorization |
| Direct.PresolveWithoutMatrixSolvesPerCall | sfepy/solvers/ls.py:82-97 | presolve without a matrix at construction silently makes no factorization, and each call solves its own matrix once |
| Config.ProcessDirect | sfepy/solvers/ls.py:42-45 | given items are kept; missing ones become auto / False / True; i_max, eps_a and eps_r are always None |
| Config.ProcessIterative | sfepy/solvers/ls.py:146-149 | given items are kept; missing ones become cg / 100 / 1e-8; eps_a is always None |
| Config.ProcessAmg | sfepy/solvers/ls.py:223-226 | given items are kept; missing ones become smoothed_aggregation_solver / None / 1e-8; i_max and eps_a are always None |
| Config.ProcessPetsc | sfepy/solvers/ls.py:299-303 | given items are kept; missing ones become cg / icc / 100 / 1e-8 / 1e-8 |
| Config.DirectProcessingStable | sfepy/solvers/ls.py:42-45 | processing an already processed configuration changes nothing; configurations that agree on method, presolve and warn process identically, so other items are ignored and never an error |
| Config.IterativeProcessingStable | sfepy/solvers/ls.py:146-149 | processing is idempotent; only method, i_max and eps_r are read |
| Config.AmgProcessingStable | sfepy/solvers/ls.py:223-226 | processing is idempotent; only method, accel and eps_r are read |
| Config.PetscProcessingStable | sfepy/solvers/ls.py:299-303 | processing is idempotent; only method, precond, i_max, eps_a and eps_r are read |
| Iterative.ReasonOf | sfepy/solvers/ls.py:171-188 | the reason lookup is defined for every integer: 0 gives 'successful exit', positive gives 'number of iterations', negative gives 'illegal input or breakdown' |
| Iterative.IterativeConstruct | sfepy/solvers/ls.py:164-170 | a known name binds that routine; an unknown name binds cg with a notice and keeps the configured name; only a module without cg fails |
| Iterative.IterativeCall | sfepy/solvers/ls.py:177-190 | the bound routine gets the call's matrix, eps_r and i_max, else the configured ones; the report carries the configured name, the raw outcome, and the reason `converged_reasons` gives for its sign |
| Iterative.UnknownMethodFallsBackToCg | sfepy/solvers/ls.py:164-188 | an unknown method builds a cg solver whose solves use cg and whose reports keep the configured name |
| Iterative.AbsoluteToleranceIgnored | sfepy/solvers/ls.py:177-185 | a call's eps_a never changes its outcome |
| Amg.AmgConstruct | sfepy/solvers/ls.py:230-249 | pyamg must import; an unknown method falls back to smoothed_aggregation_solver; a hierarchy is built at construction exactly when a matrix is given |
| Amg.AmgCall | sfepy/solvers/ls.py:251-264 | the hierarchy is rebuilt exactly when none is cached or the call's matrix is a different object; after a rebuild the call's matrix, else the stored one, is cached with its hierarchy; tolerance and acceleration come from the call, else the stored values, and stored configuration never changes |
| Amg.AmgCallPreservesConsistent | sfepy/solvers/ls.py:258-260 | the cached hierarchy always belongs to the cached matrix; on such a solver a call rebuilds exactly when handed a different matrix object |
| Amg.RunAmgBuilds | sfepy/solvers/ls.py:258-260 | over any sequence of calls, the number of hierarchy builds grows by exactly the number of matrix-object switches |
| Amg.SameMatrixNeverRebuilds | sfepy/solvers/ls.py:258-260 | repeated calls with the cached matrix object never rebuild |
| Petsc.PetscConstruct | sfepy/solvers/ls.py:305-328 | petsc4py must import; KSP and PC types are the configured ones; native data is made at construction exactly when a matrix is given |
| Petsc.PetscCall | sfepy/solvers/ls.py:345-373 | native data is rebuilt exactly when none is cached or the matrix is a different object, and after a rebuild the call's matrix, else the stored one, is cached; atol, rtol and max_it are the call's keywords, else the stored ones, and are set on every call; the call's conf is never read; the solution vector handed to `ksp.solve` is overwritten with x0 only when x0 is given; rhs is always overwritten; the returned solution is the native solution |
| Petsc.PetscCallPreservesConsistent | sfepy/solvers/ls.py:355-359 | native data always belongs to the cached matrix and is the KSP operator; on such a solver a call rebuilds exactly when handed a different matrix object |
| Petsc.PetscCallIgnoresCallConf | sfepy/solvers/ls.py:345-361 | as written, two calls that differ only in their conf give the same result |
| Petsc.PetscCallIntended | sfepy/solvers/ls.py:269-271 | corrected call: tolerances not passed as keywords come from the call's conf when one is given; without a conf it is the call as written; stored state is unchanged by the conf |
| Petsc.CallConfToleranceIgnored | sfepy/solvers/ls.py:345-361 | a conf with its own eps_r and no eps_r keyword: as written the solve uses the stored eps_r, as intended the conf's, so the two calls differ |
| Petsc.SolutionVectorKeepsPreviousSolution | sfepy/solvers/ls.py:364-368 | without x0, a call on the same matrix hands `ksp.solve` a solution vector that still holds the previous call's solution |
| Petsc.RunPetscBuilds | sfepy/solvers/ls.py:355-359 | over any sequence of calls, the number of native rebuilds grows by exactly the number of matrix-object switches |

## Left out

- The numerical solves are opaque library calls: `spsolve`, `factorized`, the scipy Krylov routines, the PyAMG hierarchy constructors and `mg.solve`, and `ksp.solve`. They appear only as symbolic `Vec` terms, and their raw outcome codes are parameters.
- Matrix contents are not modelled, only matrix identity. A matrix changed in place by its caller is still the same object, so its cached factorization, hierarchy or PETSc native copy is reused with the old values. That is the trade-off of the `is` check the code makes.
- `set_matrix` converts a matrix to CSR and then to a PETSc AIJ matrix. The model records only that a native copy and two fresh vectors now belong to that matrix.
- The PETSc `ConvergedReason` reflection table depends on petsc4py's enum contents. Reports carry only the raw reason code.
- Tolerance meaning is not modelled: the stopping rule `rnorm < max(eps_r * rnorm_0, eps_a)`, the joint absolute/relative use of `eps_r` by scipy, and PyAMG's scaling by `||b||`. Tolerances are pass-through `real` values, and nothing is computed with them.
- Choosing the Krylov module path by comparing scipy version strings is not modelled. That import has no guard in the code, and the model assumes it succeeds.
- `exec`-based imports are modelled as membership of the module path in the environment's importable set. The bare `except` catches any failure, and the model treats every failure the same way.
- `output` text is not modelled. What it reports is modelled as booleans (`notice`, `fellBack`) or `Report` records.
- `LinearSolver`, `make_get_conf`, `get_default` and `Struct` come from sfepy's base modules, which are not part of this model. Only their observable use is modelled: "the value if not None, else the default".
- Two details of that base-class machinery are not modelled: how constructor keywords merge into the configuration, and the `+ common` items of each `process_conf`.
- An absent `mtx` attribute is treated the same as `mtx = None`. Whether the base class always sets it is decided in `sfepy/solvers/solvers.py`, which is not part of this model. An absent `presolve` attribute is modelled apart from one set to `None`, as `_presolve` tells them apart.
- The `status` argument of every `__call__` is fetched and never used.
- The per-call `conf` argument is modelled for PyAMG, which reads `accel` from it, and for PETSc, which fetches it and never reads it. The direct and iterative adapters never read it either, and there it is not modelled.
- `use_solver`'s `assumeSortedIndices` option is not modelled.
- `ksp.setFromOptions` and the PETSc options database are not modelled.
- Whether KSP reads the vector handed to `ksp.solve` as an initial guess is back-end behaviour and is not modelled. PETSc zeroes it unless the initial-guess-nonzero option is set, and the code never sets that option itself. The model states only what that vector holds: x0 when given, else the previous solution or a fresh allocation.
- `Umfpack.__init__` writes `method` into the caller's own configuration object. The model passes on an updated copy instead, so the caller's copy is unchanged.
- A `None` matrix that reaches a back end is reported as `NoMatrix`. The library's own exception is not modelled.
- The solver factory that maps a configuration's `kind` to an adapter class lives outside `ls.py` and is not modelled.
- Returned solutions are immutable values. A later call therefore cannot alter an earlier result, and no separate lemma states this.

## Findings

| source | as written | input that shows it | evidently intended | confidence | as-written member | corrected member |
|---|---|---|---|---|---|---|
| sfepy/solvers/ls.py:8-18 | the `else` that raises `ValueError(fail_msg)` belongs to the `try`; its suite always ends by `break` or by an exception, so the raise never runs and `try_imports` returns normally when nothing imports | an environment where none of `scipy.linsolve`, `scipy.splinalg.dsolve`, `scipy.sparse.linalg.dsolve` imports: line 56 then raises `KeyError('sls')` instead of "cannot import scipy sparse direct solvers!" | a `for … else` that raises `ValueError(fail_msg)` when no candidate imports | high; not executed | Imports.TryImports, Direct.BindDsolveAsWritten, Direct.DirectConstruct | Imports.ProbeImports, Direct.DirectConstructIntended |
| sfepy/solvers/ls.py:269-271 | the class documentation says tolerances can be overridden by passing a `conf` to the call, but `__call__` (lines 345-361) takes `eps_a`, `eps_r` and `i_max` from its keywords or the stored values and never reads the `conf` it fetched | a call with `conf` whose `eps_r` differs from the stored one and no `eps_r` keyword: the KSP gets the stored `eps_r` | tolerances not given as keywords come from the call's `conf` | medium: the documentation may describe an older interface; not executed | Petsc.PetscCall, Petsc.PetscCallIgnoresCallConf, Petsc.CallConfToleranceIgnored | Petsc.PetscCallIntended |

`Direct.DirectConstruct` and `Petsc.PetscCall` model the code as written. `Direct.DirectConstructIntended` and `Petsc.PetscCallIntended` are the corrected definitions, each with its intended property stated in its contract.
