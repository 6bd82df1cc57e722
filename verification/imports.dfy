/** Provider probing: `try_imports` walks an ordered list of `import <path> as <alias>`
    statements and keeps the first one that succeeds. */
module Imports {
  import opened Common

  datatype Import = Import(path: string, alias: string)

  /** What a probe leaves behind: how many candidates it executed and the one that
      bound its alias, if any (the alias is then a key of the returned `locals()`). */
  datatype Probe = Probe(attempts: nat, bound: Option<Import>)

  predicate NoneImportable(imports: seq<Import>, importable: set<string>) {
    forall i | 0 <= i < |imports| :: imports[i].path !in importable
  }

  /** Candidate `k` imports and no earlier candidate does. */
  predicate IsFirstWorking(imports: seq<Import>, importable: set<string>, k: int) {
    && 0 <= k < |imports|
    && imports[k].path in importable
    && forall j | 0 <= j < k :: imports[j].path !in importable
  }

  /** The index of the first importable candidate at or after `i`, or `|imports|`. */
  function FirstWorkingFrom(imports: seq<Import>, importable: set<string>, i: nat): (k: nat)
    requires i <= |imports|
    ensures i <= k <= |imports|
    ensures forall j | i <= j < k :: imports[j].path !in importable
    ensures k < |imports| ==> imports[k].path in importable
    decreases |imports| - i
  {
    if i == |imports| then i
    else if imports[i].path in importable then i
    else FirstWorkingFrom(imports, importable, i + 1)
  }

  /** `try_imports` as evidently intended: the first importable candidate is bound
      and no later one is tried; when none imports and a failure message is given,
      `ValueError(fail_msg)` is raised. */
  function ProbeImports(imports: seq<Import>, importable: set<string>, failMsg: Option<string>): (r: Result<Probe>)
    ensures r.Err? <==> failMsg.Some? && NoneImportable(imports, importable)
    ensures r.Err? ==> r.error == ValueError(failMsg.value)
    ensures r.Ok? ==> (r.value.bound.None? <==> NoneImportable(imports, importable))
    ensures r.Ok? && r.value.bound.Some? ==>
              && 1 <= r.value.attempts <= |imports|
              && IsFirstWorking(imports, importable, r.value.attempts - 1)
              && r.value.bound.value == imports[r.value.attempts - 1]
    ensures r.Ok? && r.value.bound.None? ==> r.value.attempts == |imports|
  {
    var k := FirstWorkingFrom(imports, importable, 0);
    if k < |imports| then Ok(Probe(k + 1, Some(imports[k])))
    else if failMsg.Some? then Err(ValueError(failMsg.value))
    else Ok(Probe(|imports|, None))
  }

  /** How a `try` suite is left. Python runs the `else` clause of a `try` statement
      only when its suite falls off its end: not after an exception, and not after
      `break`, `continue` or `return`. */
  datatype SuiteExit = FellThrough | Raised | Broke

  /** The suite of one round of the probe loop is `exec imp; break`. */
  function RoundExit(imports: bool): SuiteExit {
    if imports then Broke else Raised
  }

  /** `try_imports` as written: the `else` that raises `fail_msg` belongs to the
      `try`, whose suite is always left by `break` or by an exception, so the raise
      can never happen and the probe behaves as if no message had been given. */
  method TryImports(imports: seq<Import>, importable: set<string>, failMsg: Option<string>) returns (r: Result<Probe>)
    ensures r.Ok?
    ensures r == ProbeImports(imports, importable, None)
  {
    var i := 0;
    var raising: Option<string> := None;  // a `fail_msg` raised by the else clause
    while i < |imports| && raising.None?
      invariant 0 <= i <= |imports|
      invariant raising.None?
      invariant forall j | 0 <= j < i :: imports[j].path !in importable
    {
      var exit := RoundExit(imports[i].path in importable);
      if exit == Broke {
        return Ok(Probe(i + 1, Some(imports[i])));
      }
      raising := if exit == FellThrough then failMsg else None;
      i := i + 1;
    }
    r := if raising.Some? then Err(ValueError(raising.GetOr(""))) else Ok(Probe(|imports|, None));
  }

  /** `locals()[name]` on the probe's result: a missing alias is a `KeyError`. */
  function Lookup(p: Probe, name: string): (r: Result<Import>)
    ensures r.Ok? <==> p.bound.Some? && p.bound.value.alias == name
    ensures r.Ok? ==> r.value == p.bound.value
    ensures r.Err? ==> r.error == KeyError(name)
  {
    if p.bound.Some? && p.bound.value.alias == name then Ok(p.bound.value)
    else Err(KeyError(name))
  }
}
