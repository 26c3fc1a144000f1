/** The `build` function of a generated builder: a `require` for every
    non-nullable parameter without a default, an assignment of the default to
    every non-nullable parameter that has one, then the constructor call with
    `!!` on the non-nullable arguments. A small evaluation semantics of that
    plan states what the generated function does with the values a user set. */
module BuildFunction {
  import opened Names
  import opened Generated

  /** A constructor parameter as the builder sees it: its name, whether its
      type is non-nullable, the default expression of its `@NullValue`
      annotation, and whether it is a dynamic-value parameter. */
  datatype WrappedParameter = WrappedParameter(name: string, notNull: bool, nullValue: Option<string>, isDynamic: bool)

  /** Non-nullable and without default: `build` fails when it was not set. */
  predicate Required(p: WrappedParameter) { p.notNull && p.nullValue.None? }

  /** Non-nullable with a default: `build` substitutes the default when it was not set. */
  predicate Defaulted(p: WrappedParameter) { p.notNull && p.nullValue.Some? }

  /** Constructor parameters have distinct names. */
  predicate Distinct(params: seq<WrappedParameter>)
  {
    forall i, j :: 0 <= i < j < |params| ==> params[i].name != params[j].name
  }

  function NotSetMessage(name: string): string { name + " cannot be null!" }

  /** The statement `build` runs for a non-nullable parameter. */
  function StatementFor(staticClass: ClassName, p: WrappedParameter): Stmt
    requires p.notNull
  {
    match p.nullValue
    case None => RequireNotNull(p.name, NotSetMessage(p.name))
    case Some(v) => DefaultIfNull(p.name, v, if p.isDynamic then Some(staticClass) else None)
  }

  /** The statements of `build`, one per non-nullable parameter, in declaration order. */
  function BuildStatements(staticClass: ClassName, params: seq<WrappedParameter>): seq<Stmt>
    decreases |params|
  {
    if params == [] then []
    else (if params[0].notNull then [StatementFor(staticClass, params[0])] else []) + BuildStatements(staticClass, params[1..])
  }

  /** The class itself, or the class applied to the builder's type variables. */
  function ReturnType(base: ClassName, typeVariables: seq<TypeName>): TypeName
  {
    if typeVariables == [] then Class(base, false) else Parameterized(base, typeVariables, false)
  }

  /** The `build` function generated for `base` with these constructor parameters. */
  function PlanFor(staticClass: ClassName, base: ClassName, params: seq<WrappedParameter>, typeVariables: seq<TypeName>): BuildPlan
  {
    BuildPlan(base, ReturnType(base, typeVariables), BuildStatements(staticClass, params),
              seq(|params|, i requires 0 <= i < |params| => CtorArg(params[i].name, params[i].notNull)))
  }

  lemma {:induction false} BuildStatementsSnoc(staticClass: ClassName, params: seq<WrappedParameter>, p: WrappedParameter)
    ensures BuildStatements(staticClass, params + [p])
            == BuildStatements(staticClass, params) + (if p.notNull then [StatementFor(staticClass, p)] else [])
    decreases |params|
  {
    if params == [] {
      assert [p][1..] == [];
    } else {
      assert (params + [p])[0] == params[0] && (params + [p])[1..] == params[1..] + [p];
      BuildStatementsSnoc(staticClass, params[1..], p);
    }
  }

  /** `generateBuildFunction`: the statements, then the constructor arguments. */
  method GenerateBuildFunction(staticClass: ClassName, base: ClassName, params: seq<WrappedParameter>, typeVariables: seq<TypeName>)
    returns (plan: BuildPlan)
    ensures plan == PlanFor(staticClass, base, params, typeVariables)
  {
    var stmts: seq<Stmt> := [];
    var i := 0;
    while i < |params|
      invariant 0 <= i <= |params|
      invariant stmts == BuildStatements(staticClass, params[..i])
    {
      BuildStatementsSnoc(staticClass, params[..i], params[i]);
      assert params[..i + 1] == params[..i] + [params[i]];
      if params[i].notNull {
        stmts := stmts + [StatementFor(staticClass, params[i])];
      }
      i := i + 1;
    }
    assert params[..|params|] == params;
    var args: seq<CtorArg> := [];
    i := 0;
    while i < |params|
      invariant 0 <= i <= |params|
      invariant |args| == i && forall j :: 0 <= j < i ==> args[j] == CtorArg(params[j].name, params[j].notNull)
    {
      args := args + [CtorArg(params[i].name, params[i].notNull)];
      i := i + 1;
    }
    var returnType := if typeVariables == [] then Class(base, false) else Parameterized(base, typeVariables, false);
    plan := BuildPlan(base, returnType, stmts, args);
  }

  // ---------------------------------------------------------------------
  // What the generated `build` does.

  /** A value held by a builder property: an expression, possibly wrapped in a
      constructor call of an adapter class. */
  datatype Value = Value(code: string, wrapper: Option<ClassName>)

  /** The builder's properties; a missing name holds null. */
  type Env = map<string, Value>

  datatype Progress = Continue(env: Env) | Stopped(message: string)

  datatype Outcome = Built(args: seq<Option<Value>>) | RequireFailed(message: string) | NullDereference(name: string)

  function Lookup(env: Env, name: string): Option<Value>
  {
    if name in env then Some(env[name]) else None
  }

  /** Runs the statements in order; a failed `require` stops with its message. */
  function Exec(stmts: seq<Stmt>, env: Env): Progress
    decreases |stmts|
  {
    if stmts == [] then Continue(env)
    else match stmts[0]
      case RequireNotNull(name, message) =>
        if name in env then Exec(stmts[1..], env) else Stopped(message)
      case DefaultIfNull(name, value, wrapper) =>
        Exec(stmts[1..], if name in env then env else env[name := Value(value, wrapper)])
  }

  /** Evaluates the constructor arguments left to right; `!!` on a null one throws. */
  function Call(args: seq<CtorArg>, env: Env): Outcome
    decreases |args|
  {
    if args == [] then Built([])
    else if args[0].assertNotNull && args[0].name !in env then NullDereference(args[0].name)
    else match Call(args[1..], env)
      case Built(rest) => Built([Lookup(env, args[0].name)] + rest)
      case other => other
  }

  function RunBuild(plan: BuildPlan, env: Env): Outcome
  {
    match Exec(plan.stmts, env)
    case Stopped(message) => RequireFailed(message)
    case Continue(filled) => Call(plan.args, filled)
  }

  /** The value a parameter's default stands for. */
  function DefaultValue(staticClass: ClassName, p: WrappedParameter): Value
    requires Defaulted(p)
  {
    Value(p.nullValue.value, if p.isDynamic then Some(staticClass) else None)
  }

  /** What the constructor should receive for `p`: the value the user set,
      else the default of a non-nullable parameter that has one, else null. */
  function Expected(staticClass: ClassName, p: WrappedParameter, env: Env): Option<Value>
  {
    if p.name in env then Some(env[p.name])
    else if Defaulted(p) then Some(DefaultValue(staticClass, p))
    else None
  }

  function Fill(staticClass: ClassName, p: WrappedParameter, env: Env): Env
  {
    if Defaulted(p) && p.name !in env then env[p.name := DefaultValue(staticClass, p)] else env
  }

  /** The properties after every default has been substituted. */
  function WithDefaults(staticClass: ClassName, params: seq<WrappedParameter>, env: Env): Env
    decreases |params|
  {
    if params == [] then env else WithDefaults(staticClass, params[1..], Fill(staticClass, params[0], env))
  }

  lemma {:induction false} WithDefaultsKeeps(staticClass: ClassName, params: seq<WrappedParameter>, env: Env, k: string)
    requires k in env
    ensures k in WithDefaults(staticClass, params, env) && WithDefaults(staticClass, params, env)[k] == env[k]
    decreases |params|
  {
    if params != [] {
      WithDefaultsKeeps(staticClass, params[1..], Fill(staticClass, params[0], env), k);
    }
  }

  /** After the defaults, every parameter holds what it is expected to hold. */
  lemma {:induction false} WithDefaultsLookup(staticClass: ClassName, params: seq<WrappedParameter>, env: Env, i: nat)
    requires Distinct(params) && i < |params|
    ensures Lookup(WithDefaults(staticClass, params, env), params[i].name) == Expected(staticClass, params[i], env)
    decreases |params|
  {
    var next := Fill(staticClass, params[0], env);
    if i == 0 {
      if params[0].name in next {
        WithDefaultsKeeps(staticClass, params[1..], next, params[0].name);
      } else {
        WithDefaultsAbsent(staticClass, params[1..], next, params[0].name);
      }
    } else {
      assert params[1..][i - 1] == params[i];
      WithDefaultsLookup(staticClass, params[1..], next, i - 1);
    }
  }

  lemma {:induction false} WithDefaultsAbsent(staticClass: ClassName, params: seq<WrappedParameter>, env: Env, k: string)
    requires k !in env && forall i :: 0 <= i < |params| ==> params[i].name != k
    ensures k !in WithDefaults(staticClass, params, env)
    decreases |params|
  {
    if params != [] {
      WithDefaultsAbsent(staticClass, params[1..], Fill(staticClass, params[0], env), k);
    }
  }

  /** Filling in the first parameter's default leaves the rest distinct and
      set exactly when they were. */
  lemma FillTail(staticClass: ClassName, params: seq<WrappedParameter>, env: Env)
    requires Distinct(params) && params != []
    ensures Distinct(params[1..])
    ensures forall i :: 0 <= i < |params| - 1 ==>
              (params[1..][i].name in Fill(staticClass, params[0], env) <==> params[1..][i].name in env)
  {
    var rest := params[1..];
    forall i, j | 0 <= i < j < |rest| ensures rest[i].name != rest[j].name {
      assert rest[i] == params[i + 1] && rest[j] == params[j + 1];
    }
    forall i | 0 <= i < |rest| ensures rest[i].name != params[0].name {
      assert rest[i] == params[i + 1];
    }
  }

  /** `build` gets past its statements exactly when every required parameter
      was set, and then every default has been filled in. */
  lemma {:induction false} ExecContinues(staticClass: ClassName, params: seq<WrappedParameter>, env: Env)
    requires Distinct(params)
    ensures var p := Exec(BuildStatements(staticClass, params), env);
            p.Continue? <==> forall i :: 0 <= i < |params| && Required(params[i]) ==> params[i].name in env
    ensures var p := Exec(BuildStatements(staticClass, params), env);
            p.Continue? ==> p.env == WithDefaults(staticClass, params, env)
    decreases |params|
  {
    if params != [] {
      var rest := params[1..];
      assert forall i :: 1 <= i < |params| ==> params[i] == rest[i - 1];
      ExecStep(staticClass, params, env);
      FillTail(staticClass, params, env);
      ExecContinues(staticClass, rest, Fill(staticClass, params[0], env));
    }
  }

  /** When `build` stops, it is at the first required parameter that was not
      set, with that parameter's message. */
  lemma {:induction false} ExecStops(staticClass: ClassName, params: seq<WrappedParameter>, env: Env)
    requires Distinct(params)
    ensures var p := Exec(BuildStatements(staticClass, params), env);
            p.Stopped? ==>
              exists i :: 0 <= i < |params| && Required(params[i]) && params[i].name !in env
                          && p.message == NotSetMessage(params[i].name)
                          && forall j :: 0 <= j < i && Required(params[j]) ==> params[j].name in env
    decreases |params|
  {
    if params != [] {
      var p0 := params[0];
      var rest := params[1..];
      var next := Fill(staticClass, p0, env);
      ExecStep(staticClass, params, env);
      if !(Required(p0) && p0.name !in env) {
        FillTail(staticClass, params, env);
        ExecStops(staticClass, rest, next);
        var r := Exec(BuildStatements(staticClass, rest), next);
        if r.Stopped? {
          var i :| 0 <= i < |rest| && Required(rest[i]) && rest[i].name !in next
                   && r.message == NotSetMessage(rest[i].name)
                   && forall j :: 0 <= j < i && Required(rest[j]) ==> rest[j].name in next;
          assert params[i + 1] == rest[i];
          assert forall j :: 1 <= j < i + 1 ==> params[j] == rest[j - 1];
        }
      }
    }
  }

  /** What the statements of `build` do, in full. */
  lemma ExecStatements(staticClass: ClassName, params: seq<WrappedParameter>, env: Env)
    requires Distinct(params)
    ensures var p := Exec(BuildStatements(staticClass, params), env);
            p.Continue? <==> forall i :: 0 <= i < |params| && Required(params[i]) ==> params[i].name in env
    ensures var p := Exec(BuildStatements(staticClass, params), env);
            p.Continue? ==> p.env == WithDefaults(staticClass, params, env)
    ensures var p := Exec(BuildStatements(staticClass, params), env);
            p.Stopped? ==>
              exists i :: 0 <= i < |params| && Required(params[i]) && params[i].name !in env
                          && p.message == NotSetMessage(params[i].name)
                          && forall j :: 0 <= j < i && Required(params[j]) ==> params[j].name in env
  {
    ExecContinues(staticClass, params, env);
    ExecStops(staticClass, params, env);
  }

  /** One parameter's statement: a required parameter that was not set stops
      `build` with its message; any other is filled in and the rest run. */
  lemma ExecStep(staticClass: ClassName, params: seq<WrappedParameter>, env: Env)
    requires params != []
    ensures Exec(BuildStatements(staticClass, params), env)
            == if Required(params[0]) && params[0].name !in env then Stopped(NotSetMessage(params[0].name))
               else Exec(BuildStatements(staticClass, params[1..]), Fill(staticClass, params[0], env))
  {
    var p0 := params[0];
    var stmts := BuildStatements(staticClass, params);
    var restStmts := BuildStatements(staticClass, params[1..]);
    if !p0.notNull {
      assert stmts == restStmts;
    } else {
      assert stmts[0] == StatementFor(staticClass, p0) && stmts[1..] == restStmts;
    }
  }

  lemma {:induction false} CallAllSet(args: seq<CtorArg>, env: Env)
    requires forall i :: 0 <= i < |args| && args[i].assertNotNull ==> args[i].name in env
    ensures Call(args, env).Built?
    ensures |Call(args, env).args| == |args|
    ensures forall i :: 0 <= i < |args| ==> Call(args, env).args[i] == Lookup(env, args[i].name)
    decreases |args|
  {
    if args != [] {
      CallAllSet(args[1..], env);
      assert forall i :: 1 <= i < |args| ==> args[i] == args[1..][i - 1];
    }
  }

  /** What the generated `build` does: it never dereferences null; it builds
      exactly when every required parameter was set, passing each parameter's
      set value, its default, or null; otherwise it fails with the message of
      the first required parameter that was not set. */
  lemma BuildOutcome(staticClass: ClassName, base: ClassName, params: seq<WrappedParameter>, typeVariables: seq<TypeName>, env: Env)
    requires Distinct(params)
    ensures !RunBuild(PlanFor(staticClass, base, params, typeVariables), env).NullDereference?
    ensures RunBuild(PlanFor(staticClass, base, params, typeVariables), env).Built?
            <==> forall i :: 0 <= i < |params| && Required(params[i]) ==> params[i].name in env
    ensures var o := RunBuild(PlanFor(staticClass, base, params, typeVariables), env);
            o.Built? ==> |o.args| == |params|
                         && forall i :: 0 <= i < |params| ==> o.args[i] == Expected(staticClass, params[i], env)
    ensures var o := RunBuild(PlanFor(staticClass, base, params, typeVariables), env);
            o.Built? ==> forall i :: 0 <= i < |params| && params[i].notNull ==> o.args[i].Some?
    ensures var o := RunBuild(PlanFor(staticClass, base, params, typeVariables), env);
            o.RequireFailed? ==>
              exists i :: 0 <= i < |params| && Required(params[i]) && params[i].name !in env
                          && o.message == NotSetMessage(params[i].name)
                          && forall j :: 0 <= j < i && Required(params[j]) ==> params[j].name in env
  {
    var plan := PlanFor(staticClass, base, params, typeVariables);
    ExecStatements(staticClass, params, env);
    var p := Exec(plan.stmts, env);
    if p.Continue? {
      var filled := WithDefaults(staticClass, params, env);
      forall i | 0 <= i < |params|
        ensures Lookup(filled, params[i].name) == Expected(staticClass, params[i], env)
      {
        WithDefaultsLookup(staticClass, params, env, i);
      }
      CallAllSet(plan.args, filled);
    }
  }
}
