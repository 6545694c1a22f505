/**
 * The statement builders logen shares between its backends: context-parameter
 * detection, the forwarding call to the delegate, the return of its results,
 * the start-time recorder, the constructor, and the context-fields slots that
 * both backends place inside their error guard.
 */
module Logen {
  import opened Wrappers
  import opened GoAst
  import opened AstGen

  /** What a logger backend contributes to the generated code. */
  datatype LoggerInfo = LoggerInfo(name: string, packageAlias: string, loggerType: TypeExpr, fieldsType: TypeExpr)

  /** `m.next`, the delegate. */
  const NextRef: Expr := Selector(Ident("m"), "next")

  /** `m.logger`, the logger held by the wrapper. */
  const LoggerRef: Expr := Selector(Ident("m"), "logger")

  /**
   * The name of the context parameter, when the first parameter's type is
   * `<contextAlias>.Context`.
   */
  function ContextArgName(params: seq<Field>, contextAlias: string): (r: (string, bool))
    requires AllNamed(params)
    ensures r.1 <==> |params| > 0 && IsContextType(params[0].typ, contextAlias)
    ensures r.1 ==> r.0 == params[0].names[0]
    ensures !r.1 ==> r.0 == ""
  {
    if |params| == 0 then ("", false)
    else
      match params[0].typ
      case TSelector(x, sel) =>
        if sel == "Context" then
          match x
          case TIdent(id) => if id == contextAlias then (params[0].names[0], true) else ("", false)
          case _ => ("", false)
        else ("", false)
      case _ => ("", false)
  }

  // ---------------------------------------------------------------------
  // Forwarding to the delegate.

  /** `<receiver>.<Method>(p1, p2, ...)`: the parameters' first names in order, no spread. */
  function DelegateCall(receiver: Expr, cfg: MethodConfig): Expr
    requires cfg.Named()
  {
    Call(Selector(receiver, cfg.methodName), Idents(FirstNames(cfg.methodParams)), false)
  }

  /** `r1, r2 := <call>` when the method has results, the bare call otherwise. */
  function Invocation(receiver: Expr, cfg: MethodConfig): Stmt
    requires cfg.Named()
  {
    if cfg.HasResults() then AssignStmt(Idents(FirstNames(cfg.methodResults)), Define, [DelegateCall(receiver, cfg)])
    else ExprStmt(DelegateCall(receiver, cfg))
  }

  /**
   * The error guard `<name> != nil` does not itself mention the logger, so
   * nothing in an `if <name> != nil { ... }` uses it unguarded.
   */
  lemma LoggerNotInGuard(name: string, body: seq<Stmt>)
    ensures !Occurs(LoggerRef, NotNil(name))
    ensures !Unguarded(LoggerRef, NotNil(name), If(NotNil(name), body))
  {
    assert !Occurs(LoggerRef, Ident(name)) && !Occurs(LoggerRef, Ident("nil"));
  }

  /** The delegate call captures every result, by first name and in declared order. */
  lemma InvocationCaptures(receiver: Expr, cfg: MethodConfig)
    requires cfg.Named()
    ensures var s := Invocation(receiver, cfg);
            (s.AssignStmt? <==> |cfg.methodResults| > 0) &&
            (s.AssignStmt? ==>
               s.tok == Define && |s.lhs| == |cfg.methodResults| && |s.rhs| == 1 &&
               forall i | 0 <= i < |s.lhs| :: s.lhs[i] == Ident(cfg.methodResults[i].names[0])) &&
            (s.AssignStmt? ==> s.rhs == [DelegateCall(receiver, cfg)]) &&
            (s.ExprStmt? <==> |cfg.methodResults| == 0) &&
            (s.ExprStmt? ==> s.x == DelegateCall(receiver, cfg))
  {
  }

  /** The call forwards each parameter by first name, in order, and never spreads. */
  lemma DelegateCallForwards(receiver: Expr, cfg: MethodConfig)
    requires cfg.Named()
    ensures var c := DelegateCall(receiver, cfg);
            c.Call? && c.fun == Selector(receiver, cfg.methodName) && !c.spread &&
            |c.args| == |cfg.methodParams| &&
            forall i | 0 <= i < |c.args| :: c.args[i] == Ident(cfg.methodParams[i].names[0])
  {
  }

  /** Builds the statement that calls the delegate. */
  class MethodInvocation {
    var receiver: Expr
    const methodConfig: MethodConfig

    constructor (methodConfig: MethodConfig)
      ensures this.methodConfig == methodConfig && receiver == NilExpr
    {
      this.methodConfig := methodConfig;
      receiver := NilExpr;
    }

    method SetReceiver(s: Expr)
      modifies this
      ensures receiver == s
    {
      receiver := s;
    }

    method Build() returns (s: Stmt)
      requires methodConfig.Named()
      ensures s == Invocation(receiver, methodConfig)
    {
      var resultSelectors: seq<Expr> := [];
      var i := 0;
      while i < |methodConfig.methodResults|
        invariant 0 <= i <= |methodConfig.methodResults|
        invariant resultSelectors == Idents(FirstNames(methodConfig.methodResults)[..i])
      {
        resultSelectors := resultSelectors + [Ident(methodConfig.methodResults[i].names[0])];
        i := i + 1;
      }
      assert FirstNames(methodConfig.methodResults)[..i] == FirstNames(methodConfig.methodResults);

      var paramSelectors: seq<Expr> := [];
      i := 0;
      while i < |methodConfig.methodParams|
        invariant 0 <= i <= |methodConfig.methodParams|
        invariant paramSelectors == Idents(FirstNames(methodConfig.methodParams)[..i])
      {
        paramSelectors := paramSelectors + [Ident(methodConfig.methodParams[i].names[0])];
        i := i + 1;
      }
      assert FirstNames(methodConfig.methodParams)[..i] == FirstNames(methodConfig.methodParams);

      var callExpr := Call(Selector(receiver, methodConfig.methodName), paramSelectors, false);
      if methodConfig.HasResults() {
        return AssignStmt(resultSelectors, Define, [callExpr]);
      }
      return ExprStmt(callExpr);
    }
  }

  // ---------------------------------------------------------------------
  // Returning the results.

  /** `return r1, r2, ...`; a bare `return` when there are no results. */
  function ReturnOf(cfg: MethodConfig): Stmt
    requires cfg.Named()
  {
    Return(Idents(FirstNames(cfg.methodResults)))
  }

  lemma ReturnListsResults(cfg: MethodConfig)
    requires cfg.Named()
    ensures var s := ReturnOf(cfg);
            s.Return? && |s.results| == |cfg.methodResults| &&
            (forall i | 0 <= i < |s.results| :: s.results[i] == Ident(cfg.methodResults[i].names[0])) &&
            (s.results == [] <==> !cfg.HasResults())
  {
  }

  /** The return statement returns exactly what the delegate invocation captured. */
  lemma ReturnMatchesCapture(receiver: Expr, cfg: MethodConfig)
    requires cfg.Named() && cfg.HasResults()
    ensures Invocation(receiver, cfg).lhs == ReturnOf(cfg).results
  {
  }

  class ReturnResults {
    const methodConfig: MethodConfig

    constructor (m: MethodConfig)
      ensures methodConfig == m
    {
      methodConfig := m;
    }

    method Build() returns (s: Stmt)
      requires methodConfig.Named()
      ensures s == ReturnOf(methodConfig)
    {
      var resultSelectors: seq<Expr> := [];
      var i := 0;
      while i < |methodConfig.methodResults|
        invariant 0 <= i <= |methodConfig.methodResults|
        invariant resultSelectors == Idents(FirstNames(methodConfig.methodResults)[..i])
      {
        resultSelectors := resultSelectors + [Ident(methodConfig.methodResults[i].names[0])];
        i := i + 1;
      }
      assert FirstNames(methodConfig.methodResults)[..i] == FirstNames(methodConfig.methodResults);
      return Return(resultSelectors);
    }
  }

  // ---------------------------------------------------------------------
  // Start time.

  /** `_start := <timeAlias>.Now()`: defines `_start` alone, from a call with no arguments. */
  function StartTimeRecorder(timePackageAlias: string): (s: Stmt)
    ensures s.AssignStmt? && s.tok == Define && s.lhs == [Ident("_start")] && |s.rhs| == 1
    ensures s.rhs[0].Call? && s.rhs[0].args == [] && !s.rhs[0].spread
    ensures s.rhs[0].fun == Selector(Ident(timePackageAlias), "Now")
  {
    AssignStmt([Ident("_start")], Define, [Call(Selector(Ident(timePackageAlias), "Now"), [], false)])
  }

  // ---------------------------------------------------------------------
  // Constructor.

  /** `len(fields) > 0` */
  const FieldsGiven: Expr := Binary(Call(Ident("len"), [Ident("fields")], false), Gtr, BasicLit(IntLit, "0"))

  /** `fields[0]`, the caller's fields provider. */
  const FirstProvider: Expr := Index(Ident("fields"), BasicLit(IntLit, "0"))

  /**
   * `NewErrorLogging<I>(next, logger, fields...)`. `fieldsFunc` is the type of
   * a fields provider, which another file of logen computes.
   */
  function ErrorLoggingConstructor(interfacePackageName: string, interfaceName: string,
                                   fieldsFunc: TypeExpr, info: LoggerInfo): Decl
  {
    var funcName := "NewErrorLogging" + interfaceName;
    var ifaceType := TSelector(TIdent(interfacePackageName), interfaceName);
    FuncDecl(
      "// " + funcName + " creates new error logging middleware.",
      funcName,
      None,
      [Field(["next"], ifaceType), Field(["logger"], info.loggerType), Field(["fields"], TEllipsis(fieldsFunc))],
      [Field([""], ifaceType)],
      [ AssignStmt([Ident("f")], Define, [CompositeLit(fieldsFunc, [Ident("return nil")])]),
        If(FieldsGiven, [AssignStmt([Ident("f")], Assign, [FirstProvider])]),
        Return([Ident("&errorLogging" + interfaceName + "{next: next, logger: logger, fields: f}")])
      ])
  }

  /**
   * The constructor takes `next`, `logger` and a variadic `fields`, returns the
   * interface, installs a default provider first, uses `fields[0]` only when
   * some provider was passed, and returns last.
   */
  lemma ErrorLoggingConstructorShape(interfacePackageName: string, interfaceName: string,
                                     fieldsFunc: TypeExpr, info: LoggerInfo)
    ensures var d := ErrorLoggingConstructor(interfacePackageName, interfaceName, fieldsFunc, info);
            var ifaceType := TSelector(TIdent(interfacePackageName), interfaceName);
            d.FuncDecl? && d.name == "NewErrorLogging" + interfaceName && d.recv.None? &&
            |d.params| == 3 &&
            d.params[0] == Field(["next"], ifaceType) &&
            d.params[1] == Field(["logger"], info.loggerType) &&
            d.params[2].names == ["fields"] && d.params[2].typ.TEllipsis? &&
            |d.results| == 1 && d.results[0].typ == ifaceType &&
            |d.body| == 3 &&
            d.body[0] == AssignStmt([Ident("f")], Define, [CompositeLit(fieldsFunc, [Ident("return nil")])]) &&
            StmtOccurs(FirstProvider, d.body[1]) &&
            (forall s | s in d.body :: !Unguarded(FirstProvider, FieldsGiven, s)) &&
            d.body[2].Return?
  {
    var d := ErrorLoggingConstructor(interfacePackageName, interfaceName, fieldsFunc, info);
    var defaultProvider := CompositeLit(fieldsFunc, [Ident("return nil")]);
    assert !Occurs(FirstProvider, defaultProvider) by {
      assert forall a | a in [Ident("return nil")] :: !Occurs(FirstProvider, a);
    }
    assert !StmtOccurs(FirstProvider, d.body[0]);
    var replace := AssignStmt([Ident("f")], Assign, [FirstProvider]);
    assert StmtOccurs(FirstProvider, replace) by {
      assert FirstProvider in replace.rhs;
    }
    assert d.body[1] == If(FieldsGiven, [replace]);
    assert replace in d.body[1].body;
  }

  // ---------------------------------------------------------------------
  // The context-fields slots shared by both backends.

  /** `if len(_more) > 0 { ... }` */
  const MoreGiven: Expr := Binary(Call(Ident("len"), [Ident("_more")], false), Gtr, Ident("0"))

  /** `append(_fields, _more...)` */
  const AppendMore: Expr := Call(Ident("append"), [Ident("_fields"), Ident("_more...")], false)

  /** `m.fields(ctx, err)`: the fields provider, asked with the context first and the error second. */
  function FieldsProviderCall(ctxArgName: string, errorResultName: string): Expr {
    Call(Selector(Ident("m"), "fields"), [Ident(ctxArgName), Ident(errorResultName)], false)
  }

  /**
   * The second and third statements of the error guard: `_more := m.fields(ctx, err)`
   * and `if len(_more) > 0 { _fields = append(_fields, _more...) }` for a
   * context-first method, two empty statements otherwise.
   */
  function ContextFieldsSlots(params: seq<Field>, contextAlias: string, errorResultName: string): (Stmt, Stmt)
    requires AllNamed(params)
  {
    var (ctxArgName, ok) := ContextArgName(params, contextAlias);
    if ok then
      (AssignStmt([Ident("_more")], Define, [FieldsProviderCall(ctxArgName, errorResultName)]),
       If(MoreGiven, [AssignStmt([Ident("_fields")], Assign, [AppendMore])]))
    else (Empty, Empty)
  }

  /**
   * Both slots are empty exactly when the method has no context parameter;
   * otherwise the provider is asked with (context, error) and its answer is
   * appended only under `len(_more) > 0`.
   */
  lemma ContextFieldsSlotsSpec(params: seq<Field>, contextAlias: string, errorResultName: string)
    requires AllNamed(params)
    ensures var (more, app) := ContextFieldsSlots(params, contextAlias, errorResultName);
            var ctx := |params| > 0 && IsContextType(params[0].typ, contextAlias);
            (more == Empty <==> !ctx) && (app == Empty <==> !ctx) &&
            (ctx ==> more == AssignStmt([Ident("_more")], Define,
                                        [FieldsProviderCall(params[0].names[0], errorResultName)])) &&
            (ctx ==> StmtOccurs(AppendMore, app)) &&
            !Unguarded(AppendMore, MoreGiven, more) && !Unguarded(AppendMore, MoreGiven, app)
  {
    var (more, app) := ContextFieldsSlots(params, contextAlias, errorResultName);
    var (ctxArgName, ok) := ContextArgName(params, contextAlias);
    if ok {
      var call := FieldsProviderCall(ctxArgName, errorResultName);
      assert !Occurs(AppendMore, call) by {
        assert forall a | a in call.args :: !Occurs(AppendMore, a);
      }
      assert !StmtOccurs(AppendMore, more);
      var inner := AssignStmt([Ident("_fields")], Assign, [AppendMore]);
      assert StmtOccurs(AppendMore, inner) by {
        assert AppendMore in inner.rhs;
      }
      assert inner in app.body;
    }
  }

  /**
   * The control-flow skeleton both backends share: everything sits inside
   * `if <err> != nil`, which holds four statements: the base fields defined as
   * `_fields`, the two context-fields slots, and a call on `m.logger`.
   */
  ghost predicate GuardedLogSkeleton(s: Stmt, params: seq<Field>, contextAlias: string, errorResultName: string)
    requires AllNamed(params)
  {
    s.If? && s.cond == NotNil(errorResultName) && |s.body| == 4 &&
    s.body[0].AssignStmt? && s.body[0].tok == Define && s.body[0].lhs == [Ident("_fields")] &&
    (s.body[1], s.body[2]) == ContextFieldsSlots(params, contextAlias, errorResultName) &&
    s.body[3].ExprStmt? && s.body[3].x.Call? && s.body[3].x.fun.Selector? && s.body[3].x.fun.x == LoggerRef
  }
}
