/**
 * tracegen: wraps every context-first method in an OpenCensus span named
 * `<path>.<Interface>.<Method>` and forwards the call to the delegate.
 */
module Tracegen {
  import opened Wrappers
  import opened GoAst
  import opened AstGen
  import Logen

  const TracePackage := "go.opencensus.io/trace"
  const ContextPackage := "context"

  /** The span name: the interface's package path, the interface and the method, dot-separated. */
  function FullMethodName(interfacePath: string, interfaceName: string, methodName: string): (r: string)
    ensures |r| == |interfacePath| + |interfaceName| + |methodName| + 2
    ensures r[..|interfacePath| + 1] == interfacePath + "."
    ensures r[|interfacePath| + 1..|interfacePath| + 1 + |interfaceName|] == interfaceName
    ensures r[|r| - |methodName| - 1..] == "." + methodName
  {
    interfacePath + "." + interfaceName + "." + methodName
  }

  // ---------------------------------------------------------------------
  // Constructor.

  /** `NewTracing<I>(next <pkg>.<I>) <pkg>.<I> { return &tracing<I>{next} }` */
  function TracingConstructor(interfacePackageName: string, interfaceName: string): Decl {
    var funcName := "NewTracing" + interfaceName;
    var ifaceType := TSelector(TIdent(interfacePackageName), interfaceName);
    FuncDecl("// " + funcName + " creates new tracing middleware.", funcName, None,
             [Field(["next"], ifaceType)], [Field([""], ifaceType)],
             [Return([Ident("&tracing" + interfaceName + "{next}")])])
  }

  /** The constructor takes only the delegate and returns the wrapper holding it, as the interface. */
  lemma TracingConstructorShape(interfacePackageName: string, interfaceName: string)
    ensures var d := TracingConstructor(interfacePackageName, interfaceName);
            var ifaceType := TSelector(TIdent(interfacePackageName), interfaceName);
            d.FuncDecl? && d.name == "NewTracing" + interfaceName && d.recv.None? &&
            d.params == [Field(["next"], ifaceType)] &&
            |d.results| == 1 && d.results[0].typ == ifaceType &&
            d.body == [Return([Ident("&tracing" + interfaceName + "{next}")])]
  {
  }

  // ---------------------------------------------------------------------
  // Span statements.

  /** `defer _span.End()` */
  function EndSpanStmt(): (s: Stmt)
    ensures s.Defer? && s.call.Call? && !s.call.spread && s.call.args == []
    ensures s.call.fun == Selector(Ident("_span"), "End")
  {
    Defer(Call(Selector(Ident("_span"), "End"), [], false))
  }

  /**
   * `ctx, _span := <trace>.StartSpan(ctx, "<full name>")`: the context
   * parameter is passed in and rebound to the span's context.
   */
  function TraceMethodInvocation(tracePackageAlias: string, contextParamName: string, fullMethodName: string): (s: Stmt)
    ensures s.AssignStmt? && s.tok == Define && |s.lhs| == 2 && |s.rhs| == 1
    ensures s.lhs[0] == Ident(contextParamName) && s.lhs[1] == Ident("_span")
    ensures var c := s.rhs[0];
            c.Call? && c.fun == Selector(Ident(tracePackageAlias), "StartSpan") && !c.spread &&
            c.args == [s.lhs[0], StringLitOf(fullMethodName)]
  {
    AssignStmt([Ident(contextParamName), Ident("_span")], Define,
               [Call(Selector(Ident(tracePackageAlias), "StartSpan"),
                     [Ident(contextParamName), BasicLit(StringLit, Quote(fullMethodName))], false)])
  }

  // ---------------------------------------------------------------------
  // Forwarding to the delegate.

  predicate HasVariadicParam(params: seq<Field>) {
    exists i | 0 <= i < |params| :: params[i].typ.TEllipsis?
  }

  /** `<receiver>.<Method>(p1, ..., pn...)`, spread when some parameter is variadic. */
  function TraceDelegateCall(receiver: Expr, cfg: MethodConfig): Expr
    requires cfg.Named()
  {
    Call(Selector(receiver, cfg.methodName), Idents(FirstNames(cfg.methodParams)), HasVariadicParam(cfg.methodParams))
  }

  /** `return <call>` when the method has results, the bare call otherwise. */
  function TraceInvocation(receiver: Expr, cfg: MethodConfig): Stmt
    requires cfg.Named()
  {
    if cfg.HasResults() then Return([TraceDelegateCall(receiver, cfg)]) else ExprStmt(TraceDelegateCall(receiver, cfg))
  }

  /**
   * The delegate gets every parameter by first name in order, spread exactly
   * when a parameter is variadic; its results are returned directly, with no
   * intermediate variables.
   */
  lemma TraceInvocationForwards(receiver: Expr, cfg: MethodConfig)
    requires cfg.Named()
    ensures var s := TraceInvocation(receiver, cfg);
            var c := TraceDelegateCall(receiver, cfg);
            c.fun == Selector(receiver, cfg.methodName) && |c.args| == |cfg.methodParams| &&
            (forall i | 0 <= i < |c.args| :: c.args[i] == Ident(cfg.methodParams[i].names[0])) &&
            (c.spread <==> exists i | 0 <= i < |cfg.methodParams| :: cfg.methodParams[i].typ.TEllipsis?) &&
            (s == Return([c]) <==> cfg.HasResults()) &&
            (s == ExprStmt(c) <==> !cfg.HasResults())
  {
  }

  /**
   * For a variadic method tracegen spreads the forwarded arguments while
   * logen's forwarding call does not.
   */
  lemma OnlyTracegenSpreads(receiver: Expr, cfg: MethodConfig)
    requires cfg.Named() && |cfg.methodParams| > 0
    requires cfg.methodParams[|cfg.methodParams| - 1].typ.TEllipsis?
    ensures TraceDelegateCall(receiver, cfg).spread
    ensures !Logen.DelegateCall(receiver, cfg).spread
    ensures TraceDelegateCall(receiver, cfg).args == Logen.DelegateCall(receiver, cfg).args
  {
    assert HasVariadicParam(cfg.methodParams) by {
      var i := |cfg.methodParams| - 1;
      assert cfg.methodParams[i].typ.TEllipsis?;
    }
  }

  /** Builds the statement that calls the delegate. */
  class MethodInvocation {
    var receiver: Expr
    const methodConfig: MethodConfig

    constructor (methodConfig: MethodConfig)
      ensures this.methodConfig == methodConfig && receiver == NilExpr
    {
      this.methodConfig := methodConfig;
      receiver := NilExpr;
    }

    method SetReceiver(s: Expr)
      modifies this
      ensures receiver == s
    {
      receiver := s;
    }

    method Build() returns (s: Stmt)
      requires methodConfig.Named()
      ensures s == TraceInvocation(receiver, methodConfig)
    {
      var params := methodConfig.methodParams;
      var paramSelectors: seq<Expr> := [];
      var spread := false;
      var i := 0;
      while i < |params|
        invariant 0 <= i <= |params|
        invariant paramSelectors == Idents(FirstNames(params)[..i])
        invariant spread <==> exists k | 0 <= k < i :: params[k].typ.TEllipsis?
      {
        paramSelectors := paramSelectors + [Ident(params[i].names[0])];
        if params[i].typ.TEllipsis? {
          spread := true;
        }
        i := i + 1;
      }
      assert FirstNames(params)[..i] == FirstNames(params);

      var callExpr := Call(Selector(receiver, methodConfig.methodName), paramSelectors, spread);
      if methodConfig.HasResults() {
        return Return([callExpr]);
      }
      return ExprStmt(callExpr);
    }
  }

  // ---------------------------------------------------------------------
  // The per-method body.

  /** The method's first parameter has type `<contextAlias>.Context`. */
  predicate HasContextParam(cfg: MethodConfig, contextAlias: string) {
    |cfg.methodParams| > 0 && IsContextType(cfg.methodParams[0].typ, contextAlias)
  }

  /** Span start and deferred end for a context-first method, then the delegate call. */
  function TracingBody(cfg: MethodConfig, tracePackageAlias: string, contextAlias: string, fullMethodName: string): seq<Stmt>
    requires cfg.Named()
  {
    (if HasContextParam(cfg, contextAlias)
     then [TraceMethodInvocation(tracePackageAlias, cfg.methodParams[0].names[0], fullMethodName), EndSpanStmt()]
     else [])
    + [TraceInvocation(Logen.NextRef, cfg)]
  }

  /**
   * A span is started and its end deferred, in that order and before the
   * delegate call, exactly for context-first methods: three statements then,
   * one otherwise, with no `defer` at all.
   */
  lemma TracingBodySpans(cfg: MethodConfig, tracePackageAlias: string, contextAlias: string, fullMethodName: string)
    requires cfg.Named()
    ensures var body := TracingBody(cfg, tracePackageAlias, contextAlias, fullMethodName);
            var ctx := HasContextParam(cfg, contextAlias);
            |body| == (if ctx then 3 else 1) &&
            body[|body| - 1] == TraceInvocation(Logen.NextRef, cfg) &&
            (ctx ==> body[0] == TraceMethodInvocation(tracePackageAlias, cfg.methodParams[0].names[0], fullMethodName) &&
                     body[1] == Defer(Call(Selector(Ident("_span"), "End"), [], false))) &&
            ((exists s | s in body :: s.Defer?) <==> ctx) &&
            ((exists s | s in body :: s.AssignStmt?) <==> ctx)
  {
    var body := TracingBody(cfg, tracePackageAlias, contextAlias, fullMethodName);
    if HasContextParam(cfg, contextAlias) {
      assert body[1] in body && body[0] in body;
    } else {
      assert body == [TraceInvocation(Logen.NextRef, cfg)];
    }
  }

  /** Builds one tracing wrapper method. */
  class TracingMethodBuilder {
    const fullMethodName: string
    const methodConfig: MethodConfig
    const methodBuilder: Method
    const tracePackageAlias: string
    const contextPackageAlias: string

    constructor (structName: string, methodConfig: MethodConfig, tracePackageAlias: string,
                 contextPackageAlias: string, fullMethodName: string)
      ensures this.fullMethodName == fullMethodName && this.methodConfig == methodConfig
      ensures this.tracePackageAlias == tracePackageAlias && this.contextPackageAlias == contextPackageAlias
      ensures fresh(methodBuilder)
      ensures methodBuilder.name == methodConfig.methodName && methodBuilder.receiverName == "m"
      ensures methodBuilder.structName == structName && methodBuilder.body == []
    {
      this.fullMethodName := fullMethodName;
      this.methodConfig := methodConfig;
      methodBuilder := new Method(methodConfig.methodName, "m", structName);
      this.tracePackageAlias := tracePackageAlias;
      this.contextPackageAlias := contextPackageAlias;
    }

    method Build() returns (d: Decl)
      requires methodConfig.Named()
      modifies methodBuilder
      ensures methodBuilder.params == methodConfig.methodParams
      ensures methodBuilder.results == FieldsAsAnonymous(methodConfig.methodResults)
      ensures methodBuilder.body ==
                old(methodBuilder.body) + TracingBody(methodConfig, tracePackageAlias, contextPackageAlias, fullMethodName)
      ensures d == methodBuilder.Build()
    {
      methodBuilder.SetType(methodConfig.methodParams, FieldsAsAnonymous(methodConfig.methodResults));

      var params := methodConfig.methodParams;
      if |params| > 0 {
        var p1 := params[0];
        if p1.typ.TSelector? && p1.typ.sel == "Context" {
          if p1.typ.x.TIdent? && p1.typ.x.name == contextPackageAlias {
            methodBuilder.AddStatement(TraceMethodInvocation(tracePackageAlias, p1.names[0], fullMethodName));
            methodBuilder.AddStatement(EndSpanStmt());
          }
        }
      }

      var methodInvocation := new MethodInvocation(methodConfig);
      methodInvocation.SetReceiver(Selector(Ident("m"), "next"));
      var invocation := methodInvocation.Build();
      methodBuilder.AddStatement(invocation);

      d := methodBuilder.Build();
    }
  }

  /** The declaration AddMethod appends for one interface method. */
  function TracingMethodDecl(structName: string, cfg: MethodConfig, tracePackageAlias: string,
                             contextAlias: string, fullMethodName: string): Decl
    requires cfg.Named()
  {
    FuncDecl("", cfg.methodName, Some(Receiver("m", structName)), cfg.methodParams,
             FieldsAsAnonymous(cfg.methodResults),
             TracingBody(cfg, tracePackageAlias, contextAlias, fullMethodName))
  }

  // ---------------------------------------------------------------------
  // The generation model.

  /** State of one tracegen run: the output file and the aliases it has learnt. */
  class TraceModel {
    const interfacePath: string
    const interfaceName: string
    const fileBuilder: File
    const structName: string
    var tracePackageAlias: string
    var contextPackageAlias: string

    /**
     * The file's import table is well formed and the trace package is
     * imported under the alias the model records for it.
     */
    ghost predicate Valid()
      reads this, fileBuilder
    {
      fileBuilder.Valid() &&
      TracePackage in fileBuilder.imports && tracePackageAlias == fileBuilder.AliasOf(TracePackage)
    }

    /**
     * A fresh file holding the wrapper struct (field `next` of the interface
     * type) and the constructor, with the interface's package imported before
     * the trace package.
     */
    constructor (interfacePath: string, interfaceName: string, structName: string, targetPkg: string)
      ensures Valid() && fresh(fileBuilder)
      ensures this.interfacePath == interfacePath && this.interfaceName == interfaceName
      ensures this.structName == structName && fileBuilder.packageName == targetPkg
      ensures fileBuilder.imports == Register([interfacePath], TracePackage)
      ensures tracePackageAlias == fileBuilder.AliasOf(TracePackage)
      ensures contextPackageAlias == if interfacePath == ContextPackage then fileBuilder.AliasOf(ContextPackage) else ""
      ensures var sourceAlias := fileBuilder.AliasOf(interfacePath);
              fileBuilder.decls ==
                [ StructDecl(structName, [Field(["next"], TSelector(TIdent(sourceAlias), interfaceName))]),
                  TracingConstructor(sourceAlias, interfaceName) ]
    {
      this.interfacePath := interfacePath;
      this.interfaceName := interfaceName;
      var file := new File(targetPkg);
      this.fileBuilder := file;
      this.structName := structName;
      this.tracePackageAlias := "";
      this.contextPackageAlias := "";
      new;
      var sourcePackageAlias := AddImport("", interfacePath);
      ghost var first := fileBuilder.imports;
      ghost var firstContext := contextPackageAlias;
      NewModelImports(interfacePath);
      var traceAlias := AddImport("", TracePackage);
      tracePackageAlias := traceAlias;
      assert sourcePackageAlias == fileBuilder.AliasOf(interfacePath);
      ghost var imports := fileBuilder.imports;
      ghost var ctx := contextPackageAlias;
      fileBuilder.AppendDeclaration(
        StructDecl(structName, [Field(["next"], TSelector(TIdent(sourcePackageAlias), interfaceName))]));
      fileBuilder.AppendDeclaration(TracingConstructor(sourcePackageAlias, interfaceName));
      assert fileBuilder.imports == imports && contextPackageAlias == ctx;
    }

    /**
     * Imports `location`; importing the `context` package also records its
     * alias as the one that marks context parameters.
     */
    method AddImport(pkgName: string, location: string) returns (alias: string)
      requires fileBuilder.Valid()
      modifies this, fileBuilder
      ensures fileBuilder.Valid() && (old(Valid()) ==> Valid())
      ensures fileBuilder.imports == Register(old(fileBuilder.imports), location)
      ensures fileBuilder.decls == old(fileBuilder.decls)
      ensures alias == fileBuilder.AliasOf(location)
      ensures contextPackageAlias == if location == ContextPackage then alias else old(contextPackageAlias)
      ensures tracePackageAlias == old(tracePackageAlias)
    {
      if TracePackage in fileBuilder.imports {
        AliasStable(fileBuilder.imports, TracePackage, location);
      }
      if location == ContextPackage {
        contextPackageAlias := fileBuilder.AddImport(pkgName, location);
        return contextPackageAlias;
      }
      alias := fileBuilder.AddImport(pkgName, location);
    }

    /** Appends the tracing wrapper of one interface method. */
    method AddMethod(cfg: MethodConfig)
      requires Valid() && cfg.Named()
      modifies fileBuilder
      ensures Valid()
      ensures fileBuilder.imports == old(fileBuilder.imports)
      ensures fileBuilder.decls == old(fileBuilder.decls) +
                [TracingMethodDecl(structName, cfg, fileBuilder.AliasOf(TracePackage), contextPackageAlias,
                                   FullMethodName(interfacePath, interfaceName, cfg.methodName))]
    {
      var fullMethodName := interfacePath + "." + interfaceName + "." + cfg.methodName;
      var mmb := new TracingMethodBuilder(structName, cfg, tracePackageAlias, contextPackageAlias, fullMethodName);
      var d := mmb.Build();
      assert fullMethodName == FullMethodName(interfacePath, interfaceName, cfg.methodName);
      assert d == TracingMethodDecl(structName, cfg, tracePackageAlias, contextPackageAlias, fullMethodName);
      fileBuilder.AppendDeclaration(d);
    }

    /** `<alias>.<name>` for a type declared in the package at `location`. */
    method ResolveInterfaceType(location: string, name: string) returns (t: TypeExpr)
      requires Valid()
      modifies this, fileBuilder
      ensures Valid()
      ensures fileBuilder.imports == Register(old(fileBuilder.imports), location)
      ensures fileBuilder.decls == old(fileBuilder.decls)
      ensures t == TSelector(TIdent(fileBuilder.AliasOf(location)), name)
      ensures contextPackageAlias == if location == ContextPackage then fileBuilder.AliasOf(location) else old(contextPackageAlias)
    {
      var alias := AddImport("", location);
      t := TSelector(TIdent(alias), name);
    }
  }

  lemma NewModelImports(interfacePath: string)
    ensures Register([], interfacePath) == [interfacePath]
    ensures var r := Register([interfacePath], TracePackage);
            interfacePath in r && TracePackage in r && AliasIn(r, interfacePath) == AliasIn([interfacePath], interfacePath)
  {
    AliasStable([interfacePath], interfacePath, TracePackage);
  }

  /**
   * In a fresh run the interface's package is `alias1` and the trace package
   * `alias2`, unless the interface lives in the trace package itself.
   */
  lemma NewModelAliases(interfacePath: string)
    requires interfacePath != TracePackage
    ensures var imports := Register([interfacePath], TracePackage);
            imports == [interfacePath, TracePackage] &&
            AliasIn(imports, interfacePath) == "alias1" && AliasIn(imports, TracePackage) == "alias2"
  {
    var imports := Register([interfacePath], TracePackage);
    assert imports == [interfacePath, TracePackage];
    IndexOfUnique(imports, interfacePath, 0);
    IndexOfUnique(imports, TracePackage, 1);
    assert NatToString(1) == "1";
    assert NatToString(2) == "2";
  }
}
