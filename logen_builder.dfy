/**
 * logen's per-method builder: the wrapper method forwards the call, logs a
 * non-nil trailing error through the chosen backend, and returns the results.
 */
module LogenBuilder {
  import opened Wrappers
  import opened GoAst
  import opened AstGen
  import opened Logen
  import opened LogenZap
  import opened LogenKitLog
  import LogenNames

  /** The method's last result has type `error`. */
  predicate HasErrorResult(cfg: MethodConfig) {
    |cfg.methodResults| > 0 && IsErrorType(cfg.methodResults[|cfg.methodResults| - 1].typ)
  }

  /** The name of the last result, the one checked against nil. */
  function ErrorResultName(cfg: MethodConfig): string
    requires cfg.Named() && |cfg.methodResults| > 0
  {
    cfg.methodResults[|cfg.methodResults| - 1].names[0]
  }

  /** The guarded log statement the backend named in `info` adds, if any. */
  function LogStatements(cfg: MethodConfig, contextAlias: string, info: LoggerInfo): seq<Stmt>
    requires cfg.Named()
  {
    var n := |cfg.methodResults|;
    if n > 0 then
      var last := cfg.methodResults[n - 1];
      match last.typ
      case TIdent(id) =>
        if id != "error" then []
        else if info.name == "go_kit_log" then
          [ConditionalLogMessageStatementKitLog(cfg.methodParams, contextAlias, cfg.methodName, last.names[0])]
        else if info.name == "zap" then
          [ConditionalLogMessageStatementZap(cfg.methodParams, contextAlias, info, cfg.methodName, last.names[0])]
        else []
      case _ => []
    else []
  }

  /** The wrapper method's body: forward, maybe log, return. */
  function LoggingBody(cfg: MethodConfig, contextAlias: string, info: LoggerInfo): seq<Stmt>
    requires cfg.Named()
  {
    [Invocation(NextRef, cfg)] + LogStatements(cfg, contextAlias, info) + [ReturnOf(cfg)]
  }

  /**
   * The body is the delegate invocation, then at most one log statement, then
   * the return. The log statement is there exactly when the last result is an
   * `error` and the backend is supported; it is that backend's statement, with
   * the shared guard skeleton on the last result's name.
   */
  lemma LoggingBodyOrder(cfg: MethodConfig, contextAlias: string, info: LoggerInfo)
    requires cfg.Named()
    ensures var body := LoggingBody(cfg, contextAlias, info);
            var logs := HasErrorResult(cfg) && info.name in LogenNames.SupportedLoggers;
            |body| == (if logs then 3 else 2) &&
            body[0] == Invocation(NextRef, cfg) && body[|body| - 1] == ReturnOf(cfg) &&
            (logs ==> GuardedLogSkeleton(body[1], cfg.methodParams, contextAlias, ErrorResultName(cfg))) &&
            (logs && info.name == "zap" ==>
               body[1] == ConditionalLogMessageStatementZap(cfg.methodParams, contextAlias, info,
                                                            cfg.methodName, ErrorResultName(cfg))) &&
            (logs && info.name == "go_kit_log" ==>
               body[1] == ConditionalLogMessageStatementKitLog(cfg.methodParams, contextAlias,
                                                               cfg.methodName, ErrorResultName(cfg)))
  {
    var n := |cfg.methodResults|;
    if n > 0 {
      var last := cfg.methodResults[n - 1];
      assert last.names[0] == ErrorResultName(cfg);
    }
  }

  lemma InvocationAndReturnDoNotLog(cfg: MethodConfig)
    requires cfg.Named()
    ensures !StmtOccurs(LoggerRef, Invocation(NextRef, cfg))
    ensures !StmtOccurs(LoggerRef, ReturnOf(cfg))
  {
    var call := DelegateCall(NextRef, cfg);
    NotInIdents(LoggerRef, FirstNames(cfg.methodParams));
    NotInIdents(LoggerRef, FirstNames(cfg.methodResults));
    assert !Occurs(LoggerRef, Selector(NextRef, cfg.methodName)) by {
      assert !Occurs(LoggerRef, NextRef) by {
        assert !Occurs(LoggerRef, Ident("m"));
      }
    }
    assert !Occurs(LoggerRef, call);
  }

  /**
   * The logger is used only when the last result is an `error` and the
   * backend is supported, and then only inside `if <err> != nil`: a method
   * without a trailing error gets no logging at all.
   */
  lemma LoggingOnlyOnError(cfg: MethodConfig, contextAlias: string, info: LoggerInfo)
    requires cfg.Named()
    ensures var body := LoggingBody(cfg, contextAlias, info);
            ((exists s | s in body :: StmtOccurs(LoggerRef, s)) <==>
               HasErrorResult(cfg) && info.name in LogenNames.SupportedLoggers) &&
            (HasErrorResult(cfg) ==> forall s | s in body :: !Unguarded(LoggerRef, NotNil(ErrorResultName(cfg)), s))
  {
    var body := LoggingBody(cfg, contextAlias, info);
    LoggingBodyOrder(cfg, contextAlias, info);
    InvocationAndReturnDoNotLog(cfg);
    var logs := HasErrorResult(cfg) && info.name in LogenNames.SupportedLoggers;
    if logs {
      var err := ErrorResultName(cfg);
      if info.name == "zap" {
        ZapGuards(cfg.methodParams, contextAlias, info, cfg.methodName, err);
      } else {
        KitLogGuards(cfg.methodParams, contextAlias, cfg.methodName, err);
      }
      assert body[1] in body;
      assert body == [body[0], body[1], body[2]];
    } else {
      assert body == [body[0], body[1]];
    }
    if HasErrorResult(cfg) {
      forall s | s in body
        ensures !Unguarded(LoggerRef, NotNil(ErrorResultName(cfg)), s)
      {
        UnguardedOccurs(LoggerRef, NotNil(ErrorResultName(cfg)), s);
      }
    }
  }

  /**
   * The two backends differ only in how the base fields are built and how the
   * logger is called: the guard and the context-fields slots are the same.
   */
  lemma BackendsShareSkeleton(params: seq<Field>, contextAlias: string, info: LoggerInfo,
                              methodName: string, errorResultName: string)
    requires AllNamed(params)
    ensures var z := ConditionalLogMessageStatementZap(params, contextAlias, info, methodName, errorResultName);
            var k := ConditionalLogMessageStatementKitLog(params, contextAlias, methodName, errorResultName);
            z.cond == k.cond && |z.body| == |k.body| == 4 &&
            z.body[1] == k.body[1] && z.body[2] == k.body[2] && z.body[3] != k.body[3]
  {
  }

  /** Builds one logging wrapper method. */
  class LoggingMethodBuilder {
    const methodConfig: MethodConfig
    const methodBuilder: Method
    const contextPackageAlias: string
    const loggerInfo: LoggerInfo

    constructor (structName: string, methodConfig: MethodConfig, contextPackageAlias: string, loggerInfo: LoggerInfo)
      ensures this.methodConfig == methodConfig && this.contextPackageAlias == contextPackageAlias
      ensures this.loggerInfo == loggerInfo
      ensures fresh(methodBuilder)
      ensures methodBuilder.name == methodConfig.methodName && methodBuilder.receiverName == "m"
      ensures methodBuilder.structName == structName && methodBuilder.body == []
    {
      this.methodConfig := methodConfig;
      methodBuilder := new Method(methodConfig.methodName, "m", structName);
      this.contextPackageAlias := contextPackageAlias;
      this.loggerInfo := loggerInfo;
    }

    method Build() returns (d: Decl)
      requires methodConfig.Named()
      modifies methodBuilder
      ensures methodBuilder.params == methodConfig.methodParams
      ensures methodBuilder.results == FieldsAsAnonymous(methodConfig.methodResults)
      ensures methodBuilder.body == old(methodBuilder.body) + LoggingBody(methodConfig, contextPackageAlias, loggerInfo)
      ensures d == methodBuilder.Build()
    {
      ghost var before := methodBuilder.body;
      ghost var logs := LogStatements(methodConfig, contextPackageAlias, loggerInfo);
      methodBuilder.SetType(methodConfig.methodParams, FieldsAsAnonymous(methodConfig.methodResults));

      var methodInvocation := new MethodInvocation(methodConfig);
      methodInvocation.SetReceiver(Selector(Ident("m"), "next"));
      var invocation := methodInvocation.Build();
      methodBuilder.AddStatement(invocation);
      assert methodBuilder.body == before + [Invocation(NextRef, methodConfig)];

      var n := |methodConfig.methodResults|;
      if n > 0 {
        var last := methodConfig.methodResults[n - 1];
        if last.typ.TIdent? && last.typ.name == "error" {
          if loggerInfo.name == "go_kit_log" {
            methodBuilder.AddStatement(ConditionalLogMessageStatementKitLog(
              methodConfig.methodParams, contextPackageAlias, methodConfig.methodName, last.names[0]));
          } else if loggerInfo.name == "zap" {
            methodBuilder.AddStatement(ConditionalLogMessageStatementZap(
              methodConfig.methodParams, contextPackageAlias, loggerInfo, methodConfig.methodName, last.names[0]));
          }
        }
      }

      assert methodBuilder.body == before + [Invocation(NextRef, methodConfig)] + logs;

      var returnResults := new ReturnResults(methodConfig);
      var ret := returnResults.Build();
      methodBuilder.AddStatement(ret);

      d := methodBuilder.Build();
    }
  }
}
