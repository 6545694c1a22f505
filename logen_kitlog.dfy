/** logen's backend for go-kit's key-value `log.Logger`. */
module LogenKitLog {
  import opened GoAst
  import opened AstGen
  import opened Logen

  /** `"method", "<method>", "error", err.Error()` */
  function KitLogBaseFields(methodName: string, errorResultName: string): seq<Expr> {
    [ StringLitOf("method"), StringLitOf(methodName),
      StringLitOf("error"), Call(Selector(Ident(errorResultName), "Error"), [], false) ]
  }

  /** `m.logger.Log(_fields...)` */
  const KitLogCall: Expr := Call(Selector(LoggerRef, "Log"), [Ident("_fields...")], false)

  /**
   * `if err != nil { _fields := []interface{}{...}; <context slots>; m.logger.Log(_fields...) }`
   */
  function ConditionalLogMessageStatementKitLog(params: seq<Field>, contextAlias: string,
                                                methodName: string, errorResultName: string): (r: Stmt)
    requires AllNamed(params)
    ensures GuardedLogSkeleton(r, params, contextAlias, errorResultName)
    ensures r.body[0].rhs == [CompositeLit(TArray(TIdent("interface{}")), KitLogBaseFields(methodName, errorResultName))]
    ensures r.body[3] == ExprStmt(KitLogCall)
  {
    var (more, app) := ContextFieldsSlots(params, contextAlias, errorResultName);
    var assignStmt := AssignStmt([Ident("_fields")], Define,
                                 [CompositeLit(TArray(TIdent("interface{}")),
                                               KitLogBaseFields(methodName, errorResultName))]);
    If(NotNil(errorResultName), [assignStmt, more, app, ExprStmt(KitLogCall)])
  }

  /**
   * Four base fields alternating key and value: "method", the quoted method
   * name, "error", and the error's message; the logger gets the list spread as
   * its only argument, with no message.
   */
  lemma KitLogFieldsAndCall(params: seq<Field>, contextAlias: string, methodName: string, errorResultName: string)
    requires AllNamed(params)
    ensures var r := ConditionalLogMessageStatementKitLog(params, contextAlias, methodName, errorResultName);
            var lit := r.body[0].rhs[0];
            lit.CompositeLit? && lit.typ == TArray(TIdent("interface{}")) && |lit.elts| == 4 &&
            lit.elts[0] == BasicLit(StringLit, "\"method\"") &&
            lit.elts[1] == BasicLit(StringLit, Quote(methodName)) &&
            lit.elts[2] == BasicLit(StringLit, "\"error\"") &&
            lit.elts[3] == Call(Selector(Ident(errorResultName), "Error"), [], false) &&
            var call := r.body[3].x;
            call.fun == Selector(LoggerRef, "Log") && call.args == [Ident("_fields...")]
  {
  }

  /**
   * Nothing is logged outside `if err != nil`, and the extra fields are
   * appended nowhere but under `len(_more) > 0`.
   */
  lemma KitLogGuards(params: seq<Field>, contextAlias: string, methodName: string, errorResultName: string)
    requires AllNamed(params)
    ensures var r := ConditionalLogMessageStatementKitLog(params, contextAlias, methodName, errorResultName);
            StmtOccurs(LoggerRef, r) && !Unguarded(LoggerRef, NotNil(errorResultName), r) &&
            forall t | t in r.body :: !Unguarded(AppendMore, MoreGiven, t)
  {
    KitLogLoggerGuarded(params, contextAlias, methodName, errorResultName);
    KitLogAppendGuarded(params, contextAlias, methodName, errorResultName);
  }

  lemma KitLogLoggerGuarded(params: seq<Field>, contextAlias: string, methodName: string, errorResultName: string)
    requires AllNamed(params)
    ensures var r := ConditionalLogMessageStatementKitLog(params, contextAlias, methodName, errorResultName);
            StmtOccurs(LoggerRef, r) && !Unguarded(LoggerRef, NotNil(errorResultName), r)
  {
    var r := ConditionalLogMessageStatementKitLog(params, contextAlias, methodName, errorResultName);
    assert Occurs(LoggerRef, KitLogCall.fun);
    LoggerNotInGuard(errorResultName, r.body);
    assert StmtOccurs(LoggerRef, r.body[3]);
  }

  lemma KitLogAppendGuarded(params: seq<Field>, contextAlias: string, methodName: string, errorResultName: string)
    requires AllNamed(params)
    ensures var r := ConditionalLogMessageStatementKitLog(params, contextAlias, methodName, errorResultName);
            forall t | t in r.body :: !Unguarded(AppendMore, MoreGiven, t)
  {
    var r := ConditionalLogMessageStatementKitLog(params, contextAlias, methodName, errorResultName);
    ContextFieldsSlotsSpec(params, contextAlias, errorResultName);
    KitLogFieldsFree(methodName, errorResultName);
    assert !StmtOccurs(AppendMore, r.body[0]);
    assert !Occurs(AppendMore, KitLogCall) by {
      assert forall a | a in KitLogCall.args :: !Occurs(AppendMore, a);
    }
  }

  lemma KitLogFieldsFree(methodName: string, errorResultName: string)
    ensures !Occurs(AppendMore, CompositeLit(TArray(TIdent("interface{}")), KitLogBaseFields(methodName, errorResultName)))
  {
    var fields := KitLogBaseFields(methodName, errorResultName);
    assert !Occurs(AppendMore, Selector(Ident(errorResultName), "Error")) by {
      assert !Occurs(AppendMore, Ident(errorResultName));
    }
    assert !Occurs(AppendMore, fields[3]);
    assert forall a | a in fields :: !Occurs(AppendMore, a);
  }
}
