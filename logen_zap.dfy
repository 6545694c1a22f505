/** logen's backend for the structured `zap` logger. */
module LogenZap {
  import opened GoAst
  import opened AstGen
  import opened Logen

  const ZapPackage := "go.uber.org/zap"
  const ZapCorePackage := "go.uber.org/zap/zapcore"

  /**
   * Registers the `zap` and `zapcore` imports, in that order, and describes
   * the backend: logger type `*<zap>.Logger`, field type `<zapcore>.Field`.
   */
  method GetZapLoggerInfo(file: File) returns (info: LoggerInfo)
    requires file.Valid()
    modifies file
    ensures file.Valid()
    ensures file.imports == Register(Register(old(file.imports), ZapPackage), ZapCorePackage)
    ensures file.decls == old(file.decls)
    ensures ZapPackage in file.imports && ZapCorePackage in file.imports
    ensures info == LoggerInfo("zap", file.AliasOf(ZapPackage),
                               TStar(TSelector(TIdent(file.AliasOf(ZapPackage)), "Logger")),
                               TSelector(TIdent(file.AliasOf(ZapCorePackage)), "Field"))
  {
    var alias := file.AddImport("", ZapPackage);
    ghost var afterZap := file.imports;
    var aliasCore := file.AddImport("", ZapCorePackage);
    AliasStable(afterZap, ZapPackage, ZapCorePackage);
    info := LoggerInfo("zap", alias,
                       TStar(TSelector(TIdent(alias), "Logger")),
                       TSelector(TIdent(aliasCore), "Field"));
  }

  /** On a file that imports neither yet, `zap` takes the slot before `zapcore`. */
  lemma ZapImportedBeforeCore(imports: seq<string>)
    requires ZapPackage !in imports && ZapCorePackage !in imports
    ensures var r := Register(Register(imports, ZapPackage), ZapCorePackage);
            r == imports + [ZapPackage, ZapCorePackage] &&
            IndexOf(r, ZapPackage) + 1 == IndexOf(r, ZapCorePackage)
  {
    var r := Register(Register(imports, ZapPackage), ZapCorePackage);
    assert r == imports + [ZapPackage, ZapCorePackage];
    IndexOfUnique(r, ZapPackage, |imports|);
    assert r[..|imports| + 1] == imports + [ZapPackage];
    IndexOfUnique(r, ZapCorePackage, |imports| + 1);
  }

  /** `<zap>.String("method", "<method>")`, `<zap>.Error(err)` */
  function ZapBaseFields(packageAlias: string, methodName: string, errorResultName: string): seq<Expr> {
    [ Call(Selector(Ident(packageAlias), "String"), [StringLitOf("method"), StringLitOf(methodName)], false),
      Call(Selector(Ident(packageAlias), "Error"), [Ident(errorResultName)], false) ]
  }

  /** `m.logger.Error("<method> failed", _fields...)` */
  function ZapLogCall(methodName: string): Expr {
    Call(Selector(LoggerRef, "Error"), [BasicLit(StringLit, "\"" + methodName + " failed\""), Ident("_fields...")], false)
  }

  /**
   * `if err != nil { _fields := []<Field>{...}; <context slots>; m.logger.Error(...) }`
   */
  function ConditionalLogMessageStatementZap(params: seq<Field>, contextAlias: string, info: LoggerInfo,
                                             methodName: string, errorResultName: string): (r: Stmt)
    requires AllNamed(params)
    ensures GuardedLogSkeleton(r, params, contextAlias, errorResultName)
    ensures r.body[0].rhs == [CompositeLit(TArray(info.fieldsType), ZapBaseFields(info.packageAlias, methodName, errorResultName))]
    ensures r.body[3] == ExprStmt(ZapLogCall(methodName))
  {
    var (more, app) := ContextFieldsSlots(params, contextAlias, errorResultName);
    var assignStmt := AssignStmt([Ident("_fields")], Define,
                                 [CompositeLit(TArray(info.fieldsType),
                                               ZapBaseFields(info.packageAlias, methodName, errorResultName))]);
    If(NotNil(errorResultName), [assignStmt, more, app, ExprStmt(ZapLogCall(methodName))])
  }

  /**
   * Exactly two base fields, the method name first and the error second; the
   * log call passes the message first and the spread fields second.
   */
  lemma ZapFieldsAndCall(params: seq<Field>, contextAlias: string, info: LoggerInfo,
                         methodName: string, errorResultName: string)
    requires AllNamed(params)
    ensures var r := ConditionalLogMessageStatementZap(params, contextAlias, info, methodName, errorResultName);
            var lit := r.body[0].rhs[0];
            lit.CompositeLit? && lit.typ == TArray(info.fieldsType) && |lit.elts| == 2 &&
            lit.elts[0].Call? && lit.elts[0].fun == Selector(Ident(info.packageAlias), "String") &&
            lit.elts[0].args == [StringLitOf("method"), StringLitOf(methodName)] &&
            lit.elts[1].Call? && lit.elts[1].fun == Selector(Ident(info.packageAlias), "Error") &&
            lit.elts[1].args == [Ident(errorResultName)] &&
            var call := r.body[3].x;
            call.fun == Selector(LoggerRef, "Error") && |call.args| == 2 &&
            call.args[0].BasicLit? && call.args[0].value == "\"" + methodName + " failed\"" &&
            call.args[1] == Ident("_fields...")
  {
  }

  /**
   * Nothing is logged outside `if err != nil`, and the extra fields are
   * appended nowhere but under `len(_more) > 0`.
   */
  lemma ZapGuards(params: seq<Field>, contextAlias: string, info: LoggerInfo,
                  methodName: string, errorResultName: string)
    requires AllNamed(params)
    ensures var r := ConditionalLogMessageStatementZap(params, contextAlias, info, methodName, errorResultName);
            StmtOccurs(LoggerRef, r) && !Unguarded(LoggerRef, NotNil(errorResultName), r) &&
            forall t | t in r.body :: !Unguarded(AppendMore, MoreGiven, t)
  {
    ZapLoggerGuarded(params, contextAlias, info, methodName, errorResultName);
    ZapAppendGuarded(params, contextAlias, info, methodName, errorResultName);
  }

  lemma ZapLoggerGuarded(params: seq<Field>, contextAlias: string, info: LoggerInfo,
                  methodName: string, errorResultName: string)
    requires AllNamed(params)
    ensures var r := ConditionalLogMessageStatementZap(params, contextAlias, info, methodName, errorResultName);
            StmtOccurs(LoggerRef, r) && !Unguarded(LoggerRef, NotNil(errorResultName), r)
  {
    var r := ConditionalLogMessageStatementZap(params, contextAlias, info, methodName, errorResultName);
    assert Occurs(LoggerRef, ZapLogCall(methodName).fun);
    LoggerNotInGuard(errorResultName, r.body);
    assert StmtOccurs(LoggerRef, r.body[3]);
  }

  lemma ZapAppendGuarded(params: seq<Field>, contextAlias: string, info: LoggerInfo,
                  methodName: string, errorResultName: string)
    requires AllNamed(params)
    ensures var r := ConditionalLogMessageStatementZap(params, contextAlias, info, methodName, errorResultName);
            forall t | t in r.body :: !Unguarded(AppendMore, MoreGiven, t)
  {
    var r := ConditionalLogMessageStatementZap(params, contextAlias, info, methodName, errorResultName);
    ContextFieldsSlotsSpec(params, contextAlias, errorResultName);
    ZapFieldsFree(info.packageAlias, methodName, errorResultName);
    assert !StmtOccurs(AppendMore, r.body[0]);
    var call := ZapLogCall(methodName);
    assert !Occurs(AppendMore, call) by {
      assert forall a | a in call.args :: !Occurs(AppendMore, a);
    }
  }

  lemma ZapFieldsFree(packageAlias: string, methodName: string, errorResultName: string)
    ensures forall info: LoggerInfo | info.packageAlias == packageAlias ::
              !Occurs(AppendMore, CompositeLit(TArray(info.fieldsType), ZapBaseFields(packageAlias, methodName, errorResultName)))
  {
    var fields := ZapBaseFields(packageAlias, methodName, errorResultName);
    var pkg := Ident(packageAlias);
    assert !Occurs(AppendMore, Selector(pkg, "String")) by {
      assert !Occurs(AppendMore, pkg);
    }
    assert !Occurs(AppendMore, fields[0]) by {
      assert forall a | a in fields[0].args :: !Occurs(AppendMore, a);
    }
    assert !Occurs(AppendMore, Selector(pkg, "Error")) by {
      assert !Occurs(AppendMore, pkg);
    }
    assert !Occurs(AppendMore, fields[1]) by {
      assert forall a | a in fields[1].args :: !Occurs(AppendMore, a);
    }
    assert forall a | a in fields :: !Occurs(AppendMore, a);
  }
}
