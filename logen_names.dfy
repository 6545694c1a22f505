/**
 * logen's command-line side: which logger backends exist, how the backend
 * is chosen from the positional arguments, and how the output file is named.
 */
module LogenNames {
  import opened Wrappers

  /** The logger backends, the first being the default. */
  const SupportedLoggers: seq<string> := ["go_kit_log", "zap"]

  /** Whether `loggerType` names one of the supported backends. */
  method IsLoggerSupported(loggerType: string) returns (supported: bool)
    ensures supported <==> loggerType in SupportedLoggers
    ensures supported <==> (loggerType == "go_kit_log" || loggerType == "zap")
  {
    var i := 0;
    while i < |SupportedLoggers|
      invariant 0 <= i <= |SupportedLoggers|
      invariant loggerType !in SupportedLoggers[..i]
    {
      if SupportedLoggers[i] == loggerType {
        return true;
      }
      i := i + 1;
    }
    return false;
  }

  datatype ArgError =
    | NotEnoughArguments
    | AbsolutePathError(cause: string)   // the source directory could not be made absolute
    | UnsupportedLogger(loggerType: string)

  datatype Args = Args(sourceDir: string, interfaceName: string, loggerType: string)

  /**
   * The positional arguments SOURCE_DIR INTERFACE_NAME [LOGGER]. `abs` stands
   * for the platform's absolute-path resolution, which may fail.
   */
  method ParseArgs(args: seq<string>, abs: string -> Result<string, string>) returns (r: Result<Args, ArgError>)
    ensures |args| < 2 ==> r == Failure(NotEnoughArguments)
    ensures |args| >= 2 && abs(args[0]).Failure? ==> r == Failure(AbsolutePathError(abs(args[0]).error))
    ensures |args| == 3 && abs(args[0]).Success? && args[2] !in SupportedLoggers ==>
              r == Failure(UnsupportedLogger(args[2]))
    ensures r.Success? <==>
              |args| >= 2 && abs(args[0]).Success? && (|args| == 3 ==> args[2] in SupportedLoggers)
    ensures r.Success? ==> r.value == Args(abs(args[0]).value, args[1],
                                           if |args| == 3 then args[2] else SupportedLoggers[0])
  {
    if |args| < 2 {
      return Failure(NotEnoughArguments);
    }
    var sourceDir := abs(args[0]);
    if sourceDir.Failure? {
      return Failure(AbsolutePathError(sourceDir.error));
    }
    var interfaceName := args[1];
    var loggerType := SupportedLoggers[0];
    if |args| == 3 {
      loggerType := args[2];
      var ok := IsLoggerSupported(loggerType);
      if !ok {
        return Failure(UnsupportedLogger(loggerType));
      }
    }
    return Success(Args(sourceDir.value, interfaceName, loggerType));
  }

  // ---------------------------------------------------------------------
  // Snake case. Character classes are those of ASCII.

  predicate IsUpper(c: char) { 'A' <= c <= 'Z' }
  predicate IsLower(c: char) { 'a' <= c <= 'z' }
  predicate IsDigit(c: char) { '0' <= c <= '9' }

  function ToLower(c: char): (l: char)
    ensures !IsUpper(l)
    ensures c != '_' ==> l != '_'
    ensures !IsUpper(c) ==> l == c
  {
    if IsUpper(c) then (c as int + 32) as char else c
  }

  /** An underscore goes before rune `i`: a word boundary. */
  predicate Boundary(s: string, i: nat)
    requires i < |s|
  {
    i > 0 && (IsUpper(s[i]) || IsDigit(s[i])) &&
    ((i + 1 < |s| && IsLower(s[i + 1])) || IsLower(s[i - 1]))
  }

  /** Snake case of the runes before `n`. */
  function SnakePrefix(s: string, n: nat): string
    requires n <= |s|
  {
    if n == 0 then []
    else SnakePrefix(s, n - 1) + (if Boundary(s, n - 1) then "_" else "") + [ToLower(s[n - 1])]
  }

  function SnakeCase(s: string): string {
    SnakePrefix(s, |s|)
  }

  /** Number of boundaries among the runes before `n`. */
  function Insertions(s: string, n: nat): nat
    requires n <= |s|
  {
    if n == 0 then 0 else Insertions(s, n - 1) + (if Boundary(s, n - 1) then 1 else 0)
  }

  /** Converts an identifier to snake case, a rune at a time. */
  method ToSnakeCase(in_: string) returns (out: string)
    ensures out == SnakeCase(in_)
  {
    out := [];
    var i := 0;
    while i < |in_|
      invariant 0 <= i <= |in_|
      invariant out == SnakePrefix(in_, i)
    {
      if i > 0 && (IsUpper(in_[i]) || IsDigit(in_[i])) &&
         ((i + 1 < |in_| && IsLower(in_[i + 1])) || IsLower(in_[i - 1])) {
        out := out + ['_'];
      }
      out := out + [ToLower(in_[i])];
      i := i + 1;
    }
  }

  /** The output is the input's length plus one for each inserted underscore. */
  lemma {:induction false} SnakeLength(s: string, n: nat)
    requires n <= |s|
    ensures |SnakePrefix(s, n)| == n + Insertions(s, n)
  {
    if n > 0 {
      SnakeLength(s, n - 1);
    }
  }

  lemma {:induction false} SnakePrefixIsPrefix(s: string, n: nat, m: nat)
    requires n <= m <= |s|
    ensures |SnakePrefix(s, n)| <= |SnakePrefix(s, m)|
    ensures SnakePrefix(s, m)[..|SnakePrefix(s, n)|] == SnakePrefix(s, n)
    decreases m - n
  {
    if n < m {
      SnakePrefixIsPrefix(s, n, m - 1);
    }
  }

  /**
   * Where each input rune lands: rune `i` becomes its lower-case form at
   * position `i` plus the underscores inserted up to and including it, and an
   * underscore sits right before it exactly when `i` is a boundary.
   */
  lemma SnakeAt(s: string, i: nat)
    requires i < |s|
    ensures var p := i + Insertions(s, i + 1);
            p < |SnakeCase(s)| && SnakeCase(s)[p] == ToLower(s[i]) &&
            (Boundary(s, i) ==> SnakeCase(s)[p - 1] == '_')
  {
    SnakeLength(s, i + 1);
    SnakePrefixIsPrefix(s, i + 1, |s|);
    var pre := SnakePrefix(s, i + 1);
    assert pre[|pre| - 1] == ToLower(s[i]);
    assert Boundary(s, i) ==> pre[|pre| - 2] == '_';
    assert SnakeCase(s)[..|pre|] == pre;
  }

  /** No upper-case letter is left in the output. */
  lemma {:induction false} SnakeLowerCase(s: string, n: nat)
    requires n <= |s|
    ensures forall k | 0 <= k < |SnakePrefix(s, n)| :: !IsUpper(SnakePrefix(s, n)[k])
  {
    if n > 0 {
      SnakeLowerCase(s, n - 1);
    }
  }

  function WithoutUnderscores(s: string): string {
    if s == [] then [] else (if s[0] == '_' then [] else [s[0]]) + WithoutUnderscores(s[1..])
  }

  lemma {:induction false} WithoutUnderscoresConcat(a: string, b: string)
    ensures WithoutUnderscores(a + b) == WithoutUnderscores(a) + WithoutUnderscores(b)
    decreases |a|
  {
    if a == [] {
      assert a + b == b;
    } else {
      assert (a + b)[0] == a[0];
      assert (a + b)[1..] == a[1..] + b;
      WithoutUnderscoresConcat(a[1..], b);
    }
  }

  function LowerAll(s: string): string {
    seq(|s|, i requires 0 <= i < |s| => ToLower(s[i]))
  }

  /**
   * For an input without underscores, deleting the underscores of the output
   * gives back the input lower-cased: the only change besides lowering is the
   * inserted separators.
   */
  lemma SeparatorDropped(sep: string, c: char)
    requires sep == "_" || sep == ""
    requires c != '_'
    ensures WithoutUnderscores(sep + [c]) == [c]
  {
    if sep == "_" {
      var t := sep + [c];
      assert t[0] == '_';
      assert t[1..] == [c];
      assert WithoutUnderscores(t[1..]) == [c] + WithoutUnderscores([c][1..]);
    } else {
      assert sep + [c] == [c];
    }
  }

  lemma {:induction false} SnakeDropsToLower(s: string, n: nat)
    requires n <= |s| && '_' !in s
    ensures WithoutUnderscores(SnakePrefix(s, n)) == LowerAll(s[..n])
  {
    if n > 0 {
      SnakeDropsToLower(s, n - 1);
      var sep: string := if Boundary(s, n - 1) then "_" else "";
      var c := ToLower(s[n - 1]);
      assert SnakePrefix(s, n) == SnakePrefix(s, n - 1) + (sep + [c]);
      WithoutUnderscoresConcat(SnakePrefix(s, n - 1), sep + [c]);
      assert s[n - 1] in s;
      SeparatorDropped(sep, c);
      assert LowerAll(s[..n]) == LowerAll(s[..n - 1]) + [c];
    }
  }

  /** The name of the generated file, `logging_<snake case of the interface>.go`. */
  function Filename(interfaceName: string): (r: string)
    ensures |r| == |interfaceName| + Insertions(interfaceName, |interfaceName|) + 11
    ensures r[..8] == "logging_" && r[|r| - 3..] == ".go"
    ensures r[8..|r| - 3] == SnakeCase(interfaceName)
    ensures forall k | 0 <= k < |r| :: !IsUpper(r[k])
  {
    SnakeLength(interfaceName, |interfaceName|);
    SnakeLowerCase(interfaceName, |interfaceName|);
    "logging_" + SnakeCase(interfaceName) + ".go"
  }
}
