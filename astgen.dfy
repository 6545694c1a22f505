/**
 * The generators' view of the `astgen` package: the per-method signature
 * record, the output file with its first-use-numbered import table, and the
 * method builder that collects statements. The package itself is not part
 * of this model; these are the behaviours its callers rely on.
 */
module AstGen {
  import opened Wrappers
  import opened GoAst

  predicate AllNamed(fs: seq<Field>) {
    forall i | 0 <= i < |fs| :: |fs[i].names| > 0
  }

  /** One interface method's signature, parameters and results in declaration order. */
  datatype MethodConfig = MethodConfig(methodName: string, methodParams: seq<Field>, methodResults: seq<Field>) {
    /** Every parameter and result carries a name (results are named `result1`, ... when anonymous). */
    predicate Named() {
      AllNamed(methodParams) && AllNamed(methodResults)
    }

    predicate HasResults() {
      |methodResults| > 0
    }
  }

  /** The first name of each field, in order. */
  function FirstNames(fs: seq<Field>): seq<string>
    requires AllNamed(fs)
  {
    seq(|fs|, i requires 0 <= i < |fs| => fs[i].names[0])
  }

  /** The same fields with their names dropped. */
  function FieldsAsAnonymous(fs: seq<Field>): seq<Field> {
    seq(|fs|, i requires 0 <= i < |fs| => Field([], fs[i].typ))
  }

  // ---------------------------------------------------------------------
  // Import aliases: the k-th distinct package imported is `alias<k>`.

  function Digit(d: nat): char
    requires d < 10
  {
    "0123456789"[d]
  }

  /** Decimal digits of `n`, most significant first. */
  function NatToString(n: nat): string
    decreases n
  {
    if n < 10 then [Digit(n)] else NatToString(n / 10) + [Digit(n % 10)]
  }

  lemma {:induction false} NatToStringLength(n: nat)
    ensures |NatToString(n)| >= 1
    ensures n >= 10 ==> |NatToString(n)| >= 2
  {
    if n >= 10 {
      NatToStringLength(n / 10);
    }
  }

  /** Distinct numbers have distinct decimal representations. */
  lemma {:induction false} NatToStringInjective(a: nat, b: nat)
    ensures NatToString(a) == NatToString(b) ==> a == b
    decreases a
  {
    var sa, sb := NatToString(a), NatToString(b);
    if sa == sb {
      NatToStringLength(a);
      NatToStringLength(b);
      if a < 10 && b < 10 {
        assert Digit(a) == sa[0] == Digit(b);
      } else if a >= 10 && b >= 10 {
        assert sa[|sa| - 1] == Digit(a % 10);
        assert sb[|sb| - 1] == Digit(b % 10);
        assert a % 10 == b % 10;
        assert sa[..|sa| - 1] == NatToString(a / 10);
        assert sb[..|sb| - 1] == NatToString(b / 10);
        NatToStringInjective(a / 10, b / 10);
      }
    }
  }

  /** The alias of the k-th distinct imported package (k counts from 1). */
  function AliasName(k: nat): string {
    "alias" + NatToString(k)
  }

  /** Aliases are collision-free: two import slots never share an alias. */
  lemma AliasNameInjective(a: nat, b: nat)
    ensures AliasName(a) == AliasName(b) ==> a == b
  {
    if AliasName(a) == AliasName(b) {
      assert NatToString(a) == AliasName(a)[5..];
      assert NatToString(b) == AliasName(b)[5..];
      NatToStringInjective(a, b);
    }
  }

  predicate Distinct(s: seq<string>) {
    forall i, j | 0 <= i < j < |s| :: s[i] != s[j]
  }

  /** Position of the first occurrence of `x` in `s`. */
  function IndexOf(s: seq<string>, x: string): (i: nat)
    requires x in s
    ensures i < |s| && s[i] == x && x !in s[..i]
  {
    if s[0] == x then 0 else
      var j := IndexOf(s[1..], x);
      assert s[1..][..j] == s[1..j + 1];
      assert s[..j + 1] == [s[0]] + s[1..j + 1];
      j + 1
  }

  /** The import list after `location` is requested: appended on first use only. */
  function Register(imports: seq<string>, location: string): (r: seq<string>)
    ensures location in r
    ensures Distinct(imports) ==> Distinct(r)
    ensures forall x | x in imports :: x in r
  {
    if location in imports then imports else imports + [location]
  }

  /** The alias given to `location` by an import list in first-use order. */
  function AliasIn(imports: seq<string>, location: string): string
    requires location in imports
  {
    AliasName(IndexOf(imports, location) + 1)
  }

  /** Different packages of one file get different aliases. */
  lemma AliasesDistinct(imports: seq<string>, x: string, y: string)
    requires Distinct(imports) && x in imports && y in imports && x != y
    ensures AliasIn(imports, x) != AliasIn(imports, y)
  {
    AliasNameInjective(IndexOf(imports, x) + 1, IndexOf(imports, y) + 1);
  }

  /** Importing a package never changes the alias of one imported before. */
  lemma {:induction false} AliasStable(imports: seq<string>, x: string, location: string)
    requires x in imports
    ensures x in Register(imports, location)
    ensures AliasIn(Register(imports, location), x) == AliasIn(imports, x)
  {
    var r := Register(imports, location);
    var i := IndexOf(imports, x);
    assert r[..i] == imports[..i];
    assert r[i] == x;
    IndexOfUnique(r, x, i);
  }

  lemma IndexOfUnique(s: seq<string>, x: string, i: nat)
    requires i < |s| && s[i] == x && x !in s[..i]
    ensures IndexOf(s, x) == i
  {
  }

  /** The output file: its import table and its declarations in order. */
  class File {
    const packageName: string
    var imports: seq<string>
    var decls: seq<Decl>

    ghost predicate Valid()
      reads this
    {
      Distinct(imports)
    }

    /** The alias under which `location` is imported. */
    function AliasOf(location: string): string
      reads this
      requires location in imports
    {
      AliasIn(imports, location)
    }

    constructor (packageName: string)
      ensures Valid()
      ensures this.packageName == packageName && imports == [] && decls == []
    {
      this.packageName := packageName;
      imports := [];
      decls := [];
    }

    /**
     * Returns the alias for `location`, registering the package first if this
     * is its first use. The requested package name is not modelled.
     */
    method AddImport(pkgName: string, location: string) returns (alias: string)
      requires Valid()
      modifies this
      ensures Valid()
      ensures imports == Register(old(imports), location)
      ensures decls == old(decls)
      ensures alias == AliasOf(location)
    {
      if location !in imports {
        imports := imports + [location];
      }
      alias := AliasIn(imports, location);
    }

    method AppendDeclaration(d: Decl)
      modifies this
      ensures decls == old(decls) + [d]
      ensures imports == old(imports)
    {
      decls := decls + [d];
    }
  }

  /** A method under construction: its signature and the statements added so far. */
  class Method {
    const name: string
    const receiverName: string
    const structName: string
    var params: seq<Field>
    var results: seq<Field>
    var body: seq<Stmt>

    constructor (name: string, receiverName: string, structName: string)
      ensures this.name == name && this.receiverName == receiverName && this.structName == structName
      ensures params == [] && results == [] && body == []
    {
      this.name := name;
      this.receiverName := receiverName;
      this.structName := structName;
      params := [];
      results := [];
      body := [];
    }

    method SetType(params: seq<Field>, results: seq<Field>)
      modifies this
      ensures this.params == params && this.results == results
      ensures body == old(body)
    {
      this.params := params;
      this.results := results;
    }

    method AddStatement(s: Stmt)
      modifies this
      ensures body == old(body) + [s]
      ensures params == old(params) && results == old(results)
    {
      body := body + [s];
    }

    /** The declaration `func (receiverName *structName) name(params) (results) { body }`. */
    function Build(): Decl
      reads this
    {
      FuncDecl("", name, Some(Receiver(receiverName, structName)), params, results, body)
    }
  }
}
