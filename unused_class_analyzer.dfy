/**
 * The development tool that looks for class definitions nobody uses.  For
 * each suffix (say `Serializer`), a class counts as a definition when one of
 * its bases is a name or an attribute ending with the suffix; a name counts
 * as a usage when an import, a `Name` or an `Attribute` node carries it and
 * it ends with the suffix.  The report lists the definitions that never
 * occur as a usage and makes the tool exit with status 1.
 *
 * A parsed file is a tree of the statement and expression kinds the tool
 * inspects, plus assignments, function definitions and calls, under which
 * such nodes can sit.  `os.walk` over the project roots is given as the
 * sequence of files it yields, each with its parse tree or a syntax error.
 */
module UnusedClassAnalyzer {
  import opened Wrappers
  import opened Text

  datatype Expr =
    | Name(id: string)
    | Attribute(value: Expr, attr: string)
    | Call(func: Expr, args: seq<Expr>)
    | Constant(literal: string)

  datatype Stmt =
    | ClassDef(name: string, bases: seq<Expr>, body: seq<Stmt>)
    | FunctionDef(name: string, body: seq<Stmt>)
    | Import(names: seq<string>)
    | ImportFrom(moduleName: string, names: seq<string>)
    | ExprStmt(value: Expr)
    | Assign(targets: seq<Expr>, value: Expr)

  /** A node as `ast.walk` yields it. */
  datatype Node = StmtNode(stmt: Stmt) | ExprNode(expr: Expr)

  // ----- ast.walk -----------------------------------------------------------------

  /** Every node of an expression, the expression first. */
  function WalkExpr(e: Expr): (nodes: seq<Node>)
    ensures |nodes| >= 1 && nodes[0] == ExprNode(e)
    decreases e, 1
  {
    [ExprNode(e)] + match e
      case Attribute(v, _) => WalkExpr(v)
      case Call(f, args) => WalkExpr(f) + WalkExprs(args)
      case _ => []
  }

  function WalkExprs(es: seq<Expr>): seq<Node>
    decreases es, 0
  {
    if es == [] then [] else WalkExpr(es[0]) + WalkExprs(es[1..])
  }

  /** Every node of a statement, the statement first. */
  function WalkStmt(s: Stmt): (nodes: seq<Node>)
    ensures |nodes| >= 1 && nodes[0] == StmtNode(s)
    decreases s, 1
  {
    [StmtNode(s)] + match s
      case ClassDef(_, bases, body) => WalkExprs(bases) + WalkStmts(body)
      case FunctionDef(_, body) => WalkStmts(body)
      case ExprStmt(v) => WalkExpr(v)
      case Assign(targets, v) => WalkExprs(targets) + WalkExpr(v)
      case _ => []
  }

  /** `ast.walk` of a module: every node of every statement.  (Python walks
      breadth first; what the tool collects does not depend on the order.) */
  function WalkStmts(ss: seq<Stmt>): seq<Node>
    decreases ss, 0
  {
    if ss == [] then [] else WalkStmt(ss[0]) + WalkStmts(ss[1..])
  }

  // ----- what one node contributes ------------------------------------------------

  /** The imported names that end with `suffix`. */
  function NamesEnding(names: seq<string>, suffix: string): (r: set<string>)
    ensures forall n :: n in r <==> n in names && EndsWith(n, suffix)
  {
    set n | n in names && EndsWith(n, suffix)
  }

  /** The usages `find_usages` records for one node. */
  function UsageOf(node: Node, suffix: string): (r: set<string>)
    ensures forall n :: n in r ==> EndsWith(n, suffix)
  {
    match node
    case StmtNode(ImportFrom(_, names)) => NamesEnding(names, suffix)
    case StmtNode(Import(names)) => NamesEnding(names, suffix)
    case ExprNode(Name(id)) => if EndsWith(id, suffix) then {id} else {}
    case ExprNode(Attribute(_, attr)) => if EndsWith(attr, suffix) then {attr} else {}
    case _ => {}
  }

  /** The usages recorded over a sequence of nodes. */
  function UsagesOf(nodes: seq<Node>, suffix: string): (r: set<string>)
    ensures forall n :: n in r ==> EndsWith(n, suffix)
  {
    if nodes == [] then {} else UsagesOf(nodes[..|nodes| - 1], suffix) + UsageOf(nodes[|nodes| - 1], suffix)
  }

  /** A base that makes a class a definition for `suffix`. */
  predicate SuffixedBase(base: Expr, suffix: string) {
    match base
    case Attribute(_, attr) => EndsWith(attr, suffix)
    case Name(id) => EndsWith(id, suffix)
    case _ => false
  }

  /** The class `find_definitions` records for one node, if any. */
  function DefinitionOf(node: Node, suffix: string): (r: Option<string>)
    ensures r.Some? <==> node.StmtNode? && node.stmt.ClassDef?
                         && exists k :: 0 <= k < |node.stmt.bases| && SuffixedBase(node.stmt.bases[k], suffix)
    ensures r.Some? ==> r.value == node.stmt.name
  {
    match node
    case StmtNode(ClassDef(name, bases, _)) =>
      if exists k :: 0 <= k < |bases| && SuffixedBase(bases[k], suffix) then Some(name) else None
    case _ => None
  }

  /** The class names recorded over a sequence of nodes. */
  function DefinitionsOf(nodes: seq<Node>, suffix: string): (r: set<string>)
    ensures forall n :: n in r <==> exists k :: 0 <= k < |nodes| && DefinitionOf(nodes[k], suffix) == Some(n)
  {
    if nodes == [] then {}
    else
      var init := nodes[..|nodes| - 1];
      assert forall k :: 0 <= k < |init| ==> init[k] == nodes[k];
      DefinitionsOf(init, suffix)
      + match DefinitionOf(nodes[|nodes| - 1], suffix) case Some(n) => {n} case None => {}
  }

  /** `definitions` with each of `names` mapped to `path`. */
  function Record(definitions: map<string, string>, names: set<string>, path: string): (r: map<string, string>)
    ensures r.Keys == definitions.Keys + names
    ensures forall n :: n in r ==> r[n] == if n in names then path else definitions[n]
  {
    map n | n in definitions.Keys + names :: if n in names then path else definitions[n]
  }

  /** Recording one more name is an update of the map. */
  lemma RecordOneMore(definitions: map<string, string>, names: set<string>, n: string, path: string)
    ensures Record(definitions, names + {n}, path) == Record(definitions, names, path)[n := path]
  {
  }

  /** Recording the classes of one more node. */
  lemma DefinitionsStep(definitions: map<string, string>, nodes: seq<Node>, i: nat, suffix: string, path: string)
    requires i < |nodes|
    ensures Record(definitions, DefinitionsOf(nodes[..i + 1], suffix), path)
            == if DefinitionOf(nodes[i], suffix).Some?
               then Record(definitions, DefinitionsOf(nodes[..i], suffix), path)[nodes[i].stmt.name := path]
               else Record(definitions, DefinitionsOf(nodes[..i], suffix), path)
  {
    assert nodes[..i + 1][..i] == nodes[..i];
    var recorded := DefinitionsOf(nodes[..i], suffix);
    if DefinitionOf(nodes[i], suffix).Some? {
      assert DefinitionsOf(nodes[..i + 1], suffix) == recorded + {nodes[i].stmt.name};
      RecordOneMore(definitions, recorded, nodes[i].stmt.name, path);
    } else {
      assert DefinitionsOf(nodes[..i + 1], suffix) == recorded;
    }
  }

  /** Recording two sets for the same path is recording their union. */
  lemma RecordTwice(definitions: map<string, string>, a: set<string>, b: set<string>, path: string)
    ensures Record(Record(definitions, a, path), b, path) == Record(definitions, a + b, path)
  {
  }

  /** Recording nothing changes nothing. */
  lemma RecordNothing(definitions: map<string, string>, path: string)
    ensures Record(definitions, {}, path) == definitions
  {
  }

  // ----- analyze --------------------------------------------------------------------

  /** A file `os.walk` yields: its path and its parse tree, or `None` when the
      file does not parse. */
  datatype SourceFile = SourceFile(path: string, tree: Option<seq<Stmt>>)

  /** A file the tool reads: a `.py` file that parses. */
  predicate Analyzed(f: SourceFile) {
    EndsWith(f.path, ".py") && f.tree.Some?
  }

  /** The usages one analyzed file contributes over `suffixes`. */
  function FileUsages(tree: seq<Stmt>, suffixes: seq<string>): set<string> {
    if suffixes == [] then {}
    else FileUsages(tree, suffixes[..|suffixes| - 1]) + UsagesOf(WalkStmts(tree), suffixes[|suffixes| - 1])
  }

  /** The definitions one analyzed file contributes over `suffixes`. */
  function FileDefinitions(tree: seq<Stmt>, suffixes: seq<string>): set<string> {
    if suffixes == [] then {}
    else FileDefinitions(tree, suffixes[..|suffixes| - 1]) + DefinitionsOf(WalkStmts(tree), suffixes[|suffixes| - 1])
  }

  /** The usages collected over `files`. */
  function AllUsages(files: seq<SourceFile>, suffixes: seq<string>): set<string> {
    if files == [] then {}
    else
      var f := files[|files| - 1];
      AllUsages(files[..|files| - 1], suffixes) + if Analyzed(f) then FileUsages(f.tree.value, suffixes) else {}
  }

  /** The definitions collected over `files`, each with the last file that
      defined it. */
  function AllDefinitions(definitions: map<string, string>, files: seq<SourceFile>, suffixes: seq<string>)
    : map<string, string>
  {
    if files == [] then definitions
    else
      var f := files[|files| - 1];
      var before := AllDefinitions(definitions, files[..|files| - 1], suffixes);
      if Analyzed(f) then Record(before, FileDefinitions(f.tree.value, suffixes), f.path) else before
  }

  /** The outcome of `report`. */
  datatype Report =
    | NothingUnused
    | Unreported(header: string, entries: set<string>)   // printed, then `sys.exit(1)`

  /** The definitions that never occur as a usage. */
  function Unused(definitions: map<string, string>, usages: set<string>): (r: set<string>)
    ensures forall n :: n in r <==> n in definitions && n !in usages
  {
    set n | n in definitions && n !in usages
  }

  /** The line printed for an unused class. */
  function Entry(name: string, path: string): string {
    " - " + name + " (" + path + ")"
  }

  class Analyzer {
    var projectRoots: seq<string>
    var classSuffixes: seq<string>
    var allDefinitions: map<string, string>
    var allUsages: set<string>

    constructor (projectRoots: seq<string>, classSuffixes: seq<string>)
      ensures this.projectRoots == projectRoots && this.classSuffixes == classSuffixes
      ensures allDefinitions == map[] && allUsages == {}
    {
      this.projectRoots := projectRoots;
      this.classSuffixes := classSuffixes;
      allDefinitions := map[];
      allUsages := {};
    }

    /** `find_usages`: adds the usages of every walked node. */
    method FindUsages(suffix: string, tree: seq<Stmt>)
      modifies this`allUsages
      ensures allUsages == old(allUsages) + UsagesOf(WalkStmts(tree), suffix)
    {
      var nodes := WalkStmts(tree);
      for i := 0 to |nodes|
        invariant allUsages == old(allUsages) + UsagesOf(nodes[..i], suffix)
      {
        assert nodes[..i + 1][..i] == nodes[..i];
        match nodes[i]
        case StmtNode(ImportFrom(_, names)) =>
          for j := 0 to |names|
            invariant allUsages == old(allUsages) + UsagesOf(nodes[..i], suffix) + NamesEnding(names[..j], suffix)
          {
            assert names[..j + 1] == names[..j] + [names[j]];
            if EndsWith(names[j], suffix) {
              allUsages := allUsages + {names[j]};
            }
          }
          assert names[..|names|] == names;
        case StmtNode(Import(names)) =>
          for j := 0 to |names|
            invariant allUsages == old(allUsages) + UsagesOf(nodes[..i], suffix) + NamesEnding(names[..j], suffix)
          {
            assert names[..j + 1] == names[..j] + [names[j]];
            if EndsWith(names[j], suffix) {
              allUsages := allUsages + {names[j]};
            }
          }
          assert names[..|names|] == names;
        case ExprNode(Name(id)) =>
          if EndsWith(id, suffix) {
            allUsages := allUsages + {id};
          }
        case ExprNode(Attribute(_, attr)) =>
          if EndsWith(attr, suffix) {
            allUsages := allUsages + {attr};
          }
        case _ =>
      }
      assert nodes[..|nodes|] == nodes;
    }

    /** `find_definitions`: records `filepath` for every class with a base
        ending with `suffix`. */
    method FindDefinitions(suffix: string, tree: seq<Stmt>, filepath: string)
      modifies this`allDefinitions
      ensures allDefinitions == Record(old(allDefinitions), DefinitionsOf(WalkStmts(tree), suffix), filepath)
    {
      var nodes := WalkStmts(tree);
      RecordNothing(allDefinitions, filepath);
      for i := 0 to |nodes|
        invariant allDefinitions == Record(old(allDefinitions), DefinitionsOf(nodes[..i], suffix), filepath)
      {
        DefinitionsStep(old(allDefinitions), nodes, i, suffix, filepath);
        if nodes[i].StmtNode? && nodes[i].stmt.ClassDef? {
          RecordClass(suffix, nodes[i].stmt.name, nodes[i].stmt.bases, filepath);
        }
      }
      assert nodes[..|nodes|] == nodes;
    }

    /** The loop over the bases of one class in `find_definitions`. */
    method RecordClass(suffix: string, name: string, bases: seq<Expr>, filepath: string)
      modifies this`allDefinitions
      ensures allDefinitions == if exists k :: 0 <= k < |bases| && SuffixedBase(bases[k], suffix)
                                then old(allDefinitions)[name := filepath] else old(allDefinitions)
    {
      for j := 0 to |bases|
        invariant allDefinitions == if exists k :: 0 <= k < j && SuffixedBase(bases[k], suffix)
                                    then old(allDefinitions)[name := filepath] else old(allDefinitions)
      {
        if SuffixedBase(bases[j], suffix) {
          allDefinitions := allDefinitions[name := filepath];
        }
      }
    }

    /** `analyze`: every `.py` file that parses, every suffix, definitions
        then usages. */
    method Analyze(files: seq<SourceFile>)
      modifies this`allDefinitions, this`allUsages
      ensures allUsages == old(allUsages) + AllUsages(files, classSuffixes)
      ensures allDefinitions == AllDefinitions(old(allDefinitions), files, classSuffixes)
    {
      for i := 0 to |files|
        invariant allUsages == old(allUsages) + AllUsages(files[..i], classSuffixes)
        invariant allDefinitions == AllDefinitions(old(allDefinitions), files[..i], classSuffixes)
      {
        assert files[..i + 1][..i] == files[..i];
        var f := files[i];
        if EndsWith(f.path, ".py") {
          match f.tree
          case None =>
          case Some(tree) =>
            ghost var usages0, definitions0 := allUsages, allDefinitions;
            RecordNothing(definitions0, f.path);
            for j := 0 to |classSuffixes|
              invariant allUsages == usages0 + FileUsages(tree, classSuffixes[..j])
              invariant allDefinitions == Record(definitions0, FileDefinitions(tree, classSuffixes[..j]), f.path)
            {
              assert classSuffixes[..j + 1][..j] == classSuffixes[..j];
              RecordTwice(definitions0, FileDefinitions(tree, classSuffixes[..j]),
                          DefinitionsOf(WalkStmts(tree), classSuffixes[j]), f.path);
              FindDefinitions(classSuffixes[j], tree, f.path);
              FindUsages(classSuffixes[j], tree);
            }
            assert classSuffixes[..|classSuffixes|] == classSuffixes;
        }
      }
      assert files[..|files|] == files;
    }

    /** `report`: nothing when every definition is used; otherwise the count,
        one line per unused class, and exit status 1. */
    method Report() returns (r: Report)
      ensures r.NothingUnused? <==> Unused(allDefinitions, allUsages) == {}
      ensures r.Unreported? ==>
                && r.header == "Found " + Decimal(|Unused(allDefinitions, allUsages)|) + " potentially unused class defs:"
                && r.entries == set n | n in Unused(allDefinitions, allUsages) :: Entry(n, allDefinitions[n])
    {
      var unused := set n | n in allDefinitions && n !in allUsages;
      if unused == {} {
        return NothingUnused;
      }
      r := Unreported("Found " + Decimal(|unused|) + " potentially unused class defs:",
                      set n | n in unused :: Entry(n, allDefinitions[n]));
    }
  }

  /** The exit status of the command. */
  datatype Exit = Crashed | Status(code: int)

  /** `main`, the command line: `--roots` and the optional `--suffixes`, both split on
      commas.  Without `--suffixes` the split of `None` raises. */
  method RunCommand(roots: string, suffixes: Option<string>, files: seq<SourceFile>) returns (exit: Exit)
    ensures suffixes.None? ==> exit == Crashed
    ensures suffixes.Some? ==>
              exit == Status(if Unused(AllDefinitions(map[], files, Split(suffixes.value, ",")),
                                       AllUsages(files, Split(suffixes.value, ","))) == {} then 0 else 1)
  {
    if suffixes.None? {
      return Crashed;
    }
    var analyzer := new Analyzer(Split(roots, ","), Split(suffixes.value, ","));
    analyzer.Analyze(files);
    var report := analyzer.Report();
    if report.Unreported? {
      return Status(1);    // `sys.exit(1)` inside `report`
    }
    // `report` returns `None`, so the `has_issues` branch is never taken.
    exit := Status(0);
  }

  // ----- what the tool finds ----------------------------------------------------------

  /** A file that is not Python or does not parse adds nothing. */
  lemma SkippedFileAddsNothing(files: seq<SourceFile>, f: SourceFile, suffixes: seq<string>,
                               definitions: map<string, string>)
    requires !Analyzed(f)
    ensures AllUsages(files + [f], suffixes) == AllUsages(files, suffixes)
    ensures AllDefinitions(definitions, files + [f], suffixes) == AllDefinitions(definitions, files, suffixes)
  {
    assert (files + [f])[..|files|] == files;
  }

  lemma {:induction false} UsagesOfAppend(a: seq<Node>, b: seq<Node>, suffix: string)
    ensures UsagesOf(a + b, suffix) == UsagesOf(a, suffix) + UsagesOf(b, suffix)
    decreases |b|
  {
    if b == [] {
      assert a + b == a;
    } else {
      assert (a + b)[..|a + b| - 1] == a + b[..|b| - 1];
      UsagesOfAppend(a, b[..|b| - 1], suffix);
    }
  }

  /** A class referred to by name in a top-level expression statement of an
      analyzed file, whose name ends with one of the suffixes, is a usage. */
  lemma {:induction false} NameStatementIsUsage(files: seq<SourceFile>, suffixes: seq<string>, i: nat, j: nat, s: nat, n: string)
    requires i < |files| && Analyzed(files[i])
    requires j < |files[i].tree.value| && files[i].tree.value[j] == ExprStmt(Name(n))
    requires s < |suffixes| && EndsWith(n, suffixes[s])
    ensures n in AllUsages(files, suffixes)
  {
    var tree := files[i].tree.value;
    StmtIsWalked(tree, j);
    var nodes := WalkStmts(tree);
    var k :| 0 <= k <= |nodes| - 2 && nodes[k] == StmtNode(ExprStmt(Name(n))) && nodes[k + 1] == ExprNode(Name(n));
    UsageInNodes(nodes, k + 1, suffixes[s]);
    UsageInFile(tree, suffixes, s, n);
    UsageInFiles(files, suffixes, i, n);
  }

  /** The statement at position `j` is walked, its first expression right after it. */
  lemma {:induction false} StmtIsWalked(tree: seq<Stmt>, j: nat)
    requires j < |tree| && tree[j].ExprStmt?
    ensures exists k :: 0 <= k <= |WalkStmts(tree)| - 2 && WalkStmts(tree)[k] == StmtNode(tree[j])
                        && WalkStmts(tree)[k + 1] == ExprNode(tree[j].value)
  {
    var w := WalkStmt(tree[0]);
    var rest := WalkStmts(tree[1..]);
    assert WalkStmts(tree) == w + rest;
    if j == 0 {
      assert w == [StmtNode(tree[0])] + WalkExpr(tree[0].value);
      assert WalkStmts(tree)[0] == StmtNode(tree[0]) && WalkStmts(tree)[1] == ExprNode(tree[0].value);
    } else {
      StmtIsWalked(tree[1..], j - 1);
      var k :| 0 <= k <= |rest| - 2 && rest[k] == StmtNode(tree[1..][j - 1]) && rest[k + 1] == ExprNode(tree[1..][j - 1].value);
      assert WalkStmts(tree)[|w| + k] == rest[k] && WalkStmts(tree)[|w| + k + 1] == rest[k + 1];
    }
  }

  lemma {:induction false} UsageInNodes(nodes: seq<Node>, k: nat, suffix: string)
    requires k < |nodes|
    ensures UsageOf(nodes[k], suffix) <= UsagesOf(nodes, suffix)
  {
    assert nodes == nodes[..k + 1] + nodes[k + 1..];
    UsagesOfAppend(nodes[..k + 1], nodes[k + 1..], suffix);
    assert nodes[..k + 1][..k] == nodes[..k];
  }

  lemma {:induction false} UsageInFile(tree: seq<Stmt>, suffixes: seq<string>, s: nat, n: string)
    requires s < |suffixes| && n in UsagesOf(WalkStmts(tree), suffixes[s])
    ensures n in FileUsages(tree, suffixes)
  {
    if s < |suffixes| - 1 {
      var init := suffixes[..|suffixes| - 1];
      assert init[s] == suffixes[s];
      UsageInFile(tree, init, s, n);
    }
  }

  lemma {:induction false} UsageInFiles(files: seq<SourceFile>, suffixes: seq<string>, i: nat, n: string)
    requires i < |files| && Analyzed(files[i]) && n in FileUsages(files[i].tree.value, suffixes)
    ensures n in AllUsages(files, suffixes)
  {
    if i < |files| - 1 {
      var init := files[..|files| - 1];
      assert init[i] == files[i];
      UsageInFiles(init, suffixes, i, n);
    }
  }

  /** Usages only ever hold names ending with a suffix: a class defined under
      a suffixed base whose own name carries no suffix is reported even when
      the file that defines it also uses it. */
  lemma UnsuffixedNameAlwaysReported(name: string, base: string, suffix: string, path: string)
    requires EndsWith(base, suffix) && !EndsWith(name, suffix) && EndsWith(path, ".py")
    ensures var files := [SourceFile(path, Some([ClassDef(name, [Name(base)], []), ExprStmt(Name(name))]))];
            name in Unused(AllDefinitions(map[], files, [suffix]), AllUsages(files, [suffix]))
  {
    var tree := [ClassDef(name, [Name(base)], []), ExprStmt(Name(name))];
    var files := [SourceFile(path, Some(tree))];
    var nodes := ExampleWalk(name, base);
    var defined := DefinitionsOf(nodes, suffix);
    assert DefinitionOf(nodes[0], suffix) == Some(name) by {
      assert SuffixedBase(tree[0].bases[0], suffix);
    }
    assert name in defined;
    FourNodeUsages(nodes, suffix);
    assert name !in UsagesOf(nodes, suffix);
    assert [suffix][..0] == [] && files[..0] == [];
    assert FileUsages(tree, [suffix]) == UsagesOf(nodes, suffix);
    assert FileDefinitions(tree, [suffix]) == defined;
    assert AllUsages(files, [suffix]) == UsagesOf(nodes, suffix);
    assert AllDefinitions(map[], files, [suffix]) == Record(map[], defined, path);
  }

  /** The nodes of the two-statement module of the lemma above. */
  lemma ExampleWalk(name: string, base: string) returns (nodes: seq<Node>)
    ensures nodes == WalkStmts([ClassDef(name, [Name(base)], []), ExprStmt(Name(name))])
    ensures nodes == [StmtNode(ClassDef(name, [Name(base)], [])), ExprNode(Name(base)),
                      StmtNode(ExprStmt(Name(name))), ExprNode(Name(name))]
  {
    var tree := [ClassDef(name, [Name(base)], []), ExprStmt(Name(name))];
    var first := [StmtNode(tree[0]), ExprNode(Name(base))];
    var second := [StmtNode(tree[1]), ExprNode(Name(name))];
    assert WalkStmt(tree[0]) == first by {
      assert [Name(base)][1..] == [];
      assert WalkExprs([Name(base)]) == [ExprNode(Name(base))] + WalkExprs([]);
    }
    assert WalkStmt(tree[1]) == second;
    assert tree[1..] == [tree[1]] && [tree[1]][1..] == [];
    assert WalkStmts(tree[1..]) == second + WalkStmts([]);
    nodes := first + second;
  }

  /** The usages of four nodes are those of each node. */
  lemma FourNodeUsages(nodes: seq<Node>, suffix: string)
    requires |nodes| == 4
    ensures UsagesOf(nodes, suffix)
            == UsageOf(nodes[0], suffix) + UsageOf(nodes[1], suffix) + UsageOf(nodes[2], suffix) + UsageOf(nodes[3], suffix)
  {
    assert nodes[..4] == nodes;
    assert UsagesOf(nodes[..1], suffix) == UsageOf(nodes[0], suffix) by {
      assert nodes[..1][..0] == [];
    }
    assert UsagesOf(nodes[..2], suffix) == UsagesOf(nodes[..1], suffix) + UsageOf(nodes[1], suffix) by {
      assert nodes[..2][..1] == nodes[..1];
    }
    assert UsagesOf(nodes[..3], suffix) == UsagesOf(nodes[..2], suffix) + UsageOf(nodes[2], suffix) by {
      assert nodes[..3][..2] == nodes[..2];
    }
    assert nodes[..3] == nodes[..|nodes| - 1];
  }

  /** The last analyzed file that defines a class is the path reported for it. */
  lemma LastDefinitionWins(definitions: map<string, string>, files: seq<SourceFile>, f: SourceFile,
                           suffixes: seq<string>, n: string)
    requires Analyzed(f) && n in FileDefinitions(f.tree.value, suffixes)
    ensures AllDefinitions(definitions, files + [f], suffixes)[n] == f.path
  {
    assert (files + [f])[..|files|] == files;
  }
}
