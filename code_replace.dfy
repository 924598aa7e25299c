/**
 * `code_replace`: parse a processor's source, replace the body of every
 * `get_parameters` function the tree visitor reaches with a single
 * `return <obj>`, and print the tree again. The visitor handles function
 * definitions itself and does not descend into their bodies; every other
 * statement (classes, `async def`, compound statements) is descended into.
 * Parsing and printing are outside this model and are passed in as functions.
 */
module CodeReplace {
  import opened Wrappers

  /** The part of an expression the rewrite produces: a constant, or anything else. */
  datatype Expr<V> = Constant(value: V) | OtherExpr(text: string)

  /** A statement of a parsed module, reduced to what the visitor looks at. */
  datatype Stmt<V> =
    | FunctionDef(name: string, body: seq<Stmt<V>>)
    | AsyncFunctionDef(name: string, body: seq<Stmt<V>>)
    | ClassDef(name: string, body: seq<Stmt<V>>)
    | Compound(blocks: seq<Block<V>>)      // if, for, while, with, try: the statement blocks inside
    | Return(value: Expr<V>)
    | Simple(text: string)                 // any other statement

  /** One block of statements of a compound statement (its body, its `else` part, a handler). */
  datatype Block<V> = Block(stmts: seq<Stmt<V>>)

  /** The name of the function whose body is replaced. */
  const Target: string := "get_parameters"

  /**
   * The replacement body: the single statement `return <obj>`. It holds no
   * function definition, so a later visit finds nothing to replace inside it.
   */
  function NewBody<V>(obj: V): (r: seq<Stmt<V>>)
    ensures |r| == 1 && r[0].Return? && r[0].value == Constant(obj)
    ensures NoTargetBlock(r)
  {
    [Return(Constant(obj))]
  }

  /**
   * The visitor on one statement: a function definition named `get_parameters`
   * gets the new body, any other function definition is returned as it is, and
   * the visitor descends into every other statement. Every statement keeps its
   * kind, its name and the length of each of its blocks.
   */
  function Transform<V>(s: Stmt<V>, newBody: seq<Stmt<V>>): (r: Stmt<V>)
    ensures s.FunctionDef? ==> r.FunctionDef? && r.name == s.name
    ensures s.FunctionDef? && s.name == Target ==> r.body == newBody
    ensures s.FunctionDef? && s.name != Target ==> r == s
    ensures s.AsyncFunctionDef? ==> r.AsyncFunctionDef? && r.name == s.name && |r.body| == |s.body|
    ensures s.ClassDef? ==> r.ClassDef? && r.name == s.name && |r.body| == |s.body|
    ensures s.Compound? ==> r.Compound? && |r.blocks| == |s.blocks|
    ensures s.Compound? ==> forall k :: 0 <= k < |s.blocks| ==> |r.blocks[k].stmts| == |s.blocks[k].stmts|
    ensures s.Return? || s.Simple? ==> r == s
    decreases s
  {
    match s
    case FunctionDef(name, body) => if name == Target then FunctionDef(name, newBody) else s
    case AsyncFunctionDef(name, body) => AsyncFunctionDef(name, TransformBlock(body, newBody))
    case ClassDef(name, body) => ClassDef(name, TransformBlock(body, newBody))
    case Compound(blocks) => Compound(TransformBlocks(blocks, newBody))
    case Return(_) => s
    case Simple(_) => s
  }

  /** The visitor on a block of statements, statement by statement. */
  function TransformBlock<V>(b: seq<Stmt<V>>, newBody: seq<Stmt<V>>): (r: seq<Stmt<V>>)
    ensures |r| == |b|
    ensures forall i :: 0 <= i < |b| ==> r[i] == Transform(b[i], newBody)
    decreases b
  {
    if b == [] then [] else [Transform(b[0], newBody)] + TransformBlock(b[1..], newBody)
  }

  function TransformBlocks<V>(bs: seq<Block<V>>, newBody: seq<Stmt<V>>): (r: seq<Block<V>>)
    ensures |r| == |bs|
    ensures forall k :: 0 <= k < |bs| ==> r[k] == Block(TransformBlock(bs[k].stmts, newBody))
    decreases bs
  {
    if bs == [] then [] else [Block(TransformBlock(bs[0].stmts, newBody))] + TransformBlocks(bs[1..], newBody)
  }

  /** Every `get_parameters` the visitor reaches in s has the body newBody. */
  ghost predicate Done<V>(s: Stmt<V>, newBody: seq<Stmt<V>>)
    decreases s
  {
    match s
    case FunctionDef(name, body) => name == Target ==> body == newBody
    case AsyncFunctionDef(_, body) => DoneBlock(body, newBody)
    case ClassDef(_, body) => DoneBlock(body, newBody)
    case Compound(blocks) => forall k :: 0 <= k < |blocks| ==> DoneBlock(blocks[k].stmts, newBody)
    case Return(_) => true
    case Simple(_) => true
  }

  ghost predicate DoneBlock<V>(b: seq<Stmt<V>>, newBody: seq<Stmt<V>>)
    decreases b
  {
    forall i :: 0 <= i < |b| ==> Done(b[i], newBody)
  }

  /** The visitor reaches no `get_parameters` in s. */
  predicate NoTarget<V>(s: Stmt<V>)
    decreases s
  {
    match s
    case FunctionDef(name, _) => name != Target
    case AsyncFunctionDef(_, body) => NoTargetBlock(body)
    case ClassDef(_, body) => NoTargetBlock(body)
    case Compound(blocks) => forall k :: 0 <= k < |blocks| ==> NoTargetBlock(blocks[k].stmts)
    case Return(_) => true
    case Simple(_) => true
  }

  predicate NoTargetBlock<V>(b: seq<Stmt<V>>)
    decreases b
  {
    forall i :: 0 <= i < |b| ==> NoTarget(b[i])
  }

  /** After the visit every reachable `get_parameters` has the new body. */
  lemma {:induction false} TransformDone<V>(s: Stmt<V>, newBody: seq<Stmt<V>>)
    ensures Done(Transform(s, newBody), newBody)
    decreases s
  {
    match s
    case FunctionDef(_, _) =>
    case AsyncFunctionDef(_, body) => TransformBlockDone(body, newBody);
    case ClassDef(_, body) => TransformBlockDone(body, newBody);
    case Compound(blocks) =>
      forall k | 0 <= k < |blocks|
        ensures DoneBlock(TransformBlock(blocks[k].stmts, newBody), newBody)
      {
        TransformBlockDone(blocks[k].stmts, newBody);
      }
    case Return(_) =>
    case Simple(_) =>
  }

  lemma {:induction false} TransformBlockDone<V>(b: seq<Stmt<V>>, newBody: seq<Stmt<V>>)
    ensures DoneBlock(TransformBlock(b, newBody), newBody)
    decreases b
  {
    forall i | 0 <= i < |b|
      ensures Done(TransformBlock(b, newBody)[i], newBody)
    {
      TransformDone(b[i], newBody);
    }
  }

  /**
   * Last write wins: visiting with one body and then another is visiting with
   * the second alone. With equal bodies this is idempotence; with an empty
   * second body it says that the visit changes nothing but the target bodies.
   */
  lemma {:induction false} TransformTwice<V>(s: Stmt<V>, first: seq<Stmt<V>>, second: seq<Stmt<V>>)
    ensures Transform(Transform(s, first), second) == Transform(s, second)
    decreases s
  {
    match s
    case FunctionDef(_, _) =>
    case AsyncFunctionDef(_, body) => TransformBlockTwice(body, first, second);
    case ClassDef(_, body) => TransformBlockTwice(body, first, second);
    case Compound(blocks) =>
      var once := TransformBlocks(blocks, first);
      forall k | 0 <= k < |blocks|
        ensures TransformBlock(once[k].stmts, second) == TransformBlock(blocks[k].stmts, second)
      {
        TransformBlockTwice(blocks[k].stmts, first, second);
      }
      assert TransformBlocks(once, second) == TransformBlocks(blocks, second);
    case Return(_) =>
    case Simple(_) =>
  }

  lemma {:induction false} TransformBlockTwice<V>(b: seq<Stmt<V>>, first: seq<Stmt<V>>, second: seq<Stmt<V>>)
    ensures TransformBlock(TransformBlock(b, first), second) == TransformBlock(b, second)
    decreases b
  {
    forall i | 0 <= i < |b|
      ensures Transform(TransformBlock(b, first)[i], second) == Transform(b[i], second)
    {
      TransformTwice(b[i], first, second);
    }
  }

  /**
   * The visit is the only tree that agrees with the input everywhere except in
   * the bodies of reachable `get_parameters` functions (erasing those bodies
   * gives the same tree) and in which all those bodies are the new body.
   */
  lemma {:induction false} TransformUnique<V>(s: Stmt<V>, x: Stmt<V>, newBody: seq<Stmt<V>>)
    requires Transform(x, []) == Transform(s, []) && Done(x, newBody)
    ensures x == Transform(s, newBody)
    decreases s
  {
    match s
    case FunctionDef(_, _) =>
    case AsyncFunctionDef(_, body) => TransformBlockUnique(body, x.body, newBody);
    case ClassDef(_, body) => TransformBlockUnique(body, x.body, newBody);
    case Compound(blocks) =>
      var xs := x.blocks;
      assert |xs| == |blocks| by {
        assert |TransformBlocks(xs, [])| == |TransformBlocks(blocks, [])|;
      }
      forall k | 0 <= k < |blocks|
        ensures xs[k] == Block(TransformBlock(blocks[k].stmts, newBody))
      {
        assert TransformBlocks(xs, [])[k] == TransformBlocks(blocks, [])[k];
        TransformBlockUnique(blocks[k].stmts, xs[k].stmts, newBody);
      }
      assert xs == TransformBlocks(blocks, newBody);
    case Return(_) =>
    case Simple(_) =>
  }

  lemma {:induction false} TransformBlockUnique<V>(b: seq<Stmt<V>>, x: seq<Stmt<V>>, newBody: seq<Stmt<V>>)
    requires TransformBlock(x, []) == TransformBlock(b, []) && DoneBlock(x, newBody)
    ensures x == TransformBlock(b, newBody)
    decreases b
  {
    assert |x| == |b| by {
      assert |TransformBlock(x, [])| == |TransformBlock(b, [])|;
    }
    forall i | 0 <= i < |b|
      ensures x[i] == Transform(b[i], newBody)
    {
      assert TransformBlock(x, [])[i] == TransformBlock(b, [])[i];
      TransformUnique(b[i], x[i], newBody);
    }
  }

  /** A tree with no reachable `get_parameters` is returned unchanged, without error. */
  lemma {:induction false} NoTargetUnchanged<V>(s: Stmt<V>, newBody: seq<Stmt<V>>)
    requires NoTarget(s)
    ensures Transform(s, newBody) == s
    decreases s
  {
    match s
    case FunctionDef(_, _) =>
    case AsyncFunctionDef(_, body) => NoTargetBlockUnchanged(body, newBody);
    case ClassDef(_, body) => NoTargetBlockUnchanged(body, newBody);
    case Compound(blocks) =>
      forall k | 0 <= k < |blocks|
        ensures TransformBlock(blocks[k].stmts, newBody) == blocks[k].stmts
      {
        NoTargetBlockUnchanged(blocks[k].stmts, newBody);
      }
      assert TransformBlocks(blocks, newBody) == blocks;
    case Return(_) =>
    case Simple(_) =>
  }

  lemma {:induction false} NoTargetBlockUnchanged<V>(b: seq<Stmt<V>>, newBody: seq<Stmt<V>>)
    requires NoTargetBlock(b)
    ensures TransformBlock(b, newBody) == b
    decreases b
  {
    forall i | 0 <= i < |b|
      ensures Transform(b[i], newBody) == b[i]
    {
      NoTargetUnchanged(b[i], newBody);
    }
  }

  /**
   * The visitor does not enter function bodies: a `get_parameters` nested in
   * another function stays as it is, while one in a class, in an `async def`
   * or under an `if` is replaced.
   */
  lemma WhereTheVisitorReaches(obj: int)
    ensures var stub := [Simple("pass")];
      && Transform(FunctionDef("setup", [FunctionDef(Target, stub)]), NewBody(obj))
           == FunctionDef("setup", [FunctionDef(Target, stub)])
      && Transform(ClassDef("SignalProcessor", [FunctionDef(Target, stub)]), NewBody(obj))
           == ClassDef("SignalProcessor", [FunctionDef(Target, NewBody(obj))])
      && Transform(AsyncFunctionDef("run", [FunctionDef(Target, stub)]), NewBody(obj))
           == AsyncFunctionDef("run", [FunctionDef(Target, NewBody(obj))])
      && Transform(Compound([Block([FunctionDef(Target, stub)]), Block([])]), NewBody(obj))
           == Compound([Block([FunctionDef(Target, NewBody(obj))]), Block([])])
  {
    var stub := [Simple("pass")];
    assert TransformBlock([FunctionDef(Target, stub)], NewBody(obj)) == [FunctionDef(Target, NewBody(obj))];
    assert TransformBlock([], NewBody(obj)) == [];
    assert TransformBlocks([Block([FunctionDef(Target, stub)]), Block([])], NewBody(obj))
      == [Block([FunctionDef(Target, NewBody(obj))]), Block([])];
  }

  /** The error `code_replace` raises: the processor source does not parse. */
  datatype CodeError = SyntaxError

  /**
   * `code_replace(processor_code, obj)`: parse the module, visit its body with
   * the new body `return obj`, and print and format the result. A source that
   * does not parse fails before any rewriting; a module without a reachable
   * `get_parameters` is printed back unchanged.
   */
  function CodeReplace<V>(processorCode: string, obj: V,
                          parse: string -> Option<seq<Stmt<V>>>,
                          unparse: seq<Stmt<V>> -> string): (r: Result<string, CodeError>)
    ensures r.Failure? <==> parse(processorCode).None?
    ensures r.Success? ==> r.value == unparse(TransformBlock(parse(processorCode).value, NewBody(obj)))
  {
    match parse(processorCode)
    case None => Failure(SyntaxError)
    case Some(tree) =>
      var transformed := TransformBlock(tree, NewBody(obj));
      Success(unparse(transformed))
  }

  /** A module without a reachable `get_parameters` is printed back as it was parsed. */
  lemma CodeReplaceNoTarget<V>(processorCode: string, obj: V,
                               parse: string -> Option<seq<Stmt<V>>>,
                               unparse: seq<Stmt<V>> -> string)
    requires parse(processorCode).Some? && NoTargetBlock(parse(processorCode).value)
    ensures CodeReplace(processorCode, obj, parse, unparse) == Success(unparse(parse(processorCode).value))
  {
    NoTargetBlockUnchanged(parse(processorCode).value, NewBody(obj));
  }

  /**
   * When printing and parsing round-trip, running `code_replace` on its own
   * output with another value is running it once with that value: the second
   * run replaces exactly the bodies the first one wrote.
   */
  lemma CodeReplaceLastWins<V>(processorCode: string, obj1: V, obj2: V,
                               parse: string -> Option<seq<Stmt<V>>>,
                               unparse: seq<Stmt<V>> -> string)
    requires forall t :: parse(unparse(t)) == Some(t)
    requires CodeReplace(processorCode, obj1, parse, unparse).Success?
    ensures CodeReplace(CodeReplace(processorCode, obj1, parse, unparse).value, obj2, parse, unparse)
      == CodeReplace(processorCode, obj2, parse, unparse)
  {
    var tree := parse(processorCode).value;
    var once := TransformBlock(tree, NewBody(obj1));
    assert parse(unparse(once)) == Some(once);
    TransformBlockTwice(tree, NewBody(obj1), NewBody(obj2));
  }
}
