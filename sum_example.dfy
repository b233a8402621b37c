/**
 * The `sum` function of the crate's example, as a tree, and what the
 * rewrite makes of it: the three calls before the `defer!` and the `join`
 * and `Ok` calls are awaited, the three calls inside the `defer!` are left
 * as they are, and the explicit `six.await` is untouched.
 */
module SumExample {
  import opened Wrappers
  import opened Syntax
  import Rewrite
  import RewriteProps

  function PathExpr(name: string): Expr {
    Other("path " + name, [])
  }

  function Literal(n: string): Expr {
    Other("literal " + n, [])
  }

  function CallNamed(func: string, args: seq<Expr>): Expr {
    Call(PathExpr(func), args)
  }

  /** The `?` operator. */
  function Try(e: Expr): Expr {
    Other("?", [e])
  }

  function Add(a: Expr, b: Expr): Expr {
    Other("+", [a, b])
  }

  function DeferredTuple(): Expr {
    Other("tuple", [CallNamed("num_fut", [Literal("4")]), CallNamed("num_async", [Literal("5")]),
                    CallNamed("num_async", [Literal("6")])])
  }

  function Total(): Expr {
    Add(Add(Add(Add(Add(PathExpr("one"), PathExpr("two")), PathExpr("three")),
        Try(PathExpr("four"))), Try(PathExpr("five"))), PathExpr("six"))
  }

  function SumFn(): ItemFn {
    ItemFn("async fn sum() -> IntResult", [
      Local("one", Some(Try(CallNamed("num_sync", [Literal("1")])))),
      Local("two", Some(Try(CallNamed("num_fut", [Literal("2")])))),
      Local("three", Some(Try(CallNamed("num_async", [Literal("3")])))),
      Local("(four, five, six)", Some(Macro(ExprMacro(["defer"], [DeferredTuple()])))),
      Local("(four, five)", Some(CallNamed("join", [PathExpr("four"), PathExpr("five")]))),
      Local("six", Some(Try(Await(PathExpr("six"))))),
      Expression(CallNamed("Ok", [Total()]))
    ])
  }

  /** The statements of `sum` after the rewrite. */
  function RewrittenSumStmts(): seq<Stmt> {
    [ Local("one", Some(Try(Rewrite.Wrap(CallNamed("num_sync", [Literal("1")]))))),
      Local("two", Some(Try(Rewrite.Wrap(CallNamed("num_fut", [Literal("2")]))))),
      Local("three", Some(Try(Rewrite.Wrap(CallNamed("num_async", [Literal("3")]))))),
      Local("(four, five, six)", Some(Macro(ExprMacro(["defer"], [DeferredTuple()])))),
      Local("(four, five)", Some(Rewrite.Wrap(CallNamed("join", [PathExpr("four"), PathExpr("five")])))),
      Local("six", Some(Try(Await(PathExpr("six"))))),
      Expression(Rewrite.Wrap(CallNamed("Ok", [Total()]))) ]
  }

  lemma SumRewrite()
    ensures Rewrite.FoldItemFn(SumFn(), 0) ==
      ItemFn("async fn sum() -> IntResult", Rewrite.Prelude() + RewrittenSumStmts())
  {
    var ss, want := SumFn().block, RewrittenSumStmts();
    TryCallStmt("one", "num_sync", "1");
    TryCallStmt("two", "num_fut", "2");
    TryCallStmt("three", "num_async", "3");
    DeferStmt();
    JoinStmt();
    AwaitStmt();
    OkStmt();
    assert Rewrite.FoldStmts(ss, 0) == want;
  }

  lemma TryCallStmt(name: string, func: string, n: string)
    ensures Rewrite.FoldStmt(Local(name, Some(Try(CallNamed(func, [Literal(n)])))), 0)
         == Local(name, Some(Try(Rewrite.Wrap(CallNamed(func, [Literal(n)])))))
  {
    CallOfLeavesWrapped(func, [Literal(n)]);
    FoldTry(CallNamed(func, [Literal(n)]));
  }

  lemma DeferStmt()
    ensures Rewrite.FoldStmt(Local("(four, five, six)", Some(Macro(ExprMacro(["defer"], [DeferredTuple()])))), 0)
         == Local("(four, five, six)", Some(Macro(ExprMacro(["defer"], [DeferredTuple()]))))
  {
    RewriteProps.DeferBodyReproduced(ExprMacro(["defer"], [DeferredTuple()]), 0);
  }

  lemma JoinStmt()
    ensures Rewrite.FoldStmt(Local("(four, five)", Some(CallNamed("join", [PathExpr("four"), PathExpr("five")]))), 0)
         == Local("(four, five)", Some(Rewrite.Wrap(CallNamed("join", [PathExpr("four"), PathExpr("five")]))))
  {
    CallOfLeavesWrapped("join", [PathExpr("four"), PathExpr("five")]);
  }

  lemma AwaitStmt()
    ensures Rewrite.FoldStmt(Local("six", Some(Try(Await(PathExpr("six"))))), 0)
         == Local("six", Some(Try(Await(PathExpr("six")))))
  {
    LeafFolds(PathExpr("six"), 0);
    assert Rewrite.FoldExpr(Await(PathExpr("six")), 0) == Await(PathExpr("six"));
    FoldTry(Await(PathExpr("six")));
  }

  lemma OkStmt()
    ensures Rewrite.FoldStmt(Expression(CallNamed("Ok", [Total()])), 0)
         == Expression(Rewrite.Wrap(CallNamed("Ok", [Total()])))
  {
    FoldTotal();
    LeafFolds(PathExpr("Ok"), 0);
    assert Rewrite.FoldExprs([Total()], 0) == [Total()];
  }

  lemma LeafFolds(e: Expr, defer: nat)
    requires e.Other? && e.children == []
    ensures Rewrite.FoldExpr(e, defer) == e
  {
    assert Rewrite.FoldExprs([], defer) == [];
  }

  lemma CallOfLeavesWrapped(func: string, args: seq<Expr>)
    requires forall i :: 0 <= i < |args| ==> args[i].Other? && args[i].children == []
    ensures Rewrite.FoldExpr(CallNamed(func, args), 0) == Rewrite.Wrap(CallNamed(func, args))
  {
    LeafFolds(PathExpr(func), 0);
    forall i | 0 <= i < |args| ensures Rewrite.FoldExpr(args[i], 0) == args[i] {
      LeafFolds(args[i], 0);
    }
    assert Rewrite.FoldExprs(args, 0) == args;
  }

  lemma FoldTry(e: Expr)
    ensures Rewrite.FoldExpr(Try(e), 0) == Try(Rewrite.FoldExpr(e, 0))
  {
    assert Rewrite.FoldExprs([e], 0) == [Rewrite.FoldExpr(e, 0)];
  }

  /** The sum itself holds no call, so the rewrite leaves it alone. */
  lemma {:induction false} FoldTotal()
    ensures Rewrite.FoldExpr(Total(), 0) == Total()
  {
    var names := ["one", "two", "three", "four", "five", "six"];
    forall i | 0 <= i < |names| ensures Rewrite.FoldExpr(PathExpr(names[i]), 0) == PathExpr(names[i]) {
      LeafFolds(PathExpr(names[i]), 0);
    }
    var a := Add(PathExpr("one"), PathExpr("two"));
    assert Rewrite.FoldExpr(PathExpr("one"), 0) == PathExpr("one");
    assert Rewrite.FoldExpr(PathExpr("two"), 0) == PathExpr("two");
    assert Rewrite.FoldExprs([PathExpr("one"), PathExpr("two")], 0) == [PathExpr("one"), PathExpr("two")];
    assert Rewrite.FoldExpr(a, 0) == a;
    var b := Add(a, PathExpr("three"));
    assert Rewrite.FoldExpr(PathExpr("three"), 0) == PathExpr("three");
    assert Rewrite.FoldExprs([a, PathExpr("three")], 0) == [a, PathExpr("three")];
    var four := Try(PathExpr("four"));
    FoldTry(PathExpr("four"));
    assert Rewrite.FoldExpr(PathExpr("four"), 0) == PathExpr("four");
    var c := Add(b, four);
    assert Rewrite.FoldExprs([b, four], 0) == [b, four];
    var five := Try(PathExpr("five"));
    FoldTry(PathExpr("five"));
    assert Rewrite.FoldExpr(PathExpr("five"), 0) == PathExpr("five");
    var d := Add(c, five);
    assert Rewrite.FoldExprs([c, five], 0) == [c, five];
    assert Rewrite.FoldExpr(PathExpr("six"), 0) == PathExpr("six");
    assert Rewrite.FoldExprs([d, PathExpr("six")], 0) == [d, PathExpr("six")];
  }
}
