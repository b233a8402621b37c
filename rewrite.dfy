/**
 * The implicit-await rewrite as functions of the tree and of the value of the
 * `defer` counter on entry.  The counter is restored by every fold (see
 * `Folder.ImplicitAwaitFold`), so the result of folding a node depends only on
 * the counter's value when the node is entered.
 */
module Rewrite {
  import opened Wrappers
  import opened Syntax

  /** The node kinds the rewriter awaits: plain calls and method calls. */
  predicate IsCallShaped(e: Expr) {
    e.Call? || e.MethodCall?
  }

  /** `{ { call }.as_future().await }`: the call in its own block, converted, then awaited. */
  function Wrap(call: Expr): Expr {
    Block([Expression(Await(MethodCall(Block([Expression(call)]), "as_future", [])))])
  }

  /** A macro opens a defer region iff its path ends in a segment named exactly `defer`. */
  function IsDefer(path: seq<Ident>): (r: bool)
    ensures r <==> |path| > 0 && path[|path| - 1] == "defer"
  {
    match Last(path)
    case None => false
    case Some(segment) => segment == "defer"
  }

  /** The inspection made after the children are folded. */
  function PostFold(defer: nat, subfolded: Expr): Expr {
    if defer == 0 && IsCallShaped(subfolded) then Wrap(subfolded) else subfolded
  }

  /** `fold_expr`: fold the children first, then inspect the folded node. */
  function FoldExpr(e: Expr, defer: nat): Expr
    decreases e, 1
  {
    PostFold(defer, WalkExpr(e, defer))
  }

  /** The default walk over one node: every child folded, the node's own kind kept. */
  function WalkExpr(e: Expr, defer: nat): Expr
    decreases e, 0
  {
    match e
    case Call(func, args) => Call(FoldExpr(func, defer), FoldExprs(args, defer))
    case MethodCall(recv, m, args) => MethodCall(FoldExpr(recv, defer), m, FoldExprs(args, defer))
    case Macro(mac) => Macro(FoldExprMacro(mac, defer))
    case Block(stmts) => Block(FoldStmts(stmts, defer))
    case Await(base) => Await(FoldExpr(base, defer))
    case Other(kind, children) => Other(kind, FoldExprs(children, defer))
  }

  /** `fold_expr_macro`: the body of a `defer!` is folded one level deeper. */
  function FoldExprMacro(mac: ExprMacro, defer: nat): ExprMacro
    decreases mac
  {
    var inner := if IsDefer(mac.path) then defer + 1 else defer;
    ExprMacro(mac.path, FoldExprs(mac.body, inner))
  }

  function FoldExprs(es: seq<Expr>, defer: nat): seq<Expr>
    decreases es
  {
    seq(|es|, i requires 0 <= i < |es| => FoldExpr(es[i], defer))
  }

  function FoldStmt(s: Stmt, defer: nat): Stmt
    decreases s
  {
    match s
    case Local(name, init) =>
      Local(name, if init.Some? then Some(FoldExpr(init.value, defer)) else None)
    case Expression(e) => Expression(FoldExpr(e, defer))
    case Semi(e) => Semi(FoldExpr(e, defer))
    case Item(_) => s
  }

  function FoldStmts(ss: seq<Stmt>, defer: nat): seq<Stmt>
    decreases ss
  {
    seq(|ss|, i requires 0 <= i < |ss| => FoldStmt(ss[i], defer))
  }

  /** `use implicit_await::as_future::NonFutureAsFuture;` */
  function UseNonFuture(): Stmt {
    Item(ItemUse(["implicit_await", "as_future", "NonFutureAsFuture"]))
  }

  /** `use implicit_await::as_future::FutureAsFuture;` */
  function UseFuture(): Stmt {
    Item(ItemUse(["implicit_await", "as_future", "FutureAsFuture"]))
  }

  /** The two statements that bring both conversions into scope, in the order they end up. */
  function Prelude(): seq<Stmt> {
    [UseNonFuture(), UseFuture()]
  }

  function FoldItemFn(f: ItemFn, defer: nat): ItemFn {
    ItemFn(f.sig, Prelude() + FoldStmts(f.block, defer))
  }

  function FoldImplItemMethod(m: ImplItemMethod, defer: nat): ImplItemMethod {
    ImplItemMethod(m.sig, Prelude() + FoldStmts(m.block, defer))
  }
}
