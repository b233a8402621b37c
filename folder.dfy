/**
 * The rewriter as the source runs it: a folder object whose only state is the
 * `defer` counter, which `FoldExprMacro` raises and lowers around the body of
 * a `defer!` invocation.  Each method is proved against the pure definitions
 * in `Rewrite` and leaves the counter as it found it.
 */
module Folder {
  import opened Wrappers
  import opened Syntax
  import Rewrite
  import RewriteProps

  class ImplicitAwaitFold {
    /** How many `defer!` invocations enclose the node being folded. */
    var defer: nat

    /** `ImplicitAwaitFold { defer: 0 }` */
    constructor ()
      ensures defer == 0
    {
      defer := 0;
    }

    /** `fold_expr`: fold the children, then wrap the result if it is a call and the counter is zero. */
    method FoldExpr(e: Expr) returns (r: Expr)
      modifies this
      ensures defer == old(defer)
      ensures r == Rewrite.FoldExpr(e, defer)
      decreases e, 1
    {
      var subfolded := WalkExpr(e);
      r := Rewrite.PostFold(defer, subfolded);
    }

    /** The default walk over one expression node, which hands macro invocations to `FoldExprMacro`. */
    method WalkExpr(e: Expr) returns (r: Expr)
      modifies this
      ensures defer == old(defer)
      ensures r == Rewrite.WalkExpr(e, defer)
      decreases e, 0
    {
      match e
      case Call(func, args) =>
        var f := FoldExpr(func);
        var xs := FoldExprs(args);
        r := Call(f, xs);
      case MethodCall(recv, m, args) =>
        var x := FoldExpr(recv);
        var xs := FoldExprs(args);
        r := MethodCall(x, m, xs);
      case Macro(mac) =>
        var folded := FoldExprMacro(mac);
        r := Macro(folded);
      case Block(stmts) =>
        var ss := FoldStmts(stmts);
        r := Block(ss);
      case Await(base) =>
        var b := FoldExpr(base);
        r := Await(b);
      case Other(kind, children) =>
        var xs := FoldExprs(children);
        r := Other(kind, xs);
    }

    /** `fold_expr_macro`: raise the counter around the body of a `defer!`, and lower it after. */
    method FoldExprMacro(mac: ExprMacro) returns (r: ExprMacro)
      modifies this
      ensures defer == old(defer)
      ensures r == Rewrite.FoldExprMacro(mac, defer)
      decreases mac
    {
      var isDefer := Rewrite.IsDefer(mac.path);
      if isDefer {
        defer := defer + 1;
      }
      var body := FoldExprs(mac.body);
      if isDefer {
        // the fold of the body gave the counter back, so it is at least one here
        defer := defer - 1;
      }
      r := ExprMacro(mac.path, body);
    }

    method FoldExprs(es: seq<Expr>) returns (rs: seq<Expr>)
      modifies this
      ensures defer == old(defer)
      ensures rs == Rewrite.FoldExprs(es, defer)
      decreases es
    {
      rs := [];
      var i := 0;
      while i < |es|
        invariant 0 <= i <= |es|
        invariant defer == old(defer)
        invariant rs == Rewrite.FoldExprs(es[..i], defer)
      {
        var x := FoldExpr(es[i]);
        rs := rs + [x];
        i := i + 1;
      }
      assert es[..i] == es;
    }

    method FoldStmt(s: Stmt) returns (r: Stmt)
      modifies this
      ensures defer == old(defer)
      ensures r == Rewrite.FoldStmt(s, defer)
      decreases s
    {
      match s
      case Local(name, init) =>
        if init.Some? {
          var x := FoldExpr(init.value);
          r := Local(name, Some(x));
        } else {
          r := s;
        }
      case Expression(e) =>
        var x := FoldExpr(e);
        r := Expression(x);
      case Semi(e) =>
        var x := FoldExpr(e);
        r := Semi(x);
      case Item(_) =>
        r := s;
    }

    method FoldStmts(ss: seq<Stmt>) returns (rs: seq<Stmt>)
      modifies this
      ensures defer == old(defer)
      ensures rs == Rewrite.FoldStmts(ss, defer)
      decreases ss
    {
      rs := [];
      var i := 0;
      while i < |ss|
        invariant 0 <= i <= |ss|
        invariant defer == old(defer)
        invariant rs == Rewrite.FoldStmts(ss[..i], defer)
      {
        var x := FoldStmt(ss[i]);
        rs := rs + [x];
        i := i + 1;
      }
      assert ss[..i] == ss;
    }

    /** `fold_item_fn`: fold the body, then insert the two `use` statements at the front. */
    method FoldItemFn(func: ItemFn) returns (r: ItemFn)
      modifies this
      ensures defer == old(defer)
      ensures r == Rewrite.FoldItemFn(func, defer)
    {
      var stmts := FoldStmts(func.block);
      stmts := [Rewrite.UseFuture()] + stmts;
      stmts := [Rewrite.UseNonFuture()] + stmts;
      r := ItemFn(func.sig, stmts);
    }

    /** `fold_impl_item_method`: the same for a method of an `impl` block. */
    method FoldImplItemMethod(implMethod: ImplItemMethod) returns (r: ImplItemMethod)
      modifies this
      ensures defer == old(defer)
      ensures r == Rewrite.FoldImplItemMethod(implMethod, defer)
    {
      var stmts := FoldStmts(implMethod.block);
      stmts := [Rewrite.UseFuture()] + stmts;
      stmts := [Rewrite.UseNonFuture()] + stmts;
      r := ImplItemMethod(implMethod.sig, stmts);
    }
  }

  /**
   * The `#[implicit_await]` attribute: fold the function with a fresh folder.
   * The signature is kept, the body starts with the two `use` statements, no
   * call outside a `defer!` is left unawaited, and removing the inserted
   * awaits gives back the original body.
   */
  method ImplicitAwait(func: ItemFn) returns (r: ItemFn)
    ensures r == Rewrite.FoldItemFn(func, 0)
    ensures r.sig == func.sig && r.block[..2] == Rewrite.Prelude()
    ensures RewriteProps.StmtsAllWrapped(r.block[2..], 0)
    ensures RewriteProps.UnwrapStmts(r.block[2..], 0) == func.block
  {
    var folder := new ImplicitAwaitFold();
    r := folder.FoldItemFn(func);
    RewriteProps.FoldItemFnShape(func, 0);
  }
}
