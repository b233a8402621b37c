/**
 * What the implicit-await rewrite does, stated against independent
 * definitions: `Unwrap` removes exactly the wrappers the rewrite inserts, and
 * `AllWrapped` says that no call outside a defer region is left bare.
 */
module RewriteProps {
  import opened Wrappers
  import opened Syntax
  import opened Rewrite

  /** `e` has exactly the shape `{ { c }.as_future().await }` for a call `c`. */
  predicate IsWrapper(e: Expr) {
    && e.Block? && |e.stmts| == 1 && e.stmts[0].Expression?
    && e.stmts[0].expr.Await?
    && e.stmts[0].expr.base.MethodCall?
    && e.stmts[0].expr.base.name == "as_future"
    && e.stmts[0].expr.base.args == []
    && e.stmts[0].expr.base.receiver.Block?
    && |e.stmts[0].expr.base.receiver.stmts| == 1
    && e.stmts[0].expr.base.receiver.stmts[0].Expression?
    && IsCallShaped(e.stmts[0].expr.base.receiver.stmts[0].expr)
  }

  /** The call a wrapper awaits. */
  function WrappedCall(e: Expr): Expr
    requires IsWrapper(e)
  {
    e.stmts[0].expr.base.receiver.stmts[0].expr
  }

  /** Same node kind and same non-child data (callee name, macro path, kind tag, arity). */
  predicate SameNode(a: Expr, b: Expr) {
    match (a, b)
    case (Call(_, xs), Call(_, ys)) => |xs| == |ys|
    case (MethodCall(_, m, xs), MethodCall(_, n, ys)) => m == n && |xs| == |ys|
    case (Macro(m), Macro(n)) => m.path == n.path && |m.body| == |n.body|
    case (Block(xs), Block(ys)) => |xs| == |ys|
    case (Await(_), Await(_)) => true
    case (Other(k, xs), Other(l, ys)) => k == l && |xs| == |ys|
    case _ => false
  }

  // ----- Unwrap: the inverse of the rewrite -----

  /** Remove every wrapper met at a position where the counter is zero. */
  function Unwrap(e: Expr, defer: nat): Expr
    decreases e, 1
  {
    if defer == 0 && IsWrapper(e) then
      UnwrapChildren(e.stmts[0].expr.base.receiver.stmts[0].expr, defer)
    else
      UnwrapChildren(e, defer)
  }

  function UnwrapChildren(e: Expr, defer: nat): Expr
    decreases e, 0
  {
    match e
    case Call(func, args) => Call(Unwrap(func, defer), UnwrapExprs(args, defer))
    case MethodCall(recv, m, args) => MethodCall(Unwrap(recv, defer), m, UnwrapExprs(args, defer))
    case Macro(mac) =>
      Macro(ExprMacro(mac.path, UnwrapExprs(mac.body, if IsDefer(mac.path) then defer + 1 else defer)))
    case Block(stmts) => Block(UnwrapStmts(stmts, defer))
    case Await(base) => Await(Unwrap(base, defer))
    case Other(kind, children) => Other(kind, UnwrapExprs(children, defer))
  }

  function UnwrapExprs(es: seq<Expr>, defer: nat): seq<Expr>
    decreases es
  {
    seq(|es|, i requires 0 <= i < |es| => Unwrap(es[i], defer))
  }

  function UnwrapStmt(s: Stmt, defer: nat): Stmt
    decreases s
  {
    match s
    case Local(name, init) =>
      Local(name, if init.Some? then Some(Unwrap(init.value, defer)) else None)
    case Expression(e) => Expression(Unwrap(e, defer))
    case Semi(e) => Semi(Unwrap(e, defer))
    case Item(_) => s
  }

  function UnwrapStmts(ss: seq<Stmt>, defer: nat): seq<Stmt>
    decreases ss
  {
    seq(|ss|, i requires 0 <= i < |ss| => UnwrapStmt(ss[i], defer))
  }

  // ----- AllWrapped: no call is left bare where the counter is zero -----

  /** Every call at a position where the counter is zero sits directly inside a wrapper. */
  predicate AllWrapped(e: Expr, defer: nat)
    decreases e, 1
  {
    if defer == 0 && IsWrapper(e) then
      ChildrenAllWrapped(e.stmts[0].expr.base.receiver.stmts[0].expr, defer)
    else
      !(defer == 0 && IsCallShaped(e)) && ChildrenAllWrapped(e, defer)
  }

  predicate ChildrenAllWrapped(e: Expr, defer: nat)
    decreases e, 0
  {
    match e
    case Call(func, args) => AllWrapped(func, defer) && ExprsAllWrapped(args, defer)
    case MethodCall(recv, _, args) => AllWrapped(recv, defer) && ExprsAllWrapped(args, defer)
    case Macro(mac) => ExprsAllWrapped(mac.body, if IsDefer(mac.path) then defer + 1 else defer)
    case Block(stmts) => StmtsAllWrapped(stmts, defer)
    case Await(base) => AllWrapped(base, defer)
    case Other(_, children) => ExprsAllWrapped(children, defer)
  }

  predicate ExprsAllWrapped(es: seq<Expr>, defer: nat)
    decreases es
  {
    forall i :: 0 <= i < |es| ==> AllWrapped(es[i], defer)
  }

  predicate StmtAllWrapped(s: Stmt, defer: nat)
    decreases s
  {
    match s
    case Local(_, init) => init.Some? ==> AllWrapped(init.value, defer)
    case Expression(e) => AllWrapped(e, defer)
    case Semi(e) => AllWrapped(e, defer)
    case Item(_) => true
  }

  predicate StmtsAllWrapped(ss: seq<Stmt>, defer: nat)
    decreases ss
  {
    forall i :: 0 <= i < |ss| ==> StmtAllWrapped(ss[i], defer)
  }

  // ----- One node -----

  /** A wrapper is built around a call and gives that call back. */
  lemma WrapShape(c: Expr)
    ensures IsWrapper(Wrap(c)) <==> IsCallShaped(c)
    ensures IsCallShaped(c) ==> WrappedCall(Wrap(c)) == c
  {
  }

  /** Folding at counter zero never leaves a bare call at the top: calls become wrappers. */
  lemma FoldedNeverBareCall(e: Expr)
    ensures !IsCallShaped(FoldExpr(e, 0))
  {
  }

  /**
   * With the counter at zero a call is replaced by exactly one wrapper around
   * the call with its children folded; any other node, and any node while the
   * counter is above zero, keeps its kind with only its children folded.
   */
  lemma FoldAtNode(e: Expr, defer: nat)
    ensures SameNode(WalkExpr(e, defer), e)
    ensures defer == 0 && IsCallShaped(e) ==>
      FoldExpr(e, defer) == Wrap(WalkExpr(e, defer)) && IsWrapper(FoldExpr(e, defer))
      && WrappedCall(FoldExpr(e, defer)) == WalkExpr(e, defer)
    ensures !(defer == 0 && IsCallShaped(e)) ==>
      FoldExpr(e, defer) == WalkExpr(e, defer) && SameNode(FoldExpr(e, defer), e)
  {
    match e
    case Macro(mac) =>
      var inner := if IsDefer(mac.path) then defer + 1 else defer;
      assert FoldExprMacro(mac, defer) == ExprMacro(mac.path, FoldExprs(mac.body, inner));
    case _ =>
  }

  /** At counter zero the rewrite produces a wrapper exactly where the input node is a call. */
  lemma WrapperIffCall(e: Expr)
    ensures IsWrapper(FoldExpr(e, 0)) <==> IsCallShaped(e)
  {
    FoldAtNode(e, 0);
    if e.Block? {
      assert FoldExpr(e, 0) == Block(FoldStmts(e.stmts, 0));
      if |e.stmts| == 1 {
        assert FoldExpr(e, 0).stmts[0] == FoldStmt(e.stmts[0], 0);
        if e.stmts[0].Expression? {
          var x := e.stmts[0].expr;
          FoldAtNode(x, 0);
          if x.Await? {
            FoldedNeverBareCall(x.base);
            assert FoldExpr(x, 0) == Await(FoldExpr(x.base, 0));
          }
        }
      }
    }
  }

  // ----- Inside a defer region nothing changes -----

  /** With the counter above zero the fold reproduces its input. */
  lemma {:induction false} DeferIsIdentity(e: Expr, defer: nat)
    requires defer > 0
    ensures FoldExpr(e, defer) == e
    decreases e
  {
    match e
    case Call(func, args) =>
      DeferIsIdentity(func, defer);
      DeferIsIdentityExprs(args, defer);
    case MethodCall(recv, _, args) =>
      DeferIsIdentity(recv, defer);
      DeferIsIdentityExprs(args, defer);
    case Macro(mac) =>
      FoldAtNode(e, defer);
      DeferIsIdentityExprs(mac.body, if IsDefer(mac.path) then defer + 1 else defer);
    case Block(stmts) =>
      forall i | 0 <= i < |stmts| ensures FoldStmt(stmts[i], defer) == stmts[i] {
        DeferIsIdentityStmt(stmts[i], defer);
      }
      assert FoldStmts(stmts, defer) == stmts;
    case Await(base) =>
      DeferIsIdentity(base, defer);
    case Other(_, children) =>
      DeferIsIdentityExprs(children, defer);
  }

  lemma {:induction false} DeferIsIdentityExprs(es: seq<Expr>, defer: nat)
    requires defer > 0
    ensures FoldExprs(es, defer) == es
    decreases es
  {
    forall i | 0 <= i < |es| ensures FoldExpr(es[i], defer) == es[i] {
      DeferIsIdentity(es[i], defer);
    }
  }

  lemma {:induction false} DeferIsIdentityStmt(s: Stmt, defer: nat)
    requires defer > 0
    ensures FoldStmt(s, defer) == s
    decreases s
  {
    match s
    case Local(_, init) =>
      if init.Some? { DeferIsIdentity(init.value, defer); }
    case Expression(e) => DeferIsIdentity(e, defer);
    case Semi(e) => DeferIsIdentity(e, defer);
    case Item(_) =>
  }

  /** The body of a `defer!` invocation comes out exactly as it went in, whatever the counter. */
  lemma DeferBodyReproduced(mac: ExprMacro, defer: nat)
    requires IsDefer(mac.path)
    ensures FoldExpr(Macro(mac), defer) == Macro(mac)
  {
    DeferIsIdentityExprs(mac.body, defer + 1);
    FoldAtNode(Macro(mac), defer);
  }

  // ----- Round trip: the rewrite only inserts wrappers -----

  /** Removing the wrappers from the rewritten tree gives back the original tree. */
  lemma {:induction false} UnwrapFold(e: Expr, defer: nat)
    ensures Unwrap(FoldExpr(e, defer), defer) == e
    decreases e
  {
    var w := WalkExpr(e, defer);
    match e {
    case Call(func, args) =>
      UnwrapFold(func, defer);
      UnwrapFoldExprs(args, defer);
    case MethodCall(recv, _, args) =>
      UnwrapFold(recv, defer);
      UnwrapFoldExprs(args, defer);
    case Macro(mac) =>
      UnwrapFoldExprs(mac.body, if IsDefer(mac.path) then defer + 1 else defer);
    case Block(stmts) =>
      UnwrapFoldStmts(stmts, defer);
    case Await(base) =>
      UnwrapFold(base, defer);
    case Other(_, children) =>
      UnwrapFoldExprs(children, defer);
    }
    FoldAtNode(e, defer);
    assert UnwrapChildren(w, defer) == e;
    if defer == 0 { WrapperIffCall(e); }
  }

  lemma {:induction false} UnwrapFoldExprs(es: seq<Expr>, defer: nat)
    ensures UnwrapExprs(FoldExprs(es, defer), defer) == es
    decreases es
  {
    forall i | 0 <= i < |es| ensures Unwrap(FoldExpr(es[i], defer), defer) == es[i] {
      UnwrapFold(es[i], defer);
    }
  }

  lemma {:induction false} UnwrapFoldStmt(s: Stmt, defer: nat)
    ensures UnwrapStmt(FoldStmt(s, defer), defer) == s
    decreases s
  {
    match s
    case Local(_, init) =>
      if init.Some? { UnwrapFold(init.value, defer); }
    case Expression(e) => UnwrapFold(e, defer);
    case Semi(e) => UnwrapFold(e, defer);
    case Item(_) =>
  }

  lemma {:induction false} UnwrapFoldStmts(ss: seq<Stmt>, defer: nat)
    ensures UnwrapStmts(FoldStmts(ss, defer), defer) == ss
    decreases ss
  {
    forall i | 0 <= i < |ss| ensures UnwrapStmt(FoldStmt(ss[i], defer), defer) == ss[i] {
      UnwrapFoldStmt(ss[i], defer);
    }
  }

  /** Two trees that rewrite to the same tree were the same tree. */
  lemma FoldInjective(a: Expr, b: Expr, defer: nat)
    requires FoldExpr(a, defer) == FoldExpr(b, defer)
    ensures a == b
  {
    UnwrapFold(a, defer);
    UnwrapFold(b, defer);
  }

  // ----- Coverage: every call outside a defer region is awaited -----

  /** After the rewrite no call is left bare where the counter is zero. */
  lemma {:induction false} FoldAllWrapped(e: Expr, defer: nat)
    ensures AllWrapped(FoldExpr(e, defer), defer)
    decreases e
  {
    match e {
    case Call(func, args) =>
      FoldAllWrapped(func, defer);
      FoldAllWrappedExprs(args, defer);
    case MethodCall(recv, _, args) =>
      FoldAllWrapped(recv, defer);
      FoldAllWrappedExprs(args, defer);
    case Macro(mac) =>
      FoldAllWrappedExprs(mac.body, if IsDefer(mac.path) then defer + 1 else defer);
    case Block(stmts) =>
      FoldAllWrappedStmts(stmts, defer);
    case Await(base) =>
      FoldAllWrapped(base, defer);
    case Other(_, children) =>
      FoldAllWrappedExprs(children, defer);
    }
    FoldAtNode(e, defer);
    assert ChildrenAllWrapped(WalkExpr(e, defer), defer);
    if defer == 0 { WrapperIffCall(e); }
  }

  lemma {:induction false} FoldAllWrappedExprs(es: seq<Expr>, defer: nat)
    ensures ExprsAllWrapped(FoldExprs(es, defer), defer)
    decreases es
  {
    forall i | 0 <= i < |es| ensures AllWrapped(FoldExpr(es[i], defer), defer) {
      FoldAllWrapped(es[i], defer);
    }
  }

  lemma {:induction false} FoldAllWrappedStmt(s: Stmt, defer: nat)
    ensures StmtAllWrapped(FoldStmt(s, defer), defer)
    decreases s
  {
    match s
    case Local(_, init) =>
      if init.Some? { FoldAllWrapped(init.value, defer); }
    case Expression(e) => FoldAllWrapped(e, defer);
    case Semi(e) => FoldAllWrapped(e, defer);
    case Item(_) =>
  }

  lemma {:induction false} FoldAllWrappedStmts(ss: seq<Stmt>, defer: nat)
    ensures StmtsAllWrapped(FoldStmts(ss, defer), defer)
    decreases ss
  {
    forall i | 0 <= i < |ss| ensures StmtAllWrapped(FoldStmt(ss[i], defer), defer) {
      FoldAllWrappedStmt(ss[i], defer);
    }
  }

  /**
   * A call among the arguments of a call or method call is awaited, and the
   * outer call is awaited too, around its already-folded callee and arguments.
   */
  lemma NestedCallsBothWrapped(e: Expr, i: nat)
    requires IsCallShaped(e) && i < |e.args| && IsCallShaped(e.args[i])
    ensures IsWrapper(FoldExpr(e, 0))
    ensures WrappedCall(FoldExpr(e, 0)) == WalkExpr(e, 0)
    ensures WalkExpr(e, 0).args == FoldExprs(e.args, 0)
    ensures IsWrapper(WalkExpr(e, 0).args[i])
    ensures WrappedCall(WalkExpr(e, 0).args[i]) == WalkExpr(e.args[i], 0)
  {
    FoldAtNode(e, 0);
    FoldAtNode(e.args[i], 0);
  }

  // ----- Items -----

  /**
   * A rewritten function keeps its signature, starts with the two `use`
   * statements and continues with its own statements in order, rewritten.
   */
  lemma FoldItemFnShape(f: ItemFn, defer: nat)
    ensures FoldItemFn(f, defer).sig == f.sig
    ensures |FoldItemFn(f, defer).block| == |f.block| + 2
    ensures FoldItemFn(f, defer).block[..2] == Prelude()
    ensures UnwrapStmts(FoldItemFn(f, defer).block[2..], defer) == f.block
    ensures StmtsAllWrapped(FoldItemFn(f, defer).block[2..], defer)
  {
    var r := FoldItemFn(f, defer);
    assert r.block[2..] == FoldStmts(f.block, defer);
    UnwrapFoldStmts(f.block, defer);
    FoldAllWrappedStmts(f.block, defer);
  }

  lemma FoldImplItemMethodShape(m: ImplItemMethod, defer: nat)
    ensures FoldImplItemMethod(m, defer).sig == m.sig
    ensures |FoldImplItemMethod(m, defer).block| == |m.block| + 2
    ensures FoldImplItemMethod(m, defer).block[..2] == Prelude()
    ensures UnwrapStmts(FoldImplItemMethod(m, defer).block[2..], defer) == m.block
    ensures StmtsAllWrapped(FoldImplItemMethod(m, defer).block[2..], defer)
  {
    var r := FoldImplItemMethod(m, defer);
    assert r.block[2..] == FoldStmts(m.block, defer);
    UnwrapFoldStmts(m.block, defer);
    FoldAllWrappedStmts(m.block, defer);
  }
}
