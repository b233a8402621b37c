/**
 * The part of Rust's expression syntax tree that the implicit-await rewriter
 * looks at.  Every expression form the rewriter does not single out is an
 * `Other` node that keeps its sub-expressions in order (binary operators, `?`,
 * tuples, paths and literals, the last two with no children).
 */
module Syntax {
  import opened Wrappers

  type Ident = string

  datatype Expr =
    | Call(func: Expr, args: seq<Expr>)
    | MethodCall(receiver: Expr, name: Ident, args: seq<Expr>)
    | Macro(mac: ExprMacro)
    | Block(stmts: seq<Stmt>)
    | Await(base: Expr)
    | Other(kind: string, children: seq<Expr>)

  /** A macro invocation `a::b::name!(body)`; the body is read as a list of expressions. */
  datatype ExprMacro = ExprMacro(path: seq<Ident>, body: seq<Expr>)

  datatype Stmt =
    | Local(name: Ident, init: Option<Expr>)   // `let name = init;`
    | Expression(expr: Expr)                   // an expression without a trailing `;`
    | Semi(expr: Expr)                         // an expression followed by `;`
    | Item(item: Item)

  /** Items inside a body: a `use` declaration, or any other item, kept opaque. */
  datatype Item =
    | ItemUse(path: seq<Ident>)
    | ItemOther(name: Ident)

  /** A free function `fn` item; attributes, visibility and signature are one opaque string. */
  datatype ItemFn = ItemFn(sig: string, block: seq<Stmt>)

  /** A method inside an `impl` block. */
  datatype ImplItemMethod = ImplItemMethod(sig: string, block: seq<Stmt>)
}
