# implicit-await, modelled in Dafny

`implicit-await` is a Rust crate. Its `#[implicit_await]` attribute rewrites an `async fn` so that every
function or method call is awaited without writing `.await`. The rewrite wraps each call `c` as
`{ { c }.as_future().await }`. Two traits then pick the conversion:

- `FutureAsFuture` sends a future to itself.
- `NonFutureAsFuture` wraps any other value in a `Ready` future that hands the value back on its first poll.

Calls inside a `defer! { … }` invocation are left alone, so that futures can be run in parallel.
The `as_future!` macro generates `NonFutureAsFuture` impls for a comma-separated list of types.
`as_future_internal!` does the same with the `crate` prefix, and the crate uses it on its own built-in
list (`String`, `&str`, `()`, the integer types, `BufReader<T>`, `Option<T>`).

The project models both procedural macros and the `as_future` shim:

- `syntax.dfy` gives an abstract syntax tree of expressions, statements and function items.
- `rewrite.dfy` gives the rewrite as pure functions of the tree and the `defer` depth.
- `rewrite_props.dfy` proves what the rewrite does:
  - which nodes it wraps;
  - that nothing under `defer!` changes;
  - that removing the inserted awaits gives the input back;
  - that no call outside `defer!` is left unawaited;
  - the exact statement prefix of a rewritten function.
- `folder.dfy` is the folder object of the source: a class whose only field is the `defer` counter.
  Its methods are proved equal to the pure rewrite and leave the counter as they found it.
- `tokens.dfy` gives token trees, a small type grammar, a printer and a parser for it, and the print/parse
  round trip.
- `type_list.dfy` covers `as_future_impl`:
  - `is_delimiter`;
  - the token-cutting loop as written;
  - a type-list reader that keeps angle-bracketed arguments together;
  - `get_generic_args`;
  - the impl-emission loop.
- `as_future.dfy` covers the shim:
  - the identity conversion;
  - the one-shot `Ready` future as a class with an `Option` slot;
  - the `Result` impl;
  - the built-in registration.
- `sum_example.dfy` is the example `sum` function of the crate, and exactly what the rewrite makes of it.

## Model

| member | source | states |
|---|---|---|
| Rewrite.FoldExpr | implicit-await-macro/src/lib.rs:21-32 | `fold_expr`: walk the children with the counter as it is, then wrap the walked node if it is a call or method call and the counter is 0 |
| Rewrite.WalkExpr | implicit-await-macro/src/lib.rs:22 | `syn::fold::fold_expr`: fold every child expression, statement and macro of one node, keeping the node itself |
| Rewrite.FoldExprMacro | implicit-await-macro/src/lib.rs:48-60 | `fold_expr_macro`: fold the macro's body at one level deeper when its path ends in `defer`, otherwise at the same level; the path is kept |
| Rewrite.FoldItemFn | implicit-await-macro/src/lib.rs:41-46 | `fold_item_fn`: the signature kept, the body the two `use` statements followed by the folded statements |
| Rewrite.FoldImplItemMethod | implicit-await-macro/src/lib.rs:34-39 | `fold_impl_item_method`: the same for a method of an impl block |
| Rewrite.IsDefer | implicit-await-macro/src/lib.rs:49-51 | a macro is a defer region iff its path is non-empty and its last segment is exactly `defer`; an empty path is not one |
| RewriteProps.FoldAtNode | implicit-await-macro/src/lib.rs:21-31 | the children are folded before the node is inspected. At depth 0, a call or method call becomes a wrapper whose inner call is the folded call. Any other node, and every node at depth > 0, keeps its own kind with only its children folded |
| RewriteProps.WrapShape | implicit-await-macro/src/lib.rs:25-28 | the wrapper built around a call or method call is recognised as a wrapper, and its inner call is that call. Anything else wrapped is not recognised as one |
| RewriteProps.WrapperIffCall | implicit-await-macro/src/lib.rs:23-30 | at depth 0, the folded node is a wrapper exactly when the input node is a call or method call (both directions) |
| RewriteProps.FoldedNeverBareCall | implicit-await-macro/src/lib.rs:23-30 | at depth 0 the fold never returns a bare call or method call |
| RewriteProps.NestedCallsBothWrapped | implicit-await-macro/src/lib.rs:22-31 | for any call or method call and any call among its arguments, at depth 0: the inner call is wrapped, and the outer call is wrapped too, around its walked form, whose arguments are the folded arguments |
| RewriteProps.DeferIsIdentity | implicit-await-macro/src/lib.rs:23-30 | with the counter above 0, folding any expression returns it unchanged: no call anywhere in it is wrapped |
| RewriteProps.DeferIsIdentityExprs | implicit-await-macro/src/lib.rs:23-30 | the same for a sequence of expressions |
| RewriteProps.DeferIsIdentityStmt | implicit-await-macro/src/lib.rs:23-30 | the same for a statement |
| RewriteProps.DeferBodyReproduced | implicit-await-macro/src/lib.rs:48-60 | folding a `defer!` invocation reproduces it, its body included, at any depth |
| RewriteProps.UnwrapFold | implicit-await-macro/src/lib.rs:21-32 | removing every wrapper the fold inserted gives the original expression back |
| RewriteProps.UnwrapFoldExprs | implicit-await-macro/src/lib.rs:21-32 | the same round trip for a sequence of expressions |
| RewriteProps.UnwrapFoldStmt | implicit-await-macro/src/lib.rs:21-32 | the same round trip for a statement |
| RewriteProps.UnwrapFoldStmts | implicit-await-macro/src/lib.rs:21-32 | the same round trip for a statement list |
| RewriteProps.FoldInjective | implicit-await-macro/src/lib.rs:21-32 | two expressions with the same fold are equal, so the rewrite loses no information |
| RewriteProps.FoldAllWrapped | implicit-await-macro/src/lib.rs:21-32 | after the fold, every call outside a `defer!` body sits directly inside a wrapper |
| RewriteProps.FoldAllWrappedExprs | implicit-await-macro/src/lib.rs:21-32 | the same for sequences of expressions |
| RewriteProps.FoldAllWrappedStmt | implicit-await-macro/src/lib.rs:21-32 | the same for a statement |
| RewriteProps.FoldAllWrappedStmts | implicit-await-macro/src/lib.rs:21-32 | the same for a statement list |
| RewriteProps.FoldItemFnShape | implicit-await-macro/src/lib.rs:41-46 | a folded function keeps its signature. Its body is `use NonFutureAsFuture; use FutureAsFuture;` followed by the folded statements, two longer than the original. Unwrapping that tail gives the original statements in order, and every call in it is wrapped |
| RewriteProps.FoldImplItemMethodShape | implicit-await-macro/src/lib.rs:34-39 | the same for an impl method |
| Folder.ImplicitAwaitFold.constructor | implicit-await-macro/src/lib.rs:11 | a new folder starts with the counter at 0 |
| Folder.ImplicitAwaitFold.FoldExpr | implicit-await-macro/src/lib.rs:21-32 | the method's result is the pure fold at the current depth, and the counter is unchanged |
| Folder.ImplicitAwaitFold.WalkExpr | implicit-await-macro/src/lib.rs:22 | the default walk over one node's children equals the pure walk, and the counter is unchanged |
| Folder.ImplicitAwaitFold.FoldExprMacro | implicit-await-macro/src/lib.rs:48-60 | the counter is raised around the body of a `defer!` invocation. It is lowered again, never below 0, and ends equal to its entry value. The result is the pure macro fold |
| Folder.ImplicitAwaitFold.FoldExprs | implicit-await-macro/src/lib.rs:22 | the loop over a sequence of expressions equals the pure fold of the sequence, and the counter is unchanged |
| Folder.ImplicitAwaitFold.FoldStmt | implicit-await-macro/src/lib.rs:22 | one statement is folded as the pure definition says, and the counter is unchanged |
| Folder.ImplicitAwaitFold.FoldStmts | implicit-await-macro/src/lib.rs:22 | the loop over a statement list equals the pure fold of the list, and the counter is unchanged |
| Folder.ImplicitAwaitFold.FoldItemFn | implicit-await-macro/src/lib.rs:41-46 | the folded body, after the two `insert(0, …)` calls, equals the pure `FoldItemFn`, and the counter is unchanged |
| Folder.ImplicitAwaitFold.FoldImplItemMethod | implicit-await-macro/src/lib.rs:34-39 | the same for an impl method |
| Folder.ImplicitAwait | implicit-await-macro/src/lib.rs:9-14 | the attribute folds with a fresh folder. The signature is kept and the body starts with the two `use` statements. Every call outside `defer!` is wrapped, and unwrapping gives the original body |
| TypeList.IsDelimiter | implicit-await-macro/src/lib.rs:110-115 | a token is a delimiter iff it is the punctuation `,`; identifiers, literals and groups never are |
| TypeList.ParseWholeType | implicit-await-macro/src/lib.rs:86-87 | an empty piece, as between two commas, is a parse error |
| TypeList.CollectTypesAsWritten | implicit-await-macro/src/lib.rs:79-95 | the loop gives the types of the pieces, each piece parsed in order. The first piece that fails to parse is the error |
| TypeList.Pieces | implicit-await-macro/src/lib.rs:80-95 | the pieces the first loop builds: each `,` closes the current piece, even an empty one, and a non-empty piece left at the end is one more |
| TypeList.PiecesJoin | implicit-await-macro/src/lib.rs:81-95 | the input is cut at each `,` and only there. No piece holds a `,`, and the pieces joined with `,` (plus a final `,`, if any) are the input. There is one piece per `,`, plus one when the input ends in another token, so `,` alone is one empty piece and the empty input has none |
| TypeList.CutAtJoin | implicit-await-macro/src/lib.rs:81-95 | the same join and count, from any partial piece the loop holds |
| TypeList.CutAtCount | implicit-await-macro/src/lib.rs:81-95 | the number of pieces is the number of `,` tokens, plus one for a piece still open at the end |
| TypeList.CutAtNoDelimiter | implicit-await-macro/src/lib.rs:82-85 | tokens other than `,` only ever extend the current piece |
| TypeList.TrailingCommaAddsNoType | implicit-await-macro/src/lib.rs:86-95 | a trailing comma adds no piece |
| TypeList.CutAtTrailingComma | implicit-await-macro/src/lib.rs:86-95 | the same, from any partial piece |
| TypeList.ParseTypeList | implicit-await-macro/src/lib.rs:79-95 | the list read type after type with the type parser, each type followed by a `,` or the end; a trailing comma is allowed, and the whole remaining input is the error when a type does not parse |
| TypeList.ParseTypeListRoundTrip | implicit-await-macro/src/lib.rs:79-95 | a comma-separated list of well-formed types, generic arguments included, reads back as exactly that list in order |
| TypeList.ParseTypeListTrailingComma | implicit-await-macro/src/lib.rs:91-95 | with a trailing comma the list reads back the same, with no extra type |
| TypeList.AsWrittenRoundTrip | implicit-await-macro/src/lib.rs:79-95 | for types whose angle lists hold at most one argument, the source's cutting reads the list back, in order, and agrees with `ParseTypeList` |
| TypeList.AsWrittenCutsGenericArguments | implicit-await-macro/src/lib.rs:81-90 | the source cuts `HashMap<K, V>` into `HashMap<K` and `V>` |
| TypeList.AsWrittenRejectsTwoArgumentGenerics | implicit-await-macro/src/lib.rs:81-93 | so the source's reading of `HashMap<K, V>` is a parse error |
| TypeList.ParseTypeListKeepsGenericArguments | implicit-await-macro/src/lib.rs:79-95 | the corrected reading gives the one type `HashMap<K, V>` |
| TypeList.AsWrittenRejectsTrailingArgumentComma | implicit-await-macro/src/lib.rs:81-93 | the source cuts `Foo<A,>` into `Foo<A` and `>`, and so fails with a parse error |
| TypeList.ParseTypeListAcceptsTrailingArgumentComma | implicit-await-macro/src/lib.rs:79-95 | the corrected reading gives the one type `Foo<A>` |
| TypeList.GetGenericArgs | implicit-await-macro/src/lib.rs:117-129 | `get_generic_args`: for a path type, the last of its segments' angle-bracketed argument lists, if any; `None` for every other type |
| TypeList.GetGenericArgsPicksLast | implicit-await-macro/src/lib.rs:117-129 | a type gets generics iff it is a path with some angle-bracketed segment. The generics are the arguments of the last such segment: every later segment has none. Non-path types get none |
| TypeList.AngleArgumentListsLast | implicit-await-macro/src/lib.rs:119-125 | the `filter_map` … `last` chain is empty iff no segment has angle arguments. Otherwise its last element is the arguments of a segment after which none has any |
| TypeList.EmitImpls | implicit-await-macro/src/lib.rs:96-107 | one impl per type, in input order. Each carries that type, the crate prefix, and the type's generic arguments |
| TypeList.AsFutureImpl | implicit-await-macro/src/lib.rs:77-108 | a list that does not parse gives that parse error. Otherwise the result is exactly one impl per parsed type, in order |
| TypeList.AsFuture | implicit-await-macro/src/lib.rs:64-67 | `as_future!` is `AsFutureImpl` with the prefix `implicit_await` |
| TypeList.AsFutureInternal | implicit-await-macro/src/lib.rs:70-73 | `as_future_internal!` is `AsFutureImpl` with the prefix `crate` |
| TypeList.AsFutureImplOfList | implicit-await-macro/src/lib.rs:77-108 | a written list of types gives one impl per type, in order, each with its own generic arguments |
| Tokens.ParseRenderType | implicit-await-macro/src/lib.rs:87 | parsing a printed well-formed type, followed by a `,`, a `>` or nothing, gives the type back and leaves the rest |
| Tokens.ParseRenderSegments | implicit-await-macro/src/lib.rs:87 | the same for the segments of a path |
| Tokens.ParseRenderSegment | implicit-await-macro/src/lib.rs:87 | the same for one path segment followed by anything but `<` |
| Tokens.ParseRenderArgs | implicit-await-macro/src/lib.rs:87 | an argument list printed with its closing `>` reads back as the same arguments, whatever follows |
| Tokens.RenderTypeStart | implicit-await-macro/src/lib.rs:87 | a printed type is never empty and never starts with `,` or `>` |
| AsFuture.FutureAsFuture | implicit-await/src/as_future.rs:11-15 | a future's conversion is the future itself |
| AsFuture.Ready.constructor | implicit-await/src/as_future.rs:22 | the tuple constructor stores the given slot |
| AsFuture.Ready.Poll | implicit-await/src/as_future.rs:29-31 | polling a full slot returns `Ready` of the stored value, never `Pending`, and leaves the slot empty |
| AsFuture.MakeReady | implicit-await/src/as_future.rs:34-36 | `ready(t)` is a new `Ready` whose slot is `Some(t)` |
| AsFuture.ReadyThenPoll | implicit-await/src/as_future.rs:29-36 | the first poll of `ready(t)` gives `Ready(t)` and empties the slot, so a second poll is excluded |
| AsFuture.ResultAsFuture | implicit-await/src/as_future.rs:39-43 | a `Result` converts to a new `Ready` holding that same `Result` |
| AsFuture.PollResultAsFuture | implicit-await/src/as_future.rs:39-43 | awaiting a converted `Result` yields the original `Result` |
| AsFuture.BuiltinTypesWellFormed | implicit-await/src/as_future.rs:46-63 | the seventeen built-in types are well formed, and none has an angle list with more than one argument |
| AsFuture.BuiltinGenerics | implicit-await/src/as_future.rs:46-63 | only `std::io::BufReader<T>` and `std::option::Option<T>` get generics, `<T>` for both |
| AsFuture.BuiltinImpls | implicit-await/src/as_future.rs:46-63 | the built-in impls are one per listed type, in order, with the `crate` prefix and the generics above |
| AsFuture.RegisterBuiltinTypes | implicit-await/src/as_future.rs:45-63 | the registration succeeds with seventeen impls, in the order listed. The source's own cutting reads that list the same way |
| SumExample.SumRewrite | implicit-await/examples/sum.rs:18-39 | the rewritten `sum` awaits `num_sync(1)`, `num_fut(2)`, `num_async(3)`, `join(…)` and `Ok(…)`. It leaves the three calls inside `defer!` and the explicit `six.await` as they are |

## Left out

- Parsing with `syn`, `quote!` and `parse_quote!`, and the `TokenStream` conversions. Syntax trees are datatypes; the generated code is values:
  - a wrapped call is the `Wrap` tree;
  - an emitted impl is a `NonFutureImpl` record of its generics, crate prefix and self type.
- Tokens.ParseType: a stand-in for `syn`'s type parser, and every piece of the list passes through it, so on the inputs below the model's result differs from the source's. It reads paths whose segments may carry angle-bracketed types, shared references `&T`, and any delimited group as one opaque type. It rejects types that `syn` accepts: `&mut T`, raw pointers `*const T` / `*mut T`, the never type `!`, bare `fn(…)` types, turbofish `::<…>`, associated bindings such as `Item = T`, leading `::`, lifetimes, `Fn(…)` arguments, `dyn`/`impl` bounds and qualified paths. It accepts groups that `syn` rejects, whatever they hold, such as `{}`, `[,]` and `(,)`. Token spacing is not modelled.
- Macro bodies: in `syn`, `fold_expr_macro` keeps a macro's body as raw tokens and does not fold inside it. The model gives a macro a body of expressions and folds through it. This is the reading under which the `defer` counter matters: with raw tokens, the `defer!` check does not change any output. `RewriteProps.DeferBodyReproduced` holds under both readings.
- Nested items: an item inside a function (a nested `fn`, an `impl` block) is opaque in `Syntax`. The default fold would visit it with `fold_item_fn` / `fold_impl_item_method`. `Rewrite.FoldImplItemMethod` is modelled on a standalone method.
- Expression coverage: the expression kinds other than calls, method calls, macros, blocks and `.await` are one generic `Other` node with children.
- Folder.ImplicitAwaitFold.FoldExprMacro: `defer` is a `usize` in the source and a `nat` here. Overflow past `usize::MAX` nested `defer!` regions is not modelled.
- AsFuture.Ready.Poll requires a full slot. Polling an empty slot panics on `unwrap` in the source. A second poll is therefore excluded by precondition rather than modelled as a panic.
- `Pin`, `Context`, `Unpin` and wakers: `poll` does not use them.
- Which of `FutureAsFuture` and `NonFutureAsFuture` a call site picks is decided by Rust's trait resolution, not by the code. The model states each conversion on its own.
- `#[cfg(feature = "std")]` gating is not modelled. The crate prefix is an opaque string copied into each impl.
- The executor, `join`, `println!` and the arithmetic of the example's `main` are not modelled. Only the rewrite of `sum` is.
- TypeList.AsFutureImpl reads the list with the corrected `ParseTypeList`, not the source's cutting (see Findings). `TypeList.AsWrittenRoundTrip` shows the two agree on the printed form of every list of well-formed types whose angle lists hold at most one argument, the built-in list among them. They differ elsewhere: `HashMap<K, V>` and `Foo<A,>` get an impl here where the source fails with a parse error. On a list that does not parse, the error also carries different tokens: the source's holds the failing piece, and `ParseTypeList`'s holds the whole remaining input (for `A B, C`, `A B` against `A B, C`).

## Findings

| source | as written | input that shows it | evidently intended | confidence | as-written member | corrected member |
|---|---|---|---|---|---|---|
| implicit-await-macro/src/lib.rs:81-93 | the list is cut at every top-level `,` token. `<` and `>` are plain punctuation, not groups, so a `,` between angle-bracketed arguments also ends a piece | `as_future!{ HashMap<K, V> }` cuts into `HashMap<K` and `V>`, and the first piece is a parse error | one impl for `HashMap<K, V>`, generic over `<K, V>` (the crate writes such an impl by hand for `Result<T, E>`) | not executed; high — follows from how `proc_macro2` tokenizes `<` | TypeList.AsWrittenRejectsTwoArgumentGenerics | TypeList.ParseTypeListKeepsGenericArguments |
| implicit-await-macro/src/lib.rs:81-93 | the same cutting also ends a piece at a trailing comma inside angle brackets | `as_future!{ Foo<A,> }` cuts into `Foo<A` and `>`, and `Foo<A` is a parse error | one impl for `Foo<A>`, as Rust reads `Foo<A,>` | not executed; high — the same tokenization | TypeList.AsWrittenRejectsTrailingArgumentComma | TypeList.ParseTypeListAcceptsTrailingArgumentComma |
