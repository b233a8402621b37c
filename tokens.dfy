/**
 * Token trees as a procedural macro receives them, the type syntax that the
 * `as_future!` list is made of, and a parser for that syntax.  Angle brackets
 * are single `Punct` tokens, not groups; only `( )`, `[ ]` and `{ }` make a
 * `Group`, which is one token however much it holds.
 */
module Tokens {
  import opened Wrappers

  datatype Delimiter = Parenthesis | Brace | Bracket | NoDelimiter

  datatype Token =
    | Punct(ch: char)
    | Ident(name: string)
    | Literal(text: string)
    | Group(delimiter: Delimiter, stream: seq<Token>)

  /**
   * A type: a path such as `std::io::BufReader<T>`, a reference `&T`, or a
   * type written as one delimited group such as `()` or `[u8]`, whose
   * contents the model keeps as tokens.
   */
  datatype Type =
    | Path(segments: seq<PathSegment>)
    | Reference(elem: Type)
    | Grouped(delimiter: Delimiter, stream: seq<Token>)

  datatype PathSegment = PathSegment(ident: string, arguments: PathArguments)

  datatype PathArguments =
    | NoArguments
    | AngleBracketed(args: seq<Type>)

  /** Types that can be written down: a path has at least one segment. */
  predicate WellFormed(t: Type)
    decreases t
  {
    match t
    case Path(segments) => |segments| > 0 && forall i :: 0 <= i < |segments| ==> SegmentWellFormed(segments[i])
    case Reference(elem) => WellFormed(elem)
    case Grouped(_, _) => true
  }

  predicate SegmentWellFormed(s: PathSegment)
    decreases s
  {
    match s.arguments
    case NoArguments => true
    case AngleBracketed(args) => forall i :: 0 <= i < |args| ==> WellFormed(args[i])
  }

  // ----- Writing a type as tokens -----

  function RenderType(t: Type): seq<Token>
    decreases t
  {
    match t
    case Path(segments) => RenderSegments(segments)
    case Reference(elem) => [Punct('&')] + RenderType(elem)
    case Grouped(d, stream) => [Group(d, stream)]
  }

  /** Segments separated by `::`. */
  function RenderSegments(segments: seq<PathSegment>): seq<Token>
    decreases segments
  {
    if |segments| == 0 then []
    else if |segments| == 1 then RenderSegment(segments[0])
    else RenderSegment(segments[0]) + [Punct(':'), Punct(':')] + RenderSegments(segments[1..])
  }

  function RenderSegment(s: PathSegment): seq<Token>
    decreases s
  {
    match s.arguments
    case NoArguments => [Ident(s.ident)]
    case AngleBracketed(args) => [Ident(s.ident), Punct('<')] + RenderList(args) + [Punct('>')]
  }

  /** Types separated by `,`, with no trailing comma. */
  function RenderList(ts: seq<Type>): seq<Token>
    decreases ts
  {
    if |ts| == 0 then []
    else if |ts| == 1 then RenderType(ts[0])
    else RenderType(ts[0]) + [Punct(',')] + RenderList(ts[1..])
  }

  // ----- Reading a type from tokens -----

  /**
   * Read one type from the front of `ts`, returning it with the tokens after
   * it, or None when `ts` does not start with a type.
   */
  function ParseType(ts: seq<Token>): (r: Option<(Type, seq<Token>)>)
    ensures r.Some? ==> |r.value.1| < |ts|
    decreases |ts|, 2
  {
    if |ts| == 0 then None
    else match ts[0]
      case Punct(c) =>
        if c != '&' then None
        else (match ParseType(ts[1..])
          case None => None
          case Some((elem, rest)) => Some((Reference(elem), rest)))
      case Group(d, stream) => Some((Grouped(d, stream), ts[1..]))
      case Ident(_) =>
        (match ParsePath(ts)
         case None => None
         case Some((segments, rest)) => Some((Path(segments), rest)))
      case Literal(_) => None
  }

  /** One or more segments separated by `::`. */
  function ParsePath(ts: seq<Token>): (r: Option<(seq<PathSegment>, seq<Token>)>)
    ensures r.Some? ==> |r.value.1| < |ts|
    decreases |ts|, 1
  {
    match ParseSegment(ts)
    case None => None
    case Some((segment, rest)) =>
      if |rest| >= 2 && rest[0] == Punct(':') && rest[1] == Punct(':') then
        match ParsePath(rest[2..])
        case None => None
        case Some((more, rest')) => Some(([segment] + more, rest'))
      else
        Some(([segment], rest))
  }

  /** An identifier, optionally followed by `<` arguments `>`. */
  function ParseSegment(ts: seq<Token>): (r: Option<(PathSegment, seq<Token>)>)
    ensures r.Some? ==> |r.value.1| < |ts|
    decreases |ts|, 0
  {
    if |ts| == 0 || !ts[0].Ident? then None
    else if |ts| >= 2 && ts[1] == Punct('<') then
      match ParseArgs(ts[2..])
      case None => None
      case Some((args, rest)) => Some((PathSegment(ts[0].name, AngleBracketed(args)), rest))
    else
      Some((PathSegment(ts[0].name, NoArguments), ts[1..]))
  }

  /** Comma-separated types up to and including the closing `>`; a trailing comma is allowed. */
  function ParseArgs(ts: seq<Token>): (r: Option<(seq<Type>, seq<Token>)>)
    ensures r.Some? ==> |r.value.1| < |ts|
    decreases |ts|, 3
  {
    if |ts| > 0 && ts[0] == Punct('>') then Some(([], ts[1..]))
    else match ParseType(ts)
      case None => None
      case Some((t, rest)) =>
        if |rest| > 0 && rest[0] == Punct('>') then Some(([t], rest[1..]))
        else if |rest| > 0 && rest[0] == Punct(',') then
          match ParseArgs(rest[1..])
          case None => None
          case Some((more, rest')) => Some(([t] + more, rest'))
        else None
  }

  // ----- Round trip -----

  /** What may come right after a type inside a list: nothing, a `,` or a closing `>`. */
  predicate Follows(rest: seq<Token>) {
    rest == [] || rest[0] == Punct(',') || rest[0] == Punct('>')
  }

  /** A written type starts with an identifier, a `&` or a group, never with `>`. */
  lemma RenderTypeStart(t: Type)
    requires WellFormed(t)
    ensures |RenderType(t)| > 0
    ensures RenderType(t)[0] != Punct('>') && RenderType(t)[0] != Punct(',')
  {
    match t
    case Path(segments) =>
      assert RenderSegments(segments)[0] == RenderSegment(segments[0])[0];
    case Reference(_) =>
    case Grouped(_, _) =>
  }

  /** Reading a written type gives the type back and leaves what follows it. */
  lemma {:induction false} ParseRenderType(t: Type, rest: seq<Token>)
    requires WellFormed(t) && Follows(rest)
    ensures ParseType(RenderType(t) + rest) == Some((t, rest))
    decreases t
  {
    match t
    case Path(segments) =>
      ParseRenderSegments(segments, rest);
      assert (RenderType(t) + rest)[0] == RenderSegment(segments[0])[0];
    case Reference(elem) =>
      ParseRenderType(elem, rest);
      assert (RenderType(t) + rest)[1..] == RenderType(elem) + rest;
    case Grouped(_, _) =>
      assert (RenderType(t) + rest)[1..] == rest;
  }

  lemma {:induction false} ParseRenderSegments(segments: seq<PathSegment>, rest: seq<Token>)
    requires |segments| > 0 && Follows(rest)
    requires forall i :: 0 <= i < |segments| ==> SegmentWellFormed(segments[i])
    ensures ParsePath(RenderSegments(segments) + rest) == Some((segments, rest))
    decreases segments
  {
    if |segments| == 1 {
      ParseRenderSegment(segments[0], rest);
      assert [segments[0]] == segments;
    } else {
      var tail := [Punct(':'), Punct(':')] + RenderSegments(segments[1..]) + rest;
      assert RenderSegments(segments) + rest == RenderSegment(segments[0]) + tail;
      ParseRenderSegment(segments[0], tail);
      ParseRenderSegments(segments[1..], rest);
      assert tail[2..] == RenderSegments(segments[1..]) + rest;
      assert [segments[0]] + segments[1..] == segments;
    }
  }

  lemma {:induction false} ParseRenderSegment(s: PathSegment, rest: seq<Token>)
    requires SegmentWellFormed(s)
    requires rest == [] || rest[0] != Punct('<')
    ensures ParseSegment(RenderSegment(s) + rest) == Some((s, rest))
    decreases s
  {
    var ts := RenderSegment(s) + rest;
    match s.arguments
    case NoArguments =>
      assert ts[1..] == rest;
    case AngleBracketed(args) =>
      ParseRenderArgs(args, rest);
      assert ts[2..] == RenderList(args) + [Punct('>')] + rest;
  }

  lemma {:induction false} ParseRenderArgs(args: seq<Type>, rest: seq<Token>)
    requires forall i :: 0 <= i < |args| ==> WellFormed(args[i])
    ensures ParseArgs(RenderList(args) + [Punct('>')] + rest) == Some((args, rest))
    decreases args
  {
    var ts := RenderList(args) + [Punct('>')] + rest;
    if |args| == 0 {
      assert ts[1..] == rest;
    } else if |args| == 1 {
      RenderTypeStart(args[0]);
      ParseRenderType(args[0], [Punct('>')] + rest);
      assert ts == RenderType(args[0]) + ([Punct('>')] + rest);
      assert ts[0] == RenderType(args[0])[0];
      assert ([Punct('>')] + rest)[1..] == rest;
      assert [args[0]] == args;
    } else {
      RenderTypeStart(args[0]);
      var tail := [Punct(',')] + (RenderList(args[1..]) + [Punct('>')] + rest);
      assert ts == RenderType(args[0]) + tail;
      assert ts[0] == RenderType(args[0])[0];
      ParseRenderType(args[0], tail);
      ParseRenderArgs(args[1..], rest);
      assert tail[1..] == RenderList(args[1..]) + [Punct('>')] + rest;
      assert [args[0]] + args[1..] == args;
    }
  }
}
