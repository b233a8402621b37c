/**
 * The `as_future!` procedural macro: a comma-separated list of types becomes
 * one `NonFutureAsFuture` impl per type, generic over the angle-bracketed
 * arguments of the type's last segment that has any.
 */
module TypeList {
  import opened Wrappers
  import opened Tokens

  /** `is_delimiter`: the only token that ends a type in the list is the punctuation `,`. */
  function IsDelimiter(token: Token): (r: bool)
    ensures r <==> token == Punct(',')
  {
    match token
    case Punct(c) => c == ','
    case _ => false
  }

  /** The tokens that failed to parse as a type. */
  datatype ParseError = ParseError(tokens: seq<Token>)

  /** A whole token sequence read as exactly one type. */
  function ParseWholeType(ts: seq<Token>): (r: Result<Type, ParseError>)
    ensures ts == [] ==> r.Err?
  {
    match ParseType(ts)
    case None => Err(ParseError(ts))
    case Some((t, rest)) => if rest == [] then Ok(t) else Err(ParseError(ts))
  }

  // ----- The list as the source cuts it -----

  /**
   * The pieces the source's first loop builds: `current` collects tokens up
   * to a delimiter, each delimiter closes a piece (even an empty one), and at
   * the end a non-empty `current` is one more piece.
   */
  function CutAt(ts: seq<Token>, current: seq<Token>): seq<seq<Token>>
    decreases |ts|
  {
    if |ts| == 0 then (if current == [] then [] else [current])
    else if IsDelimiter(ts[0]) then [current] + CutAt(ts[1..], [])
    else CutAt(ts[1..], current + [ts[0]])
  }

  function Pieces(ts: seq<Token>): seq<seq<Token>> {
    CutAt(ts, [])
  }

  /** Each piece read as one type, in order; the first piece that fails is the error. */
  function ParsePieces(pieces: seq<seq<Token>>): Result<seq<Type>, ParseError>
    decreases |pieces|
  {
    if |pieces| == 0 then Ok([])
    else match ParseWholeType(pieces[0])
      case Err(e) => Err(e)
      case Ok(t) =>
        (match ParsePieces(pieces[1..])
         case Err(e) => Err(e)
         case Ok(more) => Ok([t] + more))
  }

  /** The types already collected, in front of what the rest of the input gives. */
  function Prepend(done: seq<Type>, r: Result<seq<Type>, ParseError>): Result<seq<Type>, ParseError> {
    match r
    case Ok(more) => Ok(done + more)
    case Err(e) => Err(e)
  }

  /** The pieces joined back with `,` between them. */
  function Join(pieces: seq<seq<Token>>): seq<Token>
    decreases |pieces|
  {
    if |pieces| == 0 then []
    else if |pieces| == 1 then pieces[0]
    else pieces[0] + [Punct(',')] + Join(pieces[1..])
  }

  predicate NoDelimiter(ts: seq<Token>) {
    forall k :: 0 <= k < |ts| ==> !IsDelimiter(ts[k])
  }

  /**
   * The first loop of `as_future_impl` (types collected as the source collects
   * them): the input is cut at every top-level `,` and each piece is parsed;
   * a piece that does not parse ends the macro with that error.
   */
  method CollectTypesAsWritten(input: seq<Token>) returns (types: Result<seq<Type>, ParseError>)
    ensures types == ParsePieces(Pieces(input))
  {
    var collected: seq<Type> := [];
    var current: seq<Token> := [];
    var i := 0;
    assert input[0..] == input;
    PrependNothing(ParsePieces(Pieces(input)));
    while i < |input|
      invariant 0 <= i <= |input|
      invariant Prepend(collected, ParsePieces(CutAt(input[i..], current))) == ParsePieces(Pieces(input))
    {
      assert input[i..][0] == input[i] && input[i..][1..] == input[i + 1..];
      if !IsDelimiter(input[i]) {
        assert CutAt(input[i..], current) == CutAt(input[i + 1..], current + [input[i]]);
        current := current + [input[i]];
        i := i + 1;
        continue;
      }
      var later := CutAt(input[i + 1..], []);
      assert CutAt(input[i..], current) == [current] + later;
      ParsePiecesCons(current, later);
      var parsed := ParseWholeType(current);
      if parsed.Err? {
        return Err(parsed.error);
      }
      PrependAssoc(collected, [parsed.value], ParsePieces(later));
      collected := collected + [parsed.value];
      current := [];
      i := i + 1;
    }
    assert input[i..] == [];
    if current != [] {
      ParsePiecesCons(current, []);
      var parsed := ParseWholeType(current);
      if parsed.Err? {
        return Err(parsed.error);
      }
      assert [current] + [] == [current];
      PrependAssoc(collected, [parsed.value], ParsePieces([]));
      collected := collected + [parsed.value];
    } else {
      assert CutAt(input[i..], current) == [];
    }
    assert collected + [] == collected;
    types := Ok(collected);
  }

  lemma ParsePiecesCons(piece: seq<Token>, rest: seq<seq<Token>>)
    ensures ParseWholeType(piece).Err? ==> ParsePieces([piece] + rest) == Err(ParseWholeType(piece).error)
    ensures ParseWholeType(piece).Ok? ==>
      ParsePieces([piece] + rest) == Prepend([ParseWholeType(piece).value], ParsePieces(rest))
  {
    assert ([piece] + rest)[0] == piece && ([piece] + rest)[1..] == rest;
  }

  lemma PrependNothing(r: Result<seq<Type>, ParseError>)
    ensures Prepend([], r) == r
  {
    if r.Ok? {
      assert [] + r.value == r.value;
    }
  }

  lemma PrependAssoc(a: seq<Type>, b: seq<Type>, r: Result<seq<Type>, ParseError>)
    ensures Prepend(a, Prepend(b, r)) == Prepend(a + b, r)
  {
    if r.Ok? {
      assert a + (b + r.value) == a + b + r.value;
    }
  }

  /** The `,` that ends the input, if it ends in one. */
  function TrailingDelimiter(ts: seq<Token>): seq<Token> {
    if |ts| > 0 && IsDelimiter(ts[|ts| - 1]) then [Punct(',')] else []
  }

  lemma CutAtEmpty(ts: seq<Token>, current: seq<Token>)
    requires CutAt(ts, current) == []
    ensures ts == [] && current == []
  {
    if |ts| > 0 && !IsDelimiter(ts[0]) {
      CutAtNonEmpty(ts[1..], current + [ts[0]]);
    }
  }

  lemma {:induction false} CutAtNonEmpty(ts: seq<Token>, current: seq<Token>)
    requires current != []
    ensures CutAt(ts, current) != []
    decreases |ts|
  {
    if |ts| > 0 && !IsDelimiter(ts[0]) {
      CutAtNonEmpty(ts[1..], current + [ts[0]]);
    }
  }

  /**
   * Cutting loses nothing: the pieces joined with `,`, and the final `,` if
   * any, are the input; and there is one piece per `,`, plus the piece still
   * open at the end.
   */
  lemma {:induction false} CutAtJoin(ts: seq<Token>, current: seq<Token>)
    ensures Join(CutAt(ts, current)) + TrailingDelimiter(ts) == current + ts
    ensures |CutAt(ts, current)| == Delimiters(ts) + (if OpenAtEnd(ts, current) then 1 else 0)
    decreases |ts|
  {
    CutAtCount(ts, current);
    if |ts| == 0 {
    } else if IsDelimiter(ts[0]) {
      var rest := CutAt(ts[1..], []);
      CutAtJoin(ts[1..], []);
      assert ([current] + rest)[0] == current && ([current] + rest)[1..] == rest;
      if |rest| == 0 {
        CutAtEmpty(ts[1..], []);
        assert ts == [Punct(',')];
      } else {
        assert ts[1..] != [];
        assert TrailingDelimiter(ts) == TrailingDelimiter(ts[1..]);
        assert Join([current] + rest) == current + [Punct(',')] + Join(rest);
        assert ts == [Punct(',')] + ts[1..];
        calc {
          Join(CutAt(ts, current)) + TrailingDelimiter(ts);
          current + [Punct(',')] + Join(rest) + TrailingDelimiter(ts[1..]);
          current + [Punct(',')] + (Join(rest) + TrailingDelimiter(ts[1..]));
          current + ([Punct(',')] + ts[1..]);
        }
      }
    } else {
      CutAtJoin(ts[1..], current + [ts[0]]);
      assert TrailingDelimiter(ts) == TrailingDelimiter(ts[1..]);
      assert current + [ts[0]] + ts[1..] == current + ts;
    }
  }

  /** No piece holds a delimiter. */
  lemma {:induction false} CutAtNoDelimiter(ts: seq<Token>, current: seq<Token>)
    requires NoDelimiter(current)
    ensures forall k :: 0 <= k < |CutAt(ts, current)| ==> NoDelimiter(CutAt(ts, current)[k])
    decreases |ts|
  {
    if |ts| > 0 {
      if IsDelimiter(ts[0]) {
        CutAtNoDelimiter(ts[1..], []);
      } else {
        CutAtNoDelimiter(ts[1..], current + [ts[0]]);
      }
    }
  }

  /** The number of `,` tokens in `ts`. */
  function Delimiters(ts: seq<Token>): nat
    decreases |ts|
  {
    if |ts| == 0 then 0 else (if IsDelimiter(ts[0]) then 1 else 0) + Delimiters(ts[1..])
  }

  /** After the loop a piece is still open: the input ends in a non-`,` token, or is empty with a non-empty partial piece. */
  predicate OpenAtEnd(ts: seq<Token>, current: seq<Token>) {
    if |ts| == 0 then current != [] else !IsDelimiter(ts[|ts| - 1])
  }

  /** Every `,` closes one piece, and a piece still open at the end is one more. */
  lemma {:induction false} CutAtCount(ts: seq<Token>, current: seq<Token>)
    ensures |CutAt(ts, current)| == Delimiters(ts) + (if OpenAtEnd(ts, current) then 1 else 0)
    decreases |ts|
  {
    if |ts| > 0 {
      var tail := ts[1..];
      if IsDelimiter(ts[0]) {
        CutAtCount(tail, []);
        assert OpenAtEnd(tail, []) == OpenAtEnd(ts, current) by {
          if |tail| > 0 {
            assert tail[|tail| - 1] == ts[|ts| - 1];
          }
        }
      } else {
        CutAtCount(tail, current + [ts[0]]);
        assert OpenAtEnd(tail, current + [ts[0]]) == OpenAtEnd(ts, current) by {
          if |tail| > 0 {
            assert tail[|tail| - 1] == ts[|ts| - 1];
          }
        }
      }
    }
  }

  /**
   * The source cuts at each `,` and only there: joining the pieces with `,`
   * gives the input back up to a final `,`, no piece holds a `,`, and there is
   * one piece per `,` plus one more when the input ends in another token.
   * The input `,` is one empty piece, and the empty input has no piece.
   */
  lemma PiecesJoin(ts: seq<Token>)
    ensures forall k :: 0 <= k < |Pieces(ts)| ==> NoDelimiter(Pieces(ts)[k])
    ensures Join(Pieces(ts)) + TrailingDelimiter(ts) == ts
    ensures |Pieces(ts)| == Delimiters(ts) + (if |ts| > 0 && !IsDelimiter(ts[|ts| - 1]) then 1 else 0)
  {
    CutAtJoin(ts, []);
    CutAtNoDelimiter(ts, []);
    CutAtCount(ts, []);
  }

  /** A trailing `,` after a list that does not already end in one adds no piece. */
  lemma {:induction false} CutAtTrailingComma(ts: seq<Token>, current: seq<Token>)
    requires current + ts != []
    requires |ts| > 0 ==> !IsDelimiter(ts[|ts| - 1])
    requires |ts| == 0 ==> !IsDelimiter(current[|current| - 1])
    ensures CutAt(ts + [Punct(',')], current) == CutAt(ts, current)
    decreases |ts|
  {
    var ts' := ts + [Punct(',')];
    if |ts| == 0 {
      assert ts'[1..] == [];
    } else {
      assert ts'[0] == ts[0] && ts'[1..] == ts[1..] + [Punct(',')];
      if IsDelimiter(ts[0]) {
        CutAtTrailingComma(ts[1..], []);
      } else {
        CutAtTrailingComma(ts[1..], current + [ts[0]]);
      }
    }
  }

  lemma TrailingCommaAddsNoType(ts: seq<Token>)
    requires |ts| > 0 && !IsDelimiter(ts[|ts| - 1])
    ensures Pieces(ts + [Punct(',')]) == Pieces(ts)
  {
    CutAtTrailingComma(ts, []);
  }

  // ----- The list read with the type parser -----

  /**
   * Types read one after another with the type parser, each followed by a
   * `,` or by the end of the input; a trailing comma is allowed.  A `,`
   * between angle-bracketed arguments belongs to the type being read.
   */
  function ParseTypeList(ts: seq<Token>): Result<seq<Type>, ParseError>
    decreases |ts|
  {
    if |ts| == 0 then Ok([])
    else match ParseType(ts)
      case None => Err(ParseError(ts))
      case Some((t, rest)) =>
        if rest == [] then Ok([t])
        else if rest[0] == Punct(',') then
          (match ParseTypeList(rest[1..])
           case Err(e) => Err(e)
           case Ok(more) => Ok([t] + more))
        else Err(ParseError(ts))
  }

  predicate AllWellFormed(types: seq<Type>) {
    forall i :: 0 <= i < |types| ==> WellFormed(types[i])
  }

  /** A written list of types reads back as that list. */
  lemma {:induction false} ParseTypeListRoundTrip(types: seq<Type>)
    requires AllWellFormed(types)
    ensures ParseTypeList(RenderList(types)) == Ok(types)
    decreases |types|
  {
    if |types| == 1 {
      ParseRenderType(types[0], []);
      assert RenderList(types) == RenderType(types[0]) + [];
      RenderTypeStart(types[0]);
      assert [types[0]] == types;
    } else if |types| > 1 {
      var tail := [Punct(',')] + RenderList(types[1..]);
      assert RenderList(types) == RenderType(types[0]) + tail;
      ParseRenderType(types[0], tail);
      RenderTypeStart(types[0]);
      ParseTypeListRoundTrip(types[1..]);
      assert tail[1..] == RenderList(types[1..]);
      assert [types[0]] + types[1..] == types;
    }
  }

  /** The same list written with a trailing comma reads back the same. */
  lemma ParseTypeListTrailingComma(types: seq<Type>)
    requires AllWellFormed(types) && |types| > 0
    ensures ParseTypeList(RenderList(types) + [Punct(',')]) == Ok(types)
  {
    ParseTypeListTrailingCommaFrom(types);
  }

  lemma {:induction false} ParseTypeListTrailingCommaFrom(types: seq<Type>)
    requires AllWellFormed(types) && |types| > 0
    ensures ParseTypeList(RenderList(types) + [Punct(',')]) == Ok(types)
    decreases |types|
  {
    var ts := RenderList(types) + [Punct(',')];
    RenderTypeStart(types[0]);
    if |types| == 1 {
      ParseRenderType(types[0], [Punct(',')]);
      assert ts == RenderType(types[0]) + [Punct(',')];
      assert ts[0] == RenderType(types[0])[0];
      assert [Punct(',')][1..] == [];
      assert ParseTypeList([]) == Ok([]);
      assert [types[0]] + [] == types;
    } else {
      var tail := [Punct(',')] + (RenderList(types[1..]) + [Punct(',')]);
      assert ts == RenderType(types[0]) + tail;
      assert ts[0] == RenderType(types[0])[0];
      ParseRenderType(types[0], tail);
      ParseTypeListTrailingCommaFrom(types[1..]);
      assert tail[1..] == RenderList(types[1..]) + [Punct(',')];
      assert [types[0]] + types[1..] == types;
    }
  }

  // ----- When the two readings agree -----

  /** No angle-bracketed argument list anywhere in the type has more than one argument. */
  predicate CommaFree(t: Type)
    decreases t
  {
    match t
    case Path(segments) => forall i :: 0 <= i < |segments| ==> SegmentCommaFree(segments[i])
    case Reference(elem) => CommaFree(elem)
    case Grouped(_, _) => true
  }

  predicate SegmentCommaFree(s: PathSegment)
    decreases s
  {
    match s.arguments
    case NoArguments => true
    case AngleBracketed(args) => |args| <= 1 && forall i :: 0 <= i < |args| ==> CommaFree(args[i])
  }

  lemma {:induction false} CommaFreeRender(t: Type)
    requires CommaFree(t)
    ensures NoDelimiter(RenderType(t))
    decreases t
  {
    match t
    case Path(segments) => CommaFreeSegments(segments);
    case Reference(elem) =>
      CommaFreeRender(elem);
      assert RenderType(t) == [Punct('&')] + RenderType(elem);
    case Grouped(_, _) =>
  }

  lemma {:induction false} CommaFreeSegments(segments: seq<PathSegment>)
    requires forall i :: 0 <= i < |segments| ==> SegmentCommaFree(segments[i])
    ensures NoDelimiter(RenderSegments(segments))
    decreases segments
  {
    if |segments| == 1 {
      CommaFreeSegment(segments[0]);
    } else if |segments| > 1 {
      CommaFreeSegment(segments[0]);
      CommaFreeSegments(segments[1..]);
    }
  }

  lemma {:induction false} CommaFreeSegment(s: PathSegment)
    requires SegmentCommaFree(s)
    ensures NoDelimiter(RenderSegment(s))
    decreases s
  {
    match s.arguments
    case NoArguments =>
    case AngleBracketed(args) =>
      if |args| == 1 {
        CommaFreeRender(args[0]);
        assert RenderList(args) == RenderType(args[0]);
      }
  }

  /** Tokens without a delimiter are gathered into the current piece. */
  lemma {:induction false} CutAtGathers(a: seq<Token>, rest: seq<Token>, current: seq<Token>)
    requires NoDelimiter(a)
    ensures CutAt(a + rest, current) == CutAt(rest, current + a)
    decreases |a|
  {
    if |a| > 0 {
      assert (a + rest)[0] == a[0] && (a + rest)[1..] == a[1..] + rest;
      CutAtGathers(a[1..], rest, current + [a[0]]);
      assert current + [a[0]] + a[1..] == current + a;
    } else {
      assert a + rest == rest && current + a == current;
    }
  }

  /** A written list of comma-free types is cut into exactly the written types. */
  lemma {:induction false} PiecesOfRenderedList(types: seq<Type>)
    requires AllWellFormed(types)
    requires forall i :: 0 <= i < |types| ==> CommaFree(types[i])
    ensures Pieces(RenderList(types)) == seq(|types|, i requires 0 <= i < |types| => RenderType(types[i]))
    decreases |types|
  {
    var want := seq(|types|, i requires 0 <= i < |types| => RenderType(types[i]));
    if |types| == 1 {
      CommaFreeRender(types[0]);
      RenderTypeStart(types[0]);
      CutAtGathers(RenderType(types[0]), [], []);
      assert RenderType(types[0]) + [] == RenderType(types[0]);
      assert [] + RenderType(types[0]) == RenderType(types[0]);
      assert RenderList(types) == RenderType(types[0]);
      assert CutAt([], RenderType(types[0])) == [RenderType(types[0])];
      assert want == [RenderType(types[0])];
    } else if |types| > 1 {
      CommaFreeRender(types[0]);
      var tail := [Punct(',')] + RenderList(types[1..]);
      assert RenderList(types) == RenderType(types[0]) + tail;
      CutAtGathers(RenderType(types[0]), tail, []);
      assert [] + RenderType(types[0]) == RenderType(types[0]);
      assert tail[0] == Punct(',') && tail[1..] == RenderList(types[1..]);
      assert CutAt(tail, RenderType(types[0])) == [RenderType(types[0])] + Pieces(RenderList(types[1..]));
      PiecesOfRenderedList(types[1..]);
      assert want == [RenderType(types[0])] + seq(|types| - 1, i requires 0 <= i < |types| - 1 => RenderType(types[1..][i]));
    }
  }

  lemma {:induction false} ParsePiecesOfRendered(types: seq<Type>)
    requires AllWellFormed(types)
    ensures ParsePieces(seq(|types|, i requires 0 <= i < |types| => RenderType(types[i]))) == Ok(types)
    decreases |types|
  {
    var pieces := seq(|types|, i requires 0 <= i < |types| => RenderType(types[i]));
    if |types| > 0 {
      ParseRenderType(types[0], []);
      assert pieces[0] == RenderType(types[0]) + [];
      ParsePiecesOfRendered(types[1..]);
      assert pieces[1..] == seq(|types| - 1, i requires 0 <= i < |types| - 1 => RenderType(types[1..][i]));
      assert [types[0]] + types[1..] == types;
    }
  }

  /** On a written list of comma-free types the source's cutting reads back the list. */
  lemma AsWrittenRoundTrip(types: seq<Type>)
    requires AllWellFormed(types)
    requires forall i :: 0 <= i < |types| ==> CommaFree(types[i])
    ensures ParsePieces(Pieces(RenderList(types))) == Ok(types)
    ensures ParsePieces(Pieces(RenderList(types))) == ParseTypeList(RenderList(types))
  {
    PiecesOfRenderedList(types);
    ParsePiecesOfRendered(types);
    ParseTypeListRoundTrip(types);
  }

  /** `HashMap<K, V>`: a type whose angle-bracketed arguments are separated by a comma. */
  function TwoArgumentMap(): Type {
    Path([PathSegment("HashMap", AngleBracketed([
      Path([PathSegment("K", NoArguments)]),
      Path([PathSegment("V", NoArguments)])]))])
  }

  /** The source cuts `HashMap<K, V>` into `HashMap<K` and `V>`. */
  lemma AsWrittenCutsGenericArguments()
    ensures Pieces(RenderType(TwoArgumentMap())) ==
      [[Ident("HashMap"), Punct('<'), Ident("K")], [Ident("V"), Punct('>')]]
  {
    var ts := RenderType(TwoArgumentMap());
    var first, second := [Ident("HashMap"), Punct('<'), Ident("K")], [Ident("V"), Punct('>')];
    assert ts == first + ([Punct(',')] + second);
    CutAtGathers(first, [Punct(',')] + second, []);
    assert ([Punct(',')] + second)[1..] == second;
    CutAtGathers(second, [], []);
    assert second + [] == second && [] + second == second && [] + first == first;
  }

  /** ... and `HashMap<K` does not parse, so the source rejects a list that names `HashMap<K, V>`. */
  lemma AsWrittenRejectsTwoArgumentGenerics()
    ensures ParsePieces(Pieces(RenderType(TwoArgumentMap()))).Err?
  {
    AsWrittenCutsGenericArguments();
    var first := [Ident("HashMap"), Punct('<'), Ident("K")];
    assert first[2..] == [Ident("K")];
    assert [Ident("K")][1..] == [];
    assert ParseArgs([Ident("K")]) == None;
    assert ParseSegment(first) == None;
    assert ParseWholeType(first).Err?;
  }

  /** Read with the type parser, the same tokens are the one type `HashMap<K, V>`. */
  lemma ParseTypeListKeepsGenericArguments()
    ensures ParseTypeList(RenderType(TwoArgumentMap())) == Ok([TwoArgumentMap()])
  {
    var t := TwoArgumentMap();
    assert WellFormed(t.segments[0].arguments.args[0]);
    assert WellFormed(t.segments[0].arguments.args[1]);
    assert SegmentWellFormed(t.segments[0]);
    ParseTypeListRoundTrip([t]);
    assert RenderList([t]) == RenderType(t);
  }

  /** `Foo<A,>`: one angle-bracketed argument followed by a trailing comma, as Rust allows. */
  function TrailingArgumentComma(): seq<Token> {
    [Ident("Foo"), Punct('<'), Ident("A"), Punct(','), Punct('>')]
  }

  /** The source cuts `Foo<A,>` into `Foo<A` and `>`, and `Foo<A` does not parse. */
  lemma AsWrittenRejectsTrailingArgumentComma()
    ensures Pieces(TrailingArgumentComma()) == [[Ident("Foo"), Punct('<'), Ident("A")], [Punct('>')]]
    ensures ParsePieces(Pieces(TrailingArgumentComma())).Err?
  {
    var first := [Ident("Foo"), Punct('<'), Ident("A")];
    var ts := TrailingArgumentComma();
    CutAtGathers(first, [Punct(',')] + [Punct('>')], []);
    assert ts == first + ([Punct(',')] + [Punct('>')]);
    assert ([Punct(',')] + [Punct('>')])[1..] == [Punct('>')];
    CutAtGathers([Punct('>')], [], []);
    assert [Punct('>')] + [] == [Punct('>')] && [] + first == first && [] + [Punct('>')] == [Punct('>')];
    assert first[2..] == [Ident("A")];
    assert [Ident("A")][1..] == [];
    assert ParseArgs([Ident("A")]) == None;
    assert ParseSegment(first) == None;
    assert ParseWholeType(first).Err?;
  }

  /** Read with the type parser, `Foo<A,>` is the one type `Foo<A>`. */
  lemma ParseTypeListAcceptsTrailingArgumentComma()
    ensures ParseTypeList(TrailingArgumentComma()) ==
      Ok([Path([PathSegment("Foo", AngleBracketed([Path([PathSegment("A", NoArguments)])]))])])
  {
    var ts := TrailingArgumentComma();
    var a := Path([PathSegment("A", NoArguments)]);
    assert ts[2..] == [Ident("A"), Punct(','), Punct('>')];
    assert ParseSegment(ts[2..]) == Some((PathSegment("A", NoArguments), [Punct(','), Punct('>')]));
    assert ParsePath(ts[2..]) == Some(([PathSegment("A", NoArguments)], [Punct(','), Punct('>')]));
    assert ParseType(ts[2..]) == Some((a, [Punct(','), Punct('>')]));
    assert [Punct(','), Punct('>')][1..] == [Punct('>')];
    assert ParseArgs([Punct('>')]) == Some(([], []));
    assert [a] + [] == [a];
    assert ParseArgs(ts[2..]) == Some(([a], []));
  }

  // ----- Generic arguments and the emitted impls -----

  /** The angle-bracketed argument lists of the segments, in order (`filter_map`). */
  function AngleArgumentLists(segments: seq<PathSegment>): seq<seq<Type>>
    decreases |segments|
  {
    if |segments| == 0 then []
    else
      (match segments[0].arguments
       case AngleBracketed(args) => [args]
       case NoArguments => [])
      + AngleArgumentLists(segments[1..])
  }

  /** `get_generic_args`: the angle-bracketed arguments of the last segment that has any. */
  function GetGenericArgs(t: Type): Option<seq<Type>> {
    if t.Path? then Last(AngleArgumentLists(t.segments)) else None
  }

  lemma {:induction false} AngleArgumentListsLast(segments: seq<PathSegment>)
    ensures |AngleArgumentLists(segments)| == 0 <==>
      forall i :: 0 <= i < |segments| ==> segments[i].arguments.NoArguments?
    ensures |AngleArgumentLists(segments)| > 0 ==>
      exists i :: 0 <= i < |segments|
        && segments[i].arguments == AngleBracketed(Last(AngleArgumentLists(segments)).value)
        && forall j :: i < j < |segments| ==> segments[j].arguments.NoArguments?
    decreases |segments|
  {
    if |segments| > 0 {
      var tail := segments[1..];
      AngleArgumentListsLast(tail);
      var lists := AngleArgumentLists(segments);
      if |AngleArgumentLists(tail)| > 0 {
        var i' :| 0 <= i' < |tail|
          && tail[i'].arguments == AngleBracketed(Last(AngleArgumentLists(tail)).value)
          && forall j :: i' < j < |tail| ==> tail[j].arguments.NoArguments?;
        assert Last(lists) == Last(AngleArgumentLists(tail));
        assert segments[i' + 1] == tail[i'];
        forall j | i' + 1 < j < |segments| ensures segments[j].arguments.NoArguments? {
          assert segments[j] == tail[j - 1];
        }
      } else {
        forall j | 1 <= j < |segments| ensures segments[j].arguments.NoArguments? {
          assert segments[j] == tail[j - 1];
        }
        if segments[0].arguments.AngleBracketed? {
          assert lists == [segments[0].arguments.args];
        }
      }
    }
  }

  /**
   * A path type gets the arguments of its last segment that carries angle
   * arguments, and later segments carry none; a path without any, and every
   * other type, gets no generics.
   */
  lemma GetGenericArgsPicksLast(t: Type)
    ensures GetGenericArgs(t).Some? <==>
      t.Path? && exists i :: 0 <= i < |t.segments| && t.segments[i].arguments.AngleBracketed?
    ensures GetGenericArgs(t).Some? ==>
      exists i :: 0 <= i < |t.segments|
        && t.segments[i].arguments == AngleBracketed(GetGenericArgs(t).value)
        && forall j :: i < j < |t.segments| ==> t.segments[j].arguments.NoArguments?
  {
    if t.Path? {
      AngleArgumentListsLast(t.segments);
    }
  }

  /**
   * One emitted `impl <generics> <prefix>::as_future::NonFutureAsFuture for
   * <type>`, whose `as_future(self)` is `<prefix>::as_future::ready(self)`.
   */
  datatype NonFutureImpl = NonFutureImpl(generics: Option<seq<Type>>, cratePrefix: string, selfType: Type)

  function ImplFor(t: Type, cratePrefix: string): NonFutureImpl {
    NonFutureImpl(GetGenericArgs(t), cratePrefix, t)
  }

  /** The second loop of `as_future_impl`: one impl per type, in order. */
  method EmitImpls(types: seq<Type>, cratePrefix: string) returns (output: seq<NonFutureImpl>)
    ensures |output| == |types|
    ensures forall i :: 0 <= i < |types| ==>
      output[i].selfType == types[i] && output[i].cratePrefix == cratePrefix
      && output[i].generics == GetGenericArgs(types[i])
  {
    output := [];
    var i := 0;
    while i < |types|
      invariant 0 <= i <= |types|
      invariant |output| == i
      invariant forall k :: 0 <= k < i ==> output[k] == ImplFor(types[k], cratePrefix)
    {
      output := output + [ImplFor(types[i], cratePrefix)];
      i := i + 1;
    }
  }

  /** The impls for a list of types, one per type, in order. */
  function ImplsFor(types: seq<Type>, cratePrefix: string): seq<NonFutureImpl> {
    seq(|types|, i requires 0 <= i < |types| => ImplFor(types[i], cratePrefix))
  }

  /**
   * `as_future_impl`: read the list, then emit an impl for each type.  The
   * list is read with `ParseTypeList`; `CollectTypesAsWritten` is the
   * source's cutting, which agrees with it on every list without a `,`
   * between angle-bracketed arguments (`AsWrittenRoundTrip`).
   */
  method AsFutureImpl(input: seq<Token>, cratePrefix: string) returns (output: Result<seq<NonFutureImpl>, ParseError>)
    ensures ParseTypeList(input).Err? ==> output == Err(ParseTypeList(input).error)
    ensures ParseTypeList(input).Ok? ==> output == Ok(ImplsFor(ParseTypeList(input).value, cratePrefix))
  {
    var types := ParseTypeList(input);
    if types.Err? {
      return Err(types.error);
    }
    var impls := EmitImpls(types.value, cratePrefix);
    assert impls == ImplsFor(types.value, cratePrefix);
    output := Ok(impls);
  }

  /** `as_future!`, for crates that depend on `implicit_await`. */
  method AsFuture(input: seq<Token>) returns (output: Result<seq<NonFutureImpl>, ParseError>)
    ensures ParseTypeList(input).Err? ==> output == Err(ParseTypeList(input).error)
    ensures ParseTypeList(input).Ok? ==> output == Ok(ImplsFor(ParseTypeList(input).value, "implicit_await"))
  {
    output := AsFutureImpl(input, "implicit_await");
  }

  /** `as_future_internal!`, for use inside the `implicit_await` crate itself. */
  method AsFutureInternal(input: seq<Token>) returns (output: Result<seq<NonFutureImpl>, ParseError>)
    ensures ParseTypeList(input).Err? ==> output == Err(ParseTypeList(input).error)
    ensures ParseTypeList(input).Ok? ==> output == Ok(ImplsFor(ParseTypeList(input).value, "crate"))
  {
    output := AsFutureImpl(input, "crate");
  }

  /** A written list of types gives one impl per type, in the order written. */
  method AsFutureImplOfList(types: seq<Type>, cratePrefix: string) returns (output: Result<seq<NonFutureImpl>, ParseError>)
    requires AllWellFormed(types)
    ensures output.Ok? && |output.value| == |types|
    ensures forall i :: 0 <= i < |types| ==>
      output.value[i].selfType == types[i] && output.value[i].generics == GetGenericArgs(types[i])
  {
    ParseTypeListRoundTrip(types);
    output := AsFutureImpl(RenderList(types), cratePrefix);
  }
}
