/** The result of polling a future. */
module Task {
  datatype Poll<T> = Ready(value: T) | Pending
}

/**
 * The two conversions the rewritten call sites use: a future converts to
 * itself, and any other value is wrapped in a `Ready` future that hands the
 * value over on its first poll.
 */
module AsFuture {
  import opened Wrappers
  import opened Tokens
  import Task
  import TypeList

  /** `FutureAsFuture::as_future`: a future is its own conversion. */
  function FutureAsFuture<F>(future: F): (r: F)
    ensures r == future
  {
    future
  }

  /** A future that is ready at once; the slot holds the value until it is polled. */
  class Ready<T> {
    var slot: Option<T>

    /** The tuple constructor `Ready(slot)`. */
    constructor (slot: Option<T>)
      ensures this.slot == slot
    {
      this.slot := slot;
    }

    /**
     * `poll`: take the value out of the slot and return it as ready.  The
     * context is not used and the result is never `Pending`; polling an empty
     * slot panics in the source, so the slot must be full.
     */
    method Poll() returns (p: Task.Poll<T>)
      requires slot.Some?
      modifies this
      ensures p == Task.Ready(old(slot).value)
      ensures slot == None
    {
      var taken := slot;
      slot := None;
      p := Task.Ready(taken.value);
    }
  }

  /** `ready(t)`: a `Ready` whose slot holds `t`. */
  method MakeReady<T>(t: T) returns (f: Ready<T>)
    ensures fresh(f) && f.slot == Some(t)
  {
    f := new Ready(Some(t));
  }

  /** The hand-written `NonFutureAsFuture` for `Result<T, E>`: `ready(self)`. */
  method ResultAsFuture<T, E>(value: Result<T, E>) returns (f: Ready<Result<T, E>>)
    ensures fresh(f) && f.slot == Some(value)
  {
    f := MakeReady(value);
  }

  /**
   * A value made ready and then polled: the poll gives back exactly the
   * value, and the slot is empty afterwards, so a second poll is excluded.
   */
  method ReadyThenPoll<T>(t: T) returns (p: Task.Poll<T>, left: Option<T>)
    ensures p == Task.Ready(t) && !p.Pending?
    ensures left == None
  {
    var f := MakeReady(t);
    p := f.Poll();
    left := f.slot;
  }

  /** `{ result }.as_future().await` on a `Result` yields the same `Result`. */
  method PollResultAsFuture<T, E>(value: Result<T, E>) returns (p: Task.Poll<Result<T, E>>)
    ensures p == Task.Ready(value)
  {
    var f := ResultAsFuture(value);
    p := f.Poll();
  }

  // ----- The built-in list of plain types -----

  function Simple(name: string): Type {
    Path([PathSegment(name, NoArguments)])
  }

  function TypeParameterT(): Type {
    Simple("T")
  }

  /** The types registered with `as_future_internal!`, in the order listed. */
  function BuiltinTypes(): seq<Type> {
    [ Simple("String"), Reference(Simple("str")), Grouped(Parenthesis, []),
      Simple("u8"), Simple("i8"), Simple("u16"), Simple("i16"), Simple("u32"), Simple("i32"),
      Simple("u64"), Simple("i64"), Simple("u128"), Simple("i128"), Simple("usize"), Simple("isize"),
      Path([PathSegment("std", NoArguments), PathSegment("io", NoArguments),
            PathSegment("BufReader", AngleBracketed([TypeParameterT()]))]),
      Path([PathSegment("std", NoArguments), PathSegment("option", NoArguments),
            PathSegment("Option", AngleBracketed([TypeParameterT()]))]) ]
  }

  lemma BuiltinTypesWellFormed()
    ensures TypeList.AllWellFormed(BuiltinTypes())
    ensures forall i :: 0 <= i < |BuiltinTypes()| ==> TypeList.CommaFree(BuiltinTypes()[i])
  {
    var ts := BuiltinTypes();
    assert WellFormed(TypeParameterT()) && TypeList.CommaFree(TypeParameterT());
    assert SegmentWellFormed(ts[15].segments[2]) && SegmentWellFormed(ts[16].segments[2]);
    assert TypeList.SegmentCommaFree(ts[15].segments[2]) && TypeList.SegmentCommaFree(ts[16].segments[2]);
  }

  /** Only the two last types carry angle-bracketed arguments, `<T>` both. */
  lemma BuiltinGenerics()
    ensures forall i :: 0 <= i < 15 ==> TypeList.GetGenericArgs(BuiltinTypes()[i]) == None
    ensures TypeList.GetGenericArgs(BuiltinTypes()[15]) == Some([TypeParameterT()])
    ensures TypeList.GetGenericArgs(BuiltinTypes()[16]) == Some([TypeParameterT()])
  {
    var ts := BuiltinTypes();
    forall i | 0 <= i < 15 ensures TypeList.GetGenericArgs(ts[i]) == None {
      if ts[i].Path? {
        assert |ts[i].segments| == 1 && ts[i].segments[0].arguments.NoArguments?;
        assert TypeList.AngleArgumentLists(ts[i].segments[1..]) == [];
      }
    }
    assert TypeList.AngleArgumentLists(ts[15].segments[2..]) == [[TypeParameterT()]];
    assert TypeList.AngleArgumentLists(ts[15].segments[1..]) == [[TypeParameterT()]];
    assert TypeList.AngleArgumentLists(ts[16].segments[2..]) == [[TypeParameterT()]];
    assert TypeList.AngleArgumentLists(ts[16].segments[1..]) == [[TypeParameterT()]];
  }

  /** What the impls for the built-in list hold, type by type. */
  lemma BuiltinImpls()
    ensures |TypeList.ImplsFor(BuiltinTypes(), "crate")| == 17
    ensures forall i :: 0 <= i < 17 ==>
      TypeList.ImplsFor(BuiltinTypes(), "crate")[i].selfType == BuiltinTypes()[i]
      && TypeList.ImplsFor(BuiltinTypes(), "crate")[i].cratePrefix == "crate"
    ensures forall i :: 0 <= i < 15 ==> TypeList.ImplsFor(BuiltinTypes(), "crate")[i].generics == None
    ensures TypeList.ImplsFor(BuiltinTypes(), "crate")[15].generics == Some([TypeParameterT()])
    ensures TypeList.ImplsFor(BuiltinTypes(), "crate")[16].generics == Some([TypeParameterT()])
  {
    BuiltinGenerics();
  }

  /**
   * The built-in registration emits seventeen impls, one per listed type in
   * order, all with the `crate` prefix; only `BufReader<T>` and `Option<T>`
   * are generic, over `<T>`.  The source's own cutting reads the same list.
   */
  method RegisterBuiltinTypes() returns (output: Result<seq<TypeList.NonFutureImpl>, TypeList.ParseError>)
    ensures output.Ok? && |output.value| == 17
    ensures forall i :: 0 <= i < 17 ==>
      output.value[i].selfType == BuiltinTypes()[i] && output.value[i].cratePrefix == "crate"
    ensures forall i :: 0 <= i < 15 ==> output.value[i].generics == None
    ensures output.value[15].generics == Some([TypeParameterT()])
    ensures output.value[16].generics == Some([TypeParameterT()])
    ensures TypeList.ParsePieces(TypeList.Pieces(RenderList(BuiltinTypes()))) == Ok(BuiltinTypes())
  {
    BuiltinTypesWellFormed();
    TypeList.ParseTypeListRoundTrip(BuiltinTypes());
    TypeList.AsWrittenRoundTrip(BuiltinTypes());
    output := TypeList.AsFutureInternal(RenderList(BuiltinTypes()));
    assert output == Ok(TypeList.ImplsFor(BuiltinTypes(), "crate"));
    BuiltinImpls();
  }
}
