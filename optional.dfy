/** Absent values and error returns, used in place of Python's None and exceptions. */
module Optional {

  datatype Option<+T> = None | Some(value: T)

  datatype Result<+T, +E> = Ok(value: T) | Err(error: E)

  /** The defined results of `f` over `xs`, in order (a list comprehension with a filter). */
  function FilterMap<A, B>(f: A -> Option<B>, xs: seq<A>): (ys: seq<B>)
    ensures |ys| <= |xs|
  {
    if xs == [] then []
    else (match f(xs[0]) case Some(y) => [y] case None => []) + FilterMap(f, xs[1..])
  }

  /** Filtering keeps order: the results of a concatenation concatenate. */
  lemma {:induction false} FilterMapAppend<A, B>(f: A -> Option<B>, xs: seq<A>, ys: seq<A>)
    ensures FilterMap(f, xs + ys) == FilterMap(f, xs) + FilterMap(f, ys)
  {
    if xs == [] {
      assert xs + ys == ys;
    } else {
      assert (xs + ys)[0] == xs[0] && (xs + ys)[1..] == xs[1..] + ys;
      FilterMapAppend(f, xs[1..], ys);
    }
  }

  /** Filtering one more element appends that element's result, if it has one. */
  lemma FilterMapStep<A, B>(f: A -> Option<B>, xs: seq<A>, i: nat)
    requires i < |xs|
    ensures FilterMap(f, xs[..i + 1]) ==
      FilterMap(f, xs[..i]) + (match f(xs[i]) case Some(y) => [y] case None => [])
  {
    assert xs[..i + 1] == xs[..i] + [xs[i]];
    FilterMapAppend(f, xs[..i], [xs[i]]);
    assert [xs[i]][1..] == [];
  }

  /** Every result comes from some element, and every defined element gives its result. */
  lemma {:induction false} FilterMapMembers<A, B>(f: A -> Option<B>, xs: seq<A>)
    ensures forall y :: y in FilterMap(f, xs) ==> exists i :: 0 <= i < |xs| && f(xs[i]) == Some(y)
    ensures forall i :: 0 <= i < |xs| && f(xs[i]).Some? ==> f(xs[i]).value in FilterMap(f, xs)
  {
    if xs != [] {
      FilterMapMembers(f, xs[1..]);
      forall y | y in FilterMap(f, xs[1..]) ensures exists i :: 0 <= i < |xs| && f(xs[i]) == Some(y) {
        var i :| 0 <= i < |xs[1..]| && f(xs[1..][i]) == Some(y);
        assert f(xs[i + 1]) == Some(y);
      }
      forall i | 1 <= i < |xs| && f(xs[i]).Some? ensures f(xs[i]).value in FilterMap(f, xs) {
        assert xs[1..][i - 1] == xs[i];
      }
    }
  }

  /**
   Results gathered in order: all the values when every result is one, else
   the error of the first result that is an error (a loop that stops at the
   first exception).
   */
  function CollectOk<T, E>(rs: seq<Result<T, E>>): (r: Result<seq<T>, E>)
    ensures r.Ok? <==> forall i :: 0 <= i < |rs| ==> rs[i].Ok?
    ensures r.Ok? ==> |r.value| == |rs| && forall i :: 0 <= i < |rs| ==> r.value[i] == rs[i].value
  {
    if rs == [] then Ok([])
    else
      var init := rs[..|rs| - 1];
      match CollectOk(init)
      case Err(e) =>
        assert exists i :: 0 <= i < |init| && init[i].Err?;
        Err(e)
      case Ok(vs) =>
        match rs[|rs| - 1]
        case Err(e) => Err(e)
        case Ok(v) => Ok(vs + [v])
  }

  /** The error gathered is that of the first result that is an error. */
  lemma {:induction false} CollectOkFirstError<T, E>(rs: seq<Result<T, E>>)
    requires CollectOk(rs).Err?
    ensures exists i ::
      && 0 <= i < |rs| && rs[i] == Err(CollectOk(rs).error)
      && forall j :: 0 <= j < i ==> rs[j].Ok?
  {
    var init := rs[..|rs| - 1];
    if CollectOk(init).Err? {
      CollectOkFirstError(init);
      var i :|
        && 0 <= i < |init| && init[i] == Err(CollectOk(init).error)
        && forall j :: 0 <= j < i ==> init[j].Ok?;
      assert rs[i] == init[i];
      assert forall j :: 0 <= j < i ==> rs[j] == init[j];
    } else {
      assert forall j :: 0 <= j < |rs| - 1 ==> rs[j] == init[j];
    }
  }

  /** Gathering one more result: the values so far extended by it, or its error. */
  lemma CollectOkStep<T, E>(rs: seq<Result<T, E>>, i: nat)
    requires i < |rs| && CollectOk(rs[..i]).Ok?
    ensures CollectOk(rs[..i + 1]) ==
      match rs[i]
      case Err(e) => Err(e)
      case Ok(v) => Ok(CollectOk(rs[..i]).value + [v])
  {
    assert rs[..i + 1][..i] == rs[..i];
  }
}
