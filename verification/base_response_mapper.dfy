/** The default `mapOptionalList` of `BaseResponseMapperProtocol`:
    `list?.compactMap(transform) ?? []` with a transform that may throw. */
module ResponseMapper {
  import opened Wrappers

  /** `compactMap`: applies `transform` left to right, keeps the non-`nil`
      results, and stops at the first element whose transform throws. The
      result has at most as many elements as the input. */
  function CompactMap<In, Out, E>(xs: seq<In>, transform: In -> Result<Option<Out>, E>)
    : (r: Result<seq<Out>, E>)
    ensures r.Success? ==> |r.value| <= |xs|
    ensures r.Success? <==> forall i :: 0 <= i < |xs| ==> transform(xs[i]).Success?
  {
    if xs == [] then Success([])
    else
      var head :- transform(xs[0]);
      var tail :- CompactMap(xs[1..], transform);
      Success(if head.Some? then [head.value] + tail else tail)
  }

  /** `mapOptionalList(_:_:)`: an absent list maps to the empty list. */
  function MapOptionalList<In, Out, E>(list: Option<seq<In>>, transform: In -> Result<Option<Out>, E>)
    : (r: Result<seq<Out>, E>)
    ensures list.None? ==> r == Success([])
    ensures list.Some? ==> r == CompactMap(list.value, transform)
  {
    match list
    case None => Success([])
    case Some(xs) => CompactMap(xs, transform)
  }

  /** Order is kept: mapping a concatenation maps the first part, then the
      second, and concatenates; an error in the first part wins. */
  lemma {:induction false} CompactMapAppend<In, Out, E>(xs: seq<In>, ys: seq<In>, transform: In -> Result<Option<Out>, E>)
    ensures CompactMap(xs + ys, transform)
            == match CompactMap(xs, transform)
               case Failure(e) => Failure(e)
               case Success(l) =>
                 match CompactMap(ys, transform)
                 case Failure(e) => Failure(e)
                 case Success(m) => Success(l + m)
  {
    if xs == [] {
      assert xs + ys == ys;
      if CompactMap(ys, transform).Success? {
        assert [] + CompactMap(ys, transform).value == CompactMap(ys, transform).value;
      }
    } else {
      assert (xs + ys)[0] == xs[0];
      assert (xs + ys)[1..] == xs[1..] + ys;
      CompactMapAppend(xs[1..], ys, transform);
      var head := transform(xs[0]);
      if head.Success? && CompactMap(xs[1..], transform).Success? && CompactMap(ys, transform).Success? {
        var l, m := CompactMap(xs[1..], transform).value, CompactMap(ys, transform).value;
        if head.value.Some? {
          assert [head.value.value] + (l + m) == ([head.value.value] + l) + m;
        }
      }
    }
  }

  /** The thrown error is the one of the first element whose transform
      throws. */
  lemma {:induction false} CompactMapFirstError<In, Out, E>(xs: seq<In>, transform: In -> Result<Option<Out>, E>, i: nat)
    requires i < |xs| && transform(xs[i]).Failure?
    requires forall j :: 0 <= j < i ==> transform(xs[j]).Success?
    ensures CompactMap(xs, transform) == Failure(transform(xs[i]).error)
  {
    if i > 0 {
      CompactMapFirstError(xs[1..], transform, i - 1);
    }
  }

  /** When the transform never throws and never returns `nil`, the result is
      the transform applied element by element. */
  lemma {:induction false} CompactMapAllPresent<In, Out, E>(xs: seq<In>, transform: In -> Result<Option<Out>, E>)
    requires forall i :: 0 <= i < |xs| ==> transform(xs[i]).Success? && transform(xs[i]).value.Some?
    ensures CompactMap(xs, transform).Success?
    ensures |CompactMap(xs, transform).value| == |xs|
    ensures forall i :: 0 <= i < |xs| ==> CompactMap(xs, transform).value[i] == transform(xs[i]).value.value
  {
    if xs != [] {
      CompactMapAllPresent(xs[1..], transform);
      var tail := CompactMap(xs[1..], transform).value;
      assert CompactMap(xs, transform).value == [transform(xs[0]).value.value] + tail;
      forall i | 1 <= i < |xs|
        ensures CompactMap(xs, transform).value[i] == transform(xs[i]).value.value
      {
        assert xs[1..][i - 1] == xs[i];
      }
    }
  }

  /** The number of elements whose transform returns a value. */
  function PresentCount<In, Out, E>(xs: seq<In>, transform: In -> Result<Option<Out>, E>): nat
    requires forall i :: 0 <= i < |xs| ==> transform(xs[i]).Success?
  {
    if xs == [] then 0
    else (if transform(xs[0]).value.Some? then 1 else 0) + PresentCount(xs[1..], transform)
  }

  /** When the transform never throws, `nil` results are dropped and the rest
      kept, so the result is as long as the number of non-`nil` results. */
  lemma {:induction false} CompactMapLength<In, Out, E>(xs: seq<In>, transform: In -> Result<Option<Out>, E>)
    requires forall i :: 0 <= i < |xs| ==> transform(xs[i]).Success?
    ensures CompactMap(xs, transform).Success?
    ensures |CompactMap(xs, transform).value| == PresentCount(xs, transform)
  {
    if xs != [] {
      CompactMapLength(xs[1..], transform);
    }
  }

  function DoubleIfAboveOne(x: int): Result<Option<int>, ()> {
    if x > 1 then Success(Some(2 * x)) else Success(None)
  }

  /** [1, 2, 3] with `x > 1 ? 2x : nil` gives [4, 6]. */
  lemma DoublesAboveOne()
    ensures MapOptionalList(Some([1, 2, 3]), DoubleIfAboveOne) == Success([4, 6])
  {
    var one: seq<int> := [3];
    assert one[0] == 3 && one[1..] == [];
    assert CompactMap(one, DoubleIfAboveOne) == Success([6] + []);
    assert [6] + [] == [6];
    var two: seq<int> := [2, 3];
    assert two[0] == 2 && two[1..] == one;
    assert CompactMap(two, DoubleIfAboveOne) == Success([4] + [6]);
    assert [4] + [6] == [4, 6];
    var xs: seq<int> := [1, 2, 3];
    assert xs[0] == 1 && xs[1..] == two;
  }
}
