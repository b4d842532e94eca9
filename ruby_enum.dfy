/** The Enumerable searches the application uses: `find`, `any?` and `none?`. */
module RubyEnum {
  import opened Wrappers

  /** Enumerable#find: the first element, in order, that satisfies `p`, or `nil`. */
  function Find<T>(xs: seq<T>, p: T -> bool): (r: Option<T>)
    ensures r.None? <==> forall i :: 0 <= i < |xs| ==> !p(xs[i])
    ensures r.Some? ==> exists i :: 0 <= i < |xs| && xs[i] == r.value && p(xs[i])
                                    && forall j :: 0 <= j < i ==> !p(xs[j])
  {
    if xs == [] then None
    else if p(xs[0]) then Some(xs[0])
    else
      var r := Find(xs[1..], p);
      assert forall i :: 0 < i < |xs| ==> xs[i] == xs[1..][i - 1];
      r
  }

  /** Enumerable#any?: some element satisfies `p`. */
  function Any<T>(xs: seq<T>, p: T -> bool): (r: bool)
    ensures r <==> exists i :: 0 <= i < |xs| && p(xs[i])
  {
    if xs == [] then false
    else
      assert forall i :: 0 < i < |xs| ==> xs[i] == xs[1..][i - 1];
      p(xs[0]) || Any(xs[1..], p)
  }

  /** Enumerable#none?: no element satisfies `p`. */
  function NoneOf<T>(xs: seq<T>, p: T -> bool): (r: bool)
    ensures r <==> forall i :: 0 <= i < |xs| ==> !p(xs[i])
  {
    !Any(xs, p)
  }

  /** `none?` holds exactly when `find` finds nothing. */
  lemma NoneOfIffFindFails<T>(xs: seq<T>, p: T -> bool)
    ensures NoneOf(xs, p) <==> Find(xs, p).None?
  {
  }
}
