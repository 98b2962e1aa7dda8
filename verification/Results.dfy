/** Optional and failing results, and the two sequence filters every reducer uses. */
module Results {

  datatype Option<+T> = None | Some(value: T)

  datatype Result<+T> = Ok(value: T) | Err(code: string)

  /** The elements of `xs` that satisfy `p`, in their order. */
  function Select<T(!new)>(p: T -> bool, xs: seq<T>): (r: seq<T>)
    ensures forall x :: x in r <==> x in xs && p(x)
    ensures |r| <= |xs|
  {
    if xs == [] then []
    else
      var rest := Select(p, xs[..|xs| - 1]);
      if p(xs[|xs| - 1]) then rest + [xs[|xs| - 1]] else rest
  }

  /** The first element that satisfies `p`, as `Array.find` returns it. */
  function Find<T>(p: T -> bool, xs: seq<T>): (r: Option<T>)
    ensures r.Some? ==> r.value in xs && p(r.value)
    ensures r.None? <==> forall x :: x in xs ==> !p(x)
  {
    if xs == [] then None
    else if p(xs[0]) then Some(xs[0])
    else Find(p, xs[1..])
  }
}
