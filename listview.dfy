/** The list view-model every management screen shares: filtering a fetched
    collection, slicing it into fixed-size pages, and reading the GetAll
    response envelope. */
module ListView {
  import opened Text

  // ---------------------------------------------------------------- filtering

  /** `xs.filter(p)`. */
  function Filter<T>(xs: seq<T>, p: T -> bool): (r: seq<T>)
    ensures |r| <= |xs|
  {
    if xs == [] then []
    else (if p(xs[0]) then [xs[0]] else []) + Filter(xs[1..], p)
  }

  /** `r` can be obtained from `xs` by deleting elements, the rest keeping their order. */
  predicate IsSubsequence<T(==)>(r: seq<T>, xs: seq<T>)
    decreases |xs|
  {
    if r == [] then true
    else if xs == [] then false
    else if r[0] == xs[0] then IsSubsequence(r[1..], xs[1..])
    else IsSubsequence(r, xs[1..])
  }

  lemma {:induction false} FilterIsSubsequence<T>(xs: seq<T>, p: T -> bool)
    ensures IsSubsequence(Filter(xs, p), xs)
    decreases |xs|
  {
    if xs != [] {
      FilterIsSubsequence(xs[1..], p);
      if p(xs[0]) {
        assert Filter(xs, p) == [xs[0]] + Filter(xs[1..], p);
        assert Filter(xs, p)[1..] == Filter(xs[1..], p);
      } else {
        assert Filter(xs, p) == Filter(xs[1..], p);
        SubsequenceOfTail(Filter(xs[1..], p), xs);
      }
    }
  }

  /** A subsequence of the tail is a subsequence of the whole list. */
  lemma {:induction false} SubsequenceOfTail<T>(r: seq<T>, xs: seq<T>)
    requires xs != []
    requires IsSubsequence(r, xs[1..])
    ensures IsSubsequence(r, xs)
    decreases |xs|, 0
  {
    if r != [] && r[0] == xs[0] {
      SubsequenceDropHead(r, xs[1..]);
    }
  }

  /** A subsequence stays one after its first element is removed. */
  lemma {:induction false} SubsequenceDropHead<T>(r: seq<T>, xs: seq<T>)
    requires r != []
    requires IsSubsequence(r, xs)
    ensures IsSubsequence(r[1..], xs)
    decreases |xs|, 1
  {
    if r[0] == xs[0] {
      if r[1..] != [] {
        SubsequenceOfTail(r[1..], xs);
      }
    } else {
      SubsequenceDropHead(r, xs[1..]);
      SubsequenceOfTail(r[1..], xs);
    }
  }

  /** Exactly the elements satisfying `p` survive, each as often as in the input. */
  lemma {:induction false} FilterCounts<T>(xs: seq<T>, p: T -> bool, x: T)
    ensures multiset(Filter(xs, p))[x] == if p(x) then multiset(xs)[x] else 0
    decreases |xs|
  {
    if xs != [] {
      FilterCounts(xs[1..], p, x);
      assert xs == [xs[0]] + xs[1..];
    }
  }

  lemma {:induction false} FilterMembers<T>(xs: seq<T>, p: T -> bool, x: T)
    ensures x in Filter(xs, p) <==> x in xs && p(x)
  {
    FilterCounts(xs, p, x);
    assert x in Filter(xs, p) <==> multiset(Filter(xs, p))[x] > 0;
    assert x in xs <==> multiset(xs)[x] > 0;
  }

  /** A filter that rejects nothing leaves the list as it was. */
  lemma {:induction false} FilterKeepsAll<T>(xs: seq<T>, p: T -> bool)
    requires forall i :: 0 <= i < |xs| ==> p(xs[i])
    ensures Filter(xs, p) == xs
    decreases |xs|
  {
    if xs != [] {
      FilterKeepsAll(xs[1..], p);
    }
  }

  // --------------------------------------------------------------- pagination

  /** `Math.ceil(n / size)`. */
  function TotalPages(n: nat, size: nat): (r: nat)
    requires size > 0
    ensures r * size >= n
    ensures n > 0 ==> (r - 1) * size < n
    ensures n == 0 <==> r == 0
  {
    var r := (n + size - 1) / size;
    DivisionBounds(n + size - 1, size);
    r
  }

  lemma DivisionBounds(a: nat, b: nat)
    requires b > 0
    ensures (a / b) * b <= a < (a / b) * b + b
  {
  }

  function Min(a: int, b: int): int {
    if a <= b then a else b
  }

  /** `xs.slice((page - 1) * size, page * size)`, the items shown on page `page`. */
  function PageSlice<T>(xs: seq<T>, page: nat, size: nat): (r: seq<T>)
    requires page >= 1 && size > 0
    ensures |r| <= size
  {
    var lo := Min((page - 1) * size, |xs|);
    var hi := Min(page * size, |xs|);
    PageFacts(page, size);
    xs[lo..hi]
  }

  lemma PageFacts(page: nat, size: nat)
    requires page >= 1
    ensures (page - 1) * size >= 0
    ensures page * size == (page - 1) * size + size
  {
  }

  /** Pages 1 .. `k` laid end to end. */
  function PagesUpTo<T>(xs: seq<T>, size: nat, k: nat): seq<T>
    requires size > 0
  {
    if k == 0 then [] else PagesUpTo(xs, size, k - 1) + PageSlice(xs, k, size)
  }

  lemma {:induction false} PagesUpToIsPrefix<T>(xs: seq<T>, size: nat, k: nat)
    requires size > 0
    ensures PagesUpTo(xs, size, k) == xs[..Min(k * size, |xs|)]
  {
    if k > 0 {
      PagesUpToIsPrefix(xs, size, k - 1);
      PageFacts(k, size);
    }
  }

  /** Concatenating pages 1 .. TotalPages gives back the whole list: nothing is lost,
      repeated or reordered by paging. */
  lemma PagesPartition<T>(xs: seq<T>, size: nat)
    requires size > 0
    ensures PagesUpTo(xs, size, TotalPages(|xs|, size)) == xs
  {
    PagesUpToIsPrefix(xs, size, TotalPages(|xs|, size));
  }

  /** Every page up to TotalPages shows something; every later page is empty. */
  lemma PageNonEmptyIff<T>(xs: seq<T>, page: nat, size: nat)
    requires page >= 1 && size > 0
    ensures PageSlice(xs, page, size) != [] <==> page <= TotalPages(|xs|, size)
  {
    var t := TotalPages(|xs|, size);
    PageFacts(page, size);
    if page <= t {
      MulMonotone(page - 1, t - 1, size);
    } else {
      MulMonotone(t, page - 1, size);
    }
  }

  lemma MulMonotone(a: nat, b: nat, c: nat)
    requires a <= b
    ensures a * c <= b * c
  {
  }

  /** Item `i` of page `page` is item `(page - 1) * size + i` of the list. */
  lemma PageItem<T>(xs: seq<T>, page: nat, size: nat, i: nat)
    requires page >= 1 && size > 0
    requires i < |PageSlice(xs, page, size)|
    ensures (page - 1) * size + i < |xs|
    ensures PageSlice(xs, page, size)[i] == xs[(page - 1) * size + i]
  {
    PageFacts(page, size);
  }

  /** The "previous page" button: disabled on page 1 and while a request is running. */
  function PrevPage(page: nat, busy: bool): (r: nat)
    ensures page >= 1 ==> r >= 1
    ensures r == page || r == page - 1
    ensures page > 1 && !busy ==> r == page - 1
    ensures busy || page <= 1 ==> r == page
  {
    if page <= 1 || busy then page else page - 1
  }

  /** The "next page" button: disabled on the last page and while a request is running. */
  function NextPage(page: nat, totalPages: nat, busy: bool): (r: nat)
    ensures r == page || r == page + 1
    ensures page != totalPages && !busy ==> r == page + 1
    ensures page == totalPages || busy ==> r == page
  {
    if page == totalPages || busy then page else page + 1
  }

  /** Starting from a page in 1 .. totalPages the pager never leaves that range, and
      "next" followed by "previous" comes back to the page it started on. */
  lemma PagerStaysInRange(page: nat, totalPages: nat, busy: bool)
    requires 1 <= page <= totalPages
    ensures 1 <= PrevPage(page, busy) <= totalPages
    ensures 1 <= NextPage(page, totalPages, busy) <= totalPages
    ensures page < totalPages ==> PrevPage(NextPage(page, totalPages, false), false) == page
    ensures page > 1 ==> NextPage(PrevPage(page, false), totalPages, false) == page
  {
  }

  // ----------------------------------------------------------------- envelopes

  /** The `resource` member of a JSON object reply: absent or falsy (`null`, `0`, `""`,
      `false`), an array, or some other truthy value, on which `.map` and `.sort` throw. */
  datatype Resource<T> = NoResource | ArrayResource(items: seq<T>) | OtherResource

  /** The parsed body of a GetAll reply: a bare array, an object, JSON `null` (reading a
      member of it throws), or any other JSON value (a number, a string or a boolean, whose
      members read as `undefined`). */
  datatype Body<T> = ArrayBody(items: seq<T>) | ObjectBody(success: bool, resource: Resource<T>) | NullBody | OtherBody

  /** The data a GetAll reply carries, whichever envelope the server used: the array itself,
      else its `resource` array, else nothing. */
  function Normalize<T>(body: Body<T>): (r: seq<T>)
    ensures body.ArrayBody? ==> r == body.items
    ensures body.ObjectBody? && body.resource.ArrayResource? ==> r == body.resource.items
    ensures !body.ArrayBody? && !(body.ObjectBody? && body.resource.ArrayResource?) ==> r == []
  {
    match body
    case ArrayBody(items) => items
    case ObjectBody(_, ArrayResource(items)) => items
    case _ => []
  }

  /** `result.success && result.resource`: the resource of a reply that reports success. */
  function SuccessfulResource<T>(body: Body<T>): (r: Option<seq<T>>)
    ensures r.Some? <==> body.ObjectBody? && body.success && body.resource.ArrayResource?
    ensures r.Some? ==> r.value == body.resource.items
  {
    match body
    case ObjectBody(true, ArrayResource(items)) => Some(items)
    case _ => None
  }

  /** A list sent in either envelope the server uses is read back unchanged; only an
      object that reports success passes `SuccessfulResource`. */
  lemma EnvelopeRoundTrip<T>(xs: seq<T>, success: bool)
    ensures Normalize(ArrayBody(xs)) == xs
    ensures Normalize(ObjectBody(success, ArrayResource(xs))) == xs
    ensures SuccessfulResource(ObjectBody(success, ArrayResource(xs))) == if success then Some(xs) else None
    ensures SuccessfulResource(ArrayBody(xs)).None?
  {
  }

  /** The two readers agree wherever the strict one reads anything, and the lenient one
      reads nothing from a reply that carries no array. */
  lemma EnvelopeReadersAgree<T>(body: Body<T>)
    ensures SuccessfulResource(body).Some? ==> Normalize(body) == SuccessfulResource(body).value
    ensures Normalize(body) != [] ==> body.ArrayBody? || (body.ObjectBody? && body.resource.ArrayResource?)
  {
  }
}
