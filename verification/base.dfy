/** Shared vocabulary of the model: optional values, the three outcomes of a
    network request, the string operations the pages use for searching, and
    the sequence combinators (`filter`, `find`) the pages apply to their lists.
 */
module Base {

  datatype Option<+T> = None | Some(value: T)

  /** The outcome of one `fetch` call: a 2xx response carrying its parsed
      body, a non-2xx response, or a request that threw (network failure). */
  datatype Response<+T> = Ok(payload: T) | NotOk | Threw

  /** The status line a form shows after a submit. */
  datatype SubmitStatus = Idle | Success | Error

  /** The admin login route, where pages send visitors who are not admins. */
  const LoginRoute := "/login"

  // ---------------------------------------------------------------------
  // Strings
  // ---------------------------------------------------------------------

  /** JavaScript truthiness of a string: only the empty string is falsy. */
  predicate Truthy(s: string) {
    s != ""
  }

  /** `a || b` on strings. */
  function OrElse(a: string, b: string): (r: string)
    ensures r == a || r == b
    ensures Truthy(a) ==> r == a
    ensures !Truthy(a) ==> r == b
  {
    if Truthy(a) then a else b
  }

  /** `m[k]` on a plain object of strings, with a missing key reading as the
      falsy `undefined`, written here as "". */
  function Prop(m: map<string, string>, k: string): (v: string)
    ensures k in m ==> v == m[k]
    ensures k !in m ==> v == ""
  {
    if k in m then m[k] else ""
  }

  function LowerChar(c: char): (d: char)
    ensures 'A' <= c <= 'Z' ==> d as int == c as int + 32
    ensures !('A' <= c <= 'Z') ==> d == c
    ensures !('A' <= d <= 'Z')
  {
    if 'A' <= c <= 'Z' then (c as int + 32) as char else c
  }

  /** `toLowerCase`, restricted to ASCII letters. */
  function Lower(s: string): (r: string)
    ensures |r| == |s|
    ensures forall i :: 0 <= i < |s| ==> r[i] == LowerChar(s[i])
  {
    seq(|s|, i requires 0 <= i < |s| => LowerChar(s[i]))
  }

  lemma LowerIdempotent(s: string)
    ensures Lower(Lower(s)) == Lower(s)
  {
    var l := Lower(s);
    assert forall i :: 0 <= i < |l| ==> LowerChar(l[i]) == l[i];
  }

  /** `needle` occurs in `hay` at position `i`. */
  predicate OccursAt(hay: string, needle: string, i: int) {
    0 <= i && i + |needle| <= |hay| && hay[i..i + |needle|] == needle
  }

  /** `hay.includes(needle)`. */
  predicate Includes(hay: string, needle: string) {
    exists i | 0 <= i <= |hay| - |needle| :: OccursAt(hay, needle, i)
  }

  lemma IncludesEmpty(hay: string)
    ensures Includes(hay, "")
  {
    assert OccursAt(hay, "", 0);
  }

  // ---------------------------------------------------------------------
  // Sequences
  // ---------------------------------------------------------------------

  /** `a` is obtained from `b` by deleting elements: order is kept and
      nothing is invented. */
  predicate IsSubsequence<T(==)>(a: seq<T>, b: seq<T>)
    decreases |b|
  {
    a == [] ||
    (b != [] &&
     ((a[0] == b[0] && IsSubsequence(a[1..], b[1..])) || IsSubsequence(a, b[1..])))
  }

  /** `s.filter(p)`. */
  function Filter<T>(s: seq<T>, p: T -> bool): (r: seq<T>)
    ensures |r| <= |s|
    ensures forall i :: 0 <= i < |r| ==> p(r[i])
  {
    if s == [] then []
    else if p(s[0]) then [s[0]] + Filter(s[1..], p)
    else Filter(s[1..], p)
  }

  lemma {:induction false} FilterIsSubsequence<T>(s: seq<T>, p: T -> bool)
    ensures IsSubsequence(Filter(s, p), s)
  {
    if s != [] {
      FilterIsSubsequence(s[1..], p);
      var rest := Filter(s[1..], p);
      if p(s[0]) {
        assert Filter(s, p) == [s[0]] + rest;
        assert ([s[0]] + rest)[1..] == rest;
      }
    }
  }

  lemma {:induction false} FilterMembership<T>(s: seq<T>, p: T -> bool, x: T)
    ensures x in Filter(s, p) <==> x in s && p(x)
  {
    if s != [] {
      FilterMembership(s[1..], p, x);
      assert s == [s[0]] + s[1..];
    }
  }

  /** `filter` keeps every copy of a satisfying element and no copy of any other. */
  lemma {:induction false} FilterMultiplicity<T>(s: seq<T>, p: T -> bool, x: T)
    ensures multiset(Filter(s, p))[x] == if p(x) then multiset(s)[x] else 0
  {
    if s != [] {
      FilterMultiplicity(s[1..], p, x);
      assert s == [s[0]] + s[1..];
      assert multiset(s) == multiset{s[0]} + multiset(s[1..]);
    }
  }

  /** Filtering is idempotent: a second pass with the same predicate keeps everything. */
  lemma {:induction false} FilterIdempotent<T>(s: seq<T>, p: T -> bool)
    ensures Filter(Filter(s, p), p) == Filter(s, p)
  {
    FilterKeepsAll(Filter(s, p), p);
  }

  /** A predicate every element satisfies filters nothing out. */
  lemma {:induction false} FilterKeepsAll<T>(s: seq<T>, p: T -> bool)
    requires forall i :: 0 <= i < |s| ==> p(s[i])
    ensures Filter(s, p) == s
  {
    if s != [] {
      FilterKeepsAll(s[1..], p);
      assert [s[0]] + s[1..] == s;
    }
  }

  /** Filtering by `p` and by its negation `q` splits the list: the two
      lengths add up to the whole. */
  lemma {:induction false} FilterSplitsLength<T>(s: seq<T>, p: T -> bool, q: T -> bool)
    requires forall x :: q(x) <==> !p(x)
    ensures |Filter(s, p)| + |Filter(s, q)| == |s|
  {
    if s != [] {
      FilterSplitsLength(s[1..], p, q);
    }
  }

  /** Filters by predicates that agree everywhere give the same list. */
  lemma {:induction false} FilterSamePredicate<T>(s: seq<T>, p: T -> bool, q: T -> bool)
    requires forall x :: p(x) == q(x)
    ensures Filter(s, p) == Filter(s, q)
  {
    if s != [] {
      FilterSamePredicate(s[1..], p, q);
    }
  }

  /** Filtering a list extended at the end. */
  lemma {:induction false} FilterSnoc<T>(s: seq<T>, x: T, p: T -> bool)
    ensures Filter(s + [x], p) == Filter(s, p) + (if p(x) then [x] else [])
  {
    if s == [] {
      assert [] + [x] == [x];
      assert [x][1..] == [];
    } else {
      assert (s + [x])[1..] == s[1..] + [x];
      FilterSnoc(s[1..], x, p);
    }
  }

  /** `s.find(p)`: the first element satisfying `p`, if any. */
  function FindFirst<T>(s: seq<T>, p: T -> bool): (r: Option<T>)
    ensures r.Some? <==> exists i :: 0 <= i < |s| && p(s[i])
    ensures r.Some? ==> exists i :: 0 <= i < |s| && s[i] == r.value && p(s[i]) &&
                                    forall j :: 0 <= j < i ==> !p(s[j])
  {
    if s == [] then None
    else if p(s[0]) then Some(s[0])
    else
      var r := FindFirst(s[1..], p);
      assert forall i :: 1 <= i < |s| ==> s[i] == s[1..][i - 1];
      r
  }

  /** `s.some(p)`. */
  predicate Any<T>(s: seq<T>, p: T -> bool) {
    exists i :: 0 <= i < |s| && p(s[i])
  }
}
