/** Sequence helpers: concatenation, prefix counting and Go's strings.Join. */
module Seqs {

  lemma ConcatAssoc<T>(a: seq<T>, b: seq<T>, c: seq<T>)
    ensures a + b + c == a + (b + c)
  {
  }

  /** Number of elements of `s` that start with `p`. */
  function CountPrefixed(s: seq<string>, p: string): nat
  {
    if s == [] then 0 else (if p <= s[0] then 1 else 0) + CountPrefixed(s[1..], p)
  }

  lemma {:induction false} CountPrefixedConcat(a: seq<string>, b: seq<string>, p: string)
    ensures CountPrefixed(a + b, p) == CountPrefixed(a, p) + CountPrefixed(b, p)
  {
    if a == [] {
      assert a + b == b;
    } else {
      assert (a + b)[0] == a[0];
      assert (a + b)[1..] == a[1..] + b;
      CountPrefixedConcat(a[1..], b, p);
    }
  }

  /** The elements of `s` separated by `sep`, as Go's strings.Join. */
  function Join(s: seq<string>, sep: string): string
  {
    if s == [] then "" else if |s| == 1 then s[0] else s[0] + sep + Join(s[1..], sep)
  }
}
