/** Collection helpers: the first-match scan that choice rules, retry rules and catch
    rules all share ("the first one in declaration order wins"), a maximum, and the
    "nothing else changes" relation between two maps. */
module Seqs {
  import opened Wrappers

  /** Index of the first element satisfying `p`, or None when no element does. */
  function FirstIndex<T>(s: seq<T>, p: T -> bool): (r: Option<nat>)
    ensures r.Some? ==> r.value < |s| && p(s[r.value])
    ensures r.Some? ==> forall j :: 0 <= j < r.value ==> !p(s[j])
    ensures r.None? <==> forall j :: 0 <= j < |s| ==> !p(s[j])
  {
    if |s| == 0 then None
    else if p(s[0]) then Some(0)
    else
      match FirstIndex(s[1..], p)
      case None => None
      case Some(k) => Some(k + 1)
  }

  /** Scanning `[x] + s` looks at `x` first and otherwise scans `s`, one position on. */
  lemma FirstIndexCons<T>(x: T, s: seq<T>, p: T -> bool)
    ensures FirstIndex([x] + s, p) ==
      if p(x) then Some(0)
      else match FirstIndex(s, p)
        case None => None
        case Some(k) => Some(k + 1)
  {
    assert ([x] + s)[1..] == s;
  }

  /** Largest of `floor` and every `f(x)` for x in `s`. */
  function MaxOf<T>(s: seq<T>, f: T -> int, floor: int): (m: int)
    ensures floor <= m
    ensures forall j :: 0 <= j < |s| ==> f(s[j]) <= m
    ensures m == floor || exists j :: 0 <= j < |s| && f(s[j]) == m
  {
    if |s| == 0 then floor
    else
      var rest := MaxOf(s[1..], f, floor);
      if f(s[0]) > rest then f(s[0]) else rest
  }

  /** `b` is `a` with `key` present and every other entry exactly as in `a`. */
  ghost predicate OnlyKeyChanged<K(!new), V>(a: map<K, V>, b: map<K, V>, key: K)
  {
    && key in b
    && (forall k :: k != key ==> (k in b <==> k in a))
    && (forall k :: k != key && k in a ==> b[k] == a[k])
  }
}
