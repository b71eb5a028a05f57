/** String helpers with JavaScript's meaning: ASCII `toLowerCase`, `indexOf`,
    `includes` and `replace` with a string pattern (first occurrence only), and the
    case-insensitive search the directory components build from them. */
module Text {
  import opened Common
  import opened Seqs

  /** ASCII case folding; other characters are left as they are. */
  function LowerChar(c: char): (r: char)
    ensures 'A' <= c <= 'Z' ==> 'a' <= r <= 'z' && r as int - c as int == 32
    ensures !('A' <= c <= 'Z') ==> r == c
  {
    if 'A' <= c <= 'Z' then (c as int + 32) as char else c
  }

  function Lower(s: string): (r: string)
    ensures |r| == |s|
    ensures forall i :: 0 <= i < |s| ==> r[i] == LowerChar(s[i])
    ensures forall i :: 0 <= i < |r| ==> !('A' <= r[i] <= 'Z')
  {
    seq(|s|, i requires 0 <= i < |s| => LowerChar(s[i]))
  }

  /** `needle` occurs in `hay` starting at index `k`. */
  predicate MatchAt(hay: string, needle: string, k: nat) {
    k + |needle| <= |hay| && hay[k..k + |needle|] == needle
  }

  /** The first index at or after `from` where `needle` occurs. */
  function IndexOfFrom(hay: string, needle: string, from: nat): (r: Option<nat>)
    requires from <= |hay|
    decreases |hay| - from
    ensures r.Some? ==> from <= r.value && MatchAt(hay, needle, r.value)
    ensures r.Some? ==> forall k :: from <= k < r.value ==> !MatchAt(hay, needle, k)
    ensures r.None? ==> forall k :: from <= k ==> !MatchAt(hay, needle, k)
  {
    if from + |needle| > |hay| then None
    else if hay[from..from + |needle|] == needle then Some(from)
    else if from == |hay| then None
    else IndexOfFrom(hay, needle, from + 1)
  }

  /** `hay.indexOf(needle)`, with `None` for -1. */
  function IndexOf(hay: string, needle: string): (r: Option<nat>)
    ensures r.Some? <==> exists k :: MatchAt(hay, needle, k)
    ensures r.Some? ==> MatchAt(hay, needle, r.value) && forall k: nat :: k < r.value ==> !MatchAt(hay, needle, k)
  {
    IndexOfFrom(hay, needle, 0)
  }

  /** `hay.includes(needle)`. */
  predicate Includes(hay: string, needle: string) {
    IndexOf(hay, needle).Some?
  }

  /** `s.replace(pattern, with)` for a string pattern: only the first occurrence is replaced. */
  function ReplaceFirst(s: string, pattern: string, with: string): (r: string)
    ensures IndexOf(s, pattern).None? ==> r == s
    ensures IndexOf(s, pattern).Some? ==>
      var k := IndexOf(s, pattern).value;
      r == s[..k] + with + s[k + |pattern|..]
  {
    match IndexOf(s, pattern)
    case None => s
    case Some(k) => s[..k] + with + s[k + |pattern|..]
  }

  /** The empty string is included in every string, so an empty search term matches everything. */
  lemma {:induction false} EmptyIsIncluded(hay: string)
    ensures Includes(hay, "")
  {
    assert MatchAt(hay, "", 0);
  }

  /** Removing a leading pattern: when `s` starts with `pattern`, the first occurrence is the prefix. */
  lemma {:induction false} ReplaceLeading(pattern: string, rest: string)
    ensures ReplaceFirst(pattern + rest, pattern, "") == rest
  {
    var s := pattern + rest;
    assert s[0..|pattern|] == pattern;
    assert MatchAt(s, pattern, 0);
    assert s[|pattern|..] == rest;
  }

  /** Some field contains the term, both lower-cased: the directories' search test
      `field.toLowerCase().includes(term.toLowerCase())`, or-ed over a list of fields. */
  predicate MatchesAny(fields: seq<string>, term: string) {
    exists i :: 0 <= i < |fields| && Includes(Lower(fields[i]), Lower(term))
  }

  /** The search test as a filter predicate. */
  function Matcher<T>(fields: T -> seq<string>, term: string): T -> bool {
    x => MatchesAny(fields(x), term)
  }

  /** A directory search: the items, in order, one of whose fields contains the term.
      An empty term is contained in every field, so it keeps every item that has one. */
  function Search<T(==)>(items: seq<T>, fields: T -> seq<string>, term: string): (r: seq<T>)
    ensures IsSubseq(r, items)
    ensures forall x :: x in r ==> x in items && MatchesAny(fields(x), term)
    ensures forall x :: x in items && MatchesAny(fields(x), term) ==> x in r
    ensures |r| == Count(Matcher(fields, term), items)
    ensures term == "" && (forall x :: x in items ==> fields(x) != []) ==> r == items
  {
    if term == "" && (forall x :: x in items ==> fields(x) != []) then
      forall x | x in items ensures MatchesAny(fields(x), term) {
        EmptyIsIncluded(Lower(fields(x)[0]));
      }
      FilterAll(Matcher(fields, term), items);
      Filter(Matcher(fields, term), items)
    else
      Filter(Matcher(fields, term), items)
  }

  /** A sum over all items is the sum over those the search shows plus the sum over
      those it hides (`hidden` is the search test's complement). */
  lemma {:induction false} SearchSplitsSum<T>(f: T -> int, items: seq<T>, fields: T -> seq<string>, term: string, hidden: T -> bool)
    requires forall x :: hidden(x) == !MatchesAny(fields(x), term)
    ensures Sum(f, Search(items, fields, term)) + Sum(f, Filter(hidden, items)) == Sum(f, items)
  {
    SumSplits(f, Matcher(fields, term), hidden, items);
  }
}
