/**
 * The JSON extraction of the bus feed: `re.search(r'{.*}', text, re.DOTALL)`
 * followed by `.group(0)`, in aggregated_live_dash.py and live_bus_times.py.
 *
 * A match of the pattern is any span that opens with `{` and closes with `}`
 * (with DOTALL, `.` matches every character, newlines included).
 * `re.search` returns the match with the leftmost start and, because `.*` is
 * greedy, the longest end for that start. The implementation here instead
 * looks up the first `{` and the last `}`; the lemmas show that these are the
 * same thing.
 */
module BraceSpan {
  import opened Wrappers

  /** `t[i..j]` is a match of `{.*}` with DOTALL. */
  predicate MatchesAt(t: string, i: int, j: int) {
    0 <= i < j <= |t| && t[i] == '{' && t[j - 1] == '}'
  }

  /** What `re.search` returns: no span when nothing matches; otherwise the
      leftmost start and, for that start, the longest match. */
  ghost predicate SearchResult(t: string, m: Option<(nat, nat)>) {
    && (m.None? ==> forall i, j :: !MatchesAt(t, i, j))
    && (m.Some? ==>
          var (i, j) := m.value;
          && MatchesAt(t, i, j)
          && (forall i', j' | i' < i :: !MatchesAt(t, i', j'))
          && (forall j' | j < j' :: !MatchesAt(t, i, j')))
  }

  /** The index of the first `c` in `t`. */
  function FirstIndexOf(t: string, c: char): (r: Option<nat>)
    ensures r.None? ==> forall x | 0 <= x < |t| :: t[x] != c
    ensures r.Some? ==> r.value < |t| && t[r.value] == c
    ensures r.Some? ==> forall x | 0 <= x < r.value :: t[x] != c
  {
    if |t| == 0 then None
    else if t[0] == c then Some(0)
    else
      match FirstIndexOf(t[1..], c)
      case None => None
      case Some(k) => Some(k + 1)
  }

  /** The index of the last `c` in `t`. */
  function LastIndexOf(t: string, c: char): (r: Option<nat>)
    ensures r.None? ==> forall x | 0 <= x < |t| :: t[x] != c
    ensures r.Some? ==> r.value < |t| && t[r.value] == c
    ensures r.Some? ==> forall x | r.value < x < |t| :: t[x] != c
  {
    if |t| == 0 then None
    else if t[|t| - 1] == c then Some(|t| - 1)
    else LastIndexOf(t[..|t| - 1], c)
  }

  /** The span `re.search(r'{.*}', t, re.DOTALL)` selects, as `(start, end)`:
      from the first `{` to the last `}`, when that `}` comes after it. */
  function Search(t: string): (m: Option<(nat, nat)>)
    ensures SearchResult(t, m)
    ensures m.Some? ==> forall x | 0 <= x < m.value.0 :: t[x] != '{'
    ensures m.Some? ==> forall x | m.value.1 <= x < |t| :: t[x] != '}'
  {
    match FirstIndexOf(t, '{')
    case None => None
    case Some(i) =>
      match LastIndexOf(t, '}')
      case None => None
      case Some(k) => if i < k then Some((i, k + 1)) else None
  }

  /** No span exists exactly when no `}` follows the first `{` (or there is no `{`). */
  lemma NoSpanIff(t: string)
    ensures Search(t).None? <==>
      forall i, j | 0 <= i < j < |t| :: !(t[i] == '{' && t[j] == '}')
  {
  }

  /** The text around a match: what precedes it, the match, and what follows. */
  datatype Split = Split(before: string, span: string, after: string)

  /** `json_match.group(0)` together with the text around it; `None` where
      `re.search` returns `None` and `.group(0)` would raise. */
  function SplitAtSpan(t: string): (r: Option<Split>)
    ensures r.None? <==> forall i, j :: !MatchesAt(t, i, j)
    ensures r.Some? ==> r.value.before + r.value.span + r.value.after == t
    ensures r.Some? ==> MatchesAt(r.value.span, 0, |r.value.span|)
    ensures r.Some? ==> '{' !in r.value.before && '}' !in r.value.after
  {
    var m := Search(t);
    if m.None? then None
    else
      var i := m.value.0;
      var j := m.value.1;
      assert MatchesAt(t, i, j);
      SplitFacts(t, i, j);
      Some(Split(t[..i], t[i..j], t[j..]))
  }

  lemma SplitFacts(t: string, i: nat, j: nat)
    requires MatchesAt(t, i, j)
    requires forall x | 0 <= x < i :: t[x] != '{'
    requires forall x | j <= x < |t| :: t[x] != '}'
    ensures t[..i] + t[i..j] + t[j..] == t
    ensures MatchesAt(t[i..j], 0, j - i)
    ensures '{' !in t[..i] && '}' !in t[j..]
  {
  }

  /** `json_match.group(0)`: the matched text. */
  function MatchedText(t: string): (r: Option<string>)
    ensures r.Some? ==> |r.value| >= 2 && r.value[0] == '{' && r.value[|r.value| - 1] == '}'
    ensures r.None? <==> forall i, j :: !MatchesAt(t, i, j)
    ensures r.Some? ==> Search(t).Some? && r.value == t[Search(t).value.0..Search(t).value.1]
  {
    match SplitAtSpan(t)
    case None => None
    case Some(s) => Some(s.span)
  }

  /** The text reassembles from the matched span and its surroundings, so the
      span is unique: any split with a brace-free prefix and suffix around a
      braced span is the one `re.search` picks. */
  lemma SplitIsUnique(t: string, s: Split)
    requires s.before + s.span + s.after == t
    requires MatchesAt(s.span, 0, |s.span|)
    requires '{' !in s.before && '}' !in s.after
    ensures SplitAtSpan(t) == Some(s)
  {
    var i := |s.before|;
    var j := |s.before| + |s.span|;
    assert MatchesAt(t, i, j) by {
      assert t[i] == s.span[0];
      assert t[j - 1] == s.span[|s.span| - 1];
    }
    assert forall x | 0 <= x < i :: t[x] == s.before[x];
    assert forall x | j <= x < |t| :: t[x] == s.after[x - j];
    assert Search(t) == Some((i, j));
    assert s.before == t[..i] && s.span == t[i..j] && s.after == t[j..];
  }

  /** With DOTALL the match runs across newlines. */
  lemma MatchSpansNewlines()
    ensures MatchedText("<p>{\"a\":\n1}</p>") == Some("{\"a\":\n1}")
  {
    SplitIsUnique("<p>{\"a\":\n1}</p>", Split("<p>", "{\"a\":\n1}", "</p>"));
  }

  /** The match is greedy: it ends at the last `}`, past any earlier one. */
  lemma MatchIsGreedy()
    ensures MatchedText("x{a}y{b}z") == Some("{a}y{b}")
  {
    SplitIsUnique("x{a}y{b}z", Split("x", "{a}y{b}", "z"));
  }

  /** A `}` before the only `{` gives no match. */
  lemma NoMatchWhenClosedFirst()
    ensures MatchedText("}{") == None
  {
    assert !MatchesAt("}{", 0, 1) && !MatchesAt("}{", 0, 2) && !MatchesAt("}{", 1, 2);
  }
}
