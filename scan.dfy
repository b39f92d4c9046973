/** Hand-written scanners for the regular expressions the two text extractors share.
    `Search` gives `String.prototype.match` its leftmost-match behaviour: a pattern is a
    function that says whether it matches starting exactly at a position (and where that match
    ends), and the first position where it does wins. Each scanner below follows the
    backtracking order of its regular expression; where the order cannot change the outcome the
    scanner takes the greedy choice directly. */
module Scan {
  import opened Common
  import opened Text

  /** The leftmost position at or after `from` where `at` matches, with what it matched. */
  function Search<T>(s: string, from: nat, at: (string, nat) -> Option<T>): (r: Option<(nat, T)>)
    decreases |s| + 1 - from
    ensures r.Some? ==> from <= r.value.0 <= |s| && at(s, r.value.0) == Some(r.value.1)
    ensures r.Some? ==> forall q :: from <= q < r.value.0 ==> at(s, q).None?
    ensures r.None? ==> forall q :: from <= q <= |s| ==> at(s, q).None?
  {
    if from > |s| then None
    else match at(s, from)
      case Some(m) => Some((from, m))
      case None => Search(s, from + 1, at)
  }

  /** `Search` finds nothing where nothing matches. */
  lemma SearchNone<T>(s: string, from: nat, at: (string, nat) -> Option<T>)
    requires forall q :: from <= q <= |s| ==> at(s, q).None?
    ensures Search(s, from, at) == None
  {}

  /** `Search` finds the first position that matches. */
  lemma SearchFinds<T>(s: string, from: nat, at: (string, nat) -> Option<T>, p: nat)
    requires from <= p <= |s| && at(s, p).Some?
    requires forall q :: from <= q < p ==> at(s, q).None?
    ensures Search(s, from, at) == Some((p, at(s, p).value))
  {}

  /** `\b` at position `p` (ASCII word characters). */
  predicate WordBoundary(s: string, p: nat) {
    (p > 0 && p <= |s| && IsWordChar(s[p - 1])) != (p < |s| && IsWordChar(s[p]))
  }

  /** The lower-case literal `w` occurs at `p`, ignoring ASCII case (the `i` flag). */
  predicate LitAt(s: string, p: nat, w: string) {
    p + |w| <= |s| && ToLower(s[p..p + |w|]) == w
  }

  /** `w` occurs at `p` ignoring case when each of its characters does. */
  lemma LitAtChars(s: string, p: nat, w: string)
    requires p + |w| <= |s|
    requires forall i :: 0 <= i < |w| ==> LowerChar(s[p + i]) == w[i]
    ensures LitAt(s, p, w)
  {
    assert ToLower(s[p..p + |w|]) == w;
  }

  /** One mismatched character, or too little text, rules `w` out at `p`. */
  lemma LitAtMismatch(s: string, p: nat, w: string, i: nat)
    requires i < |w|
    requires p + |w| <= |s| ==> LowerChar(s[p + i]) != w[i]
    ensures !LitAt(s, p, w)
  {
    if p + |w| <= |s| {
      assert ToLower(s[p..p + |w|])[i] != w[i];
    }
  }

  /** Number of white-space characters (`\s`) starting at `p`. */
  function SpaceRun(s: string, p: nat): (k: nat)
    ensures p + k <= |s| || (p > |s| && k == 0)
    ensures forall i :: p <= i < p + k ==> IsSpace(s[i])
    ensures p + k < |s| ==> !IsSpace(s[p + k])
    decreases |s| - p
  {
    if p < |s| && IsSpace(s[p]) then 1 + SpaceRun(s, p + 1) else 0
  }

  /** Number of decimal digits (`\d`) starting at `p`. */
  function DigitCount(s: string, p: nat): (k: nat)
    ensures p + k <= |s| || (p > |s| && k == 0)
    ensures forall i :: p <= i < p + k ==> IsDigit(s[i])
    ensures p + k < |s| ==> !IsDigit(s[p + k])
    decreases |s| - p
  {
    if p < |s| && IsDigit(s[p]) then 1 + DigitCount(s, p + 1) else 0
  }

  /** Number of word characters (`\w`) starting at `p`. */
  function WordRun(s: string, p: nat): (k: nat)
    ensures p + k <= |s| || (p > |s| && k == 0)
    ensures forall i :: p <= i < p + k ==> IsWordChar(s[i])
    decreases |s| - p
  {
    if p < |s| && IsWordChar(s[p]) then 1 + WordRun(s, p + 1) else 0
  }

  /** Exactly `n` digits at `p` (no claim about the character after them). */
  predicate DigitsAt(s: string, p: nat, n: nat) {
    p + n <= |s| && forall i :: p <= i < p + n ==> IsDigit(s[i])
  }

  /** The first of `words` from index `j` on (lower-case) that occurs at `p` ignoring case. */
  function FirstLitFrom(s: string, p: nat, words: seq<string>, j: nat): (r: Option<nat>)
    decreases |words| - j
    ensures r.Some? ==> j <= r.value < |words| && LitAt(s, p, words[r.value])
    ensures r.Some? ==> forall i :: j <= i < r.value ==> !LitAt(s, p, words[i])
    ensures r.None? ==> forall i :: j <= i < |words| ==> !LitAt(s, p, words[i])
  {
    if j >= |words| then None
    else if LitAt(s, p, words[j]) then Some(j)
    else FirstLitFrom(s, p, words, j + 1)
  }

  /** The first of `words` (lower-case) that occurs at `p` ignoring case: alternation order. */
  function FirstLit(s: string, p: nat, words: seq<string>): (r: Option<nat>)
    ensures r.Some? ==> r.value < |words| && LitAt(s, p, words[r.value])
    ensures r.Some? ==> forall j :: 0 <= j < r.value ==> !LitAt(s, p, words[j])
    ensures r.None? ==> forall j :: 0 <= j < |words| ==> !LitAt(s, p, words[j])
  {
    FirstLitFrom(s, p, words, 0)
  }

  /** The priority words of `\b(high|medium|low)(?:\s+priority)?\b`, in alternation order. */
  const PriorityWords: seq<string> := ["high", "medium", "low"]

  /** The category names of `(Work|Personal|Health|Finance|Other)`, lower-cased, in order. */
  const CategoryNames: seq<string> := ["work", "personal", "health", "finance", "other"]

  /** A match of `\b(high|medium|low)(?:\s+priority)?\b` (flag `i`) at some position:
      which word, where the word ends, and where the whole match ends. */
  datatype PriorityMatch = PriorityMatch(word: nat, wordEnd: nat, end: nat)

  /** `\b(high|medium|low)(?:\s+priority)?\b` matched at exactly `p`. The optional group is
      greedy: with it the match must still end on a word boundary, otherwise the word alone
      must. */
  function PriorityAt(s: string, p: nat): (r: Option<PriorityMatch>)
    ensures r.Some? ==> r.value.word < 3 && LitAt(s, p, PriorityWords[r.value.word])
    ensures r.Some? ==> r.value.wordEnd == p + |PriorityWords[r.value.word]|
    ensures r.Some? ==> r.value.wordEnd <= r.value.end <= |s| && WordBoundary(s, r.value.end)
    ensures r.Some? ==> WordBoundary(s, p)
  {
    if !WordBoundary(s, p) then None
    else match FirstLit(s, p, PriorityWords)
      case None => None
      case Some(w) =>
        var q := p + |PriorityWords[w]|;
        var sp := SpaceRun(s, q);
        if sp > 0 && LitAt(s, q + sp, "priority") && WordBoundary(s, q + sp + 8) then
          Some(PriorityMatch(w, q, q + sp + 8))
        else if WordBoundary(s, q) then Some(PriorityMatch(w, q, q))
        else None
  }

  /** A match of `\b(Work|Personal|Health|Finance|Other)\b` (flag `i`) at exactly `p`:
      which name and where it ends. */
  function CategoryAt(s: string, p: nat): (r: Option<(nat, nat)>)
    ensures r.Some? ==> r.value.0 < 5 && LitAt(s, p, CategoryNames[r.value.0])
    ensures r.Some? ==> r.value.1 == p + |CategoryNames[r.value.0]| <= |s|
    ensures r.Some? ==> WordBoundary(s, p) && WordBoundary(s, r.value.1)
  {
    if !WordBoundary(s, p) then None
    else match FirstLit(s, p, CategoryNames)
      case None => None
      case Some(c) =>
        var q := p + |CategoryNames[c]|;
        if WordBoundary(s, q) then Some((c, q)) else None
  }

  /** The month names of `Jan(?:uary)?|Feb(?:ruary)?|...|Dec(?:ember)?`, short and long forms. */
  const MonthShort: seq<string> :=
    ["jan", "feb", "mar", "apr", "may", "jun", "jul", "aug", "sep", "oct", "nov", "dec"]
  const MonthLong: seq<string> :=
    ["january", "february", "march", "april", "may", "june", "july", "august", "september",
     "october", "november", "december"]

  /** The month alternation matched at `p` (flag `i`): the month's index (January is 0) and where
      the name ends. The long form is taken when present: the short form could only win by
      backtracking, and in every pattern here it is then followed by a letter where the rest
      of the pattern needs white space or nothing at all. */
  function MonthAt(s: string, p: nat): (r: Option<(nat, nat)>)
    ensures r.Some? ==> r.value.0 < 12 && LitAt(s, p, MonthShort[r.value.0])
    ensures r.Some? ==> r.value.1 == p + 3 || (LitAt(s, p, MonthLong[r.value.0]) && r.value.1 == p + |MonthLong[r.value.0]|)
    ensures r.Some? ==> r.value.1 <= |s|
  {
    match FirstLit(s, p, MonthShort)
    case None => None
    case Some(m) =>
      if LitAt(s, p, MonthLong[m]) then Some((m, p + |MonthLong[m]|)) else Some((m, p + 3))
  }
}
