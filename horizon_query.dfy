/**
 * The forecast horizon read from the prediction query: the day count `N` in
 * `predictLinear(<metric>, <N> days)`, found by the JavaScript pattern
 *
 *     \s*predictLinear\(.*,\s*(?<daysInFutures>\d*)\s*day(s)*\)
 *
 * run with `exec`. A match is fixed by the `predictLinear(` it starts from and
 * the comma that ends `.*`; the captured digits follow from the text after that
 * comma. `exec` returns the match with the leftmost start, and among those the
 * one where the greedy `.*` reaches furthest: so the first `predictLinear(`
 * that has any matching comma, then the last such comma on its line. The
 * leading `\s*` moves the start of the match but never changes the capture.
 */
module HorizonQuery {
  import opened Wrappers

  /** The literal that opens the pattern. */
  const Call: string := "predictLinear("

  /** The characters of JavaScript's `\s`. */
  predicate IsWhitespace(c: char)
  {
    || c == ' ' || c == '\t' || c == '\n' || c == '\U{B}' || c == '\U{C}' || c == '\r'
    || c == '\U{A0}' || c == '\U{1680}' || ('\U{2000}' <= c <= '\U{200A}')
    || c == '\U{2028}' || c == '\U{2029}' || c == '\U{202F}' || c == '\U{205F}' || c == '\U{3000}' || c == '\U{FEFF}'
  }

  /** The characters JavaScript's `.` matches: all but the line terminators. */
  predicate IsLineChar(c: char)
  {
    c != '\n' && c != '\r' && c != '\U{2028}' && c != '\U{2029}'
  }

  /** The characters of `\d`. */
  predicate IsDigit(c: char)
  {
    '0' <= c <= '9'
  }

  /** The character classes the pattern repeats with `*`. */
  datatype CharClass = Whitespace | Digit | LineChar | LetterS

  predicate InClass(c: char, cls: CharClass)
  {
    match cls
    case Whitespace => IsWhitespace(c)
    case Digit => IsDigit(c)
    case LineChar => IsLineChar(c)
    case LetterS => c == 's'
  }

  /** The end of the longest run of characters of class `cls` that starts at `i`. */
  function SkipWhile(t: string, i: nat, cls: CharClass): (j: nat)
    requires i <= |t|
    ensures i <= j <= |t|
    ensures forall k :: i <= k < j ==> InClass(t[k], cls)
    ensures j == |t| || !InClass(t[j], cls)
    decreases |t| - i
  {
    if i == |t| || !InClass(t[i], cls) then i else SkipWhile(t, i + 1, cls)
  }

  // ---------------------------------------------------------------------------
  // The text after the comma: \s*(\d*)\s*day(s)*\)
  // ---------------------------------------------------------------------------

  /**
   * A way for `\s*(\d*)\s*day(s)*\)` to match a prefix of `t`: whitespace up to
   * `i1`, the captured digits up to `i2`, whitespace up to `i3`, `day`, then
   * `s` characters up to `i4`, where `)` stands.
   */
  ghost predicate TailShape(t: string, i1: nat, i2: nat, i3: nat, i4: nat)
  {
    && i1 <= i2 <= i3 <= |t|
    && (forall k :: 0 <= k < i1 ==> IsWhitespace(t[k]))
    && (forall k :: i1 <= k < i2 ==> IsDigit(t[k]))
    && (forall k :: i2 <= k < i3 ==> IsWhitespace(t[k]))
    && UnitAt(t, i3, i4)
  }

  /** `day(s)*\)` matches `t[i3..i4 + 1]`. */
  ghost predicate UnitAt(t: string, i3: nat, i4: nat)
  {
    && i3 + 3 <= i4 < |t|
    && t[i3..i3 + 3] == "day"
    && (forall k :: i3 + 3 <= k < i4 ==> t[k] == 's')
    && t[i4] == ')'
  }

  /** `\s*(\d*)\s*day(s)*\)` matches a prefix of `t` capturing `d`. */
  ghost predicate TailMatches(t: string, d: string)
  {
    exists i1: nat, i2: nat, i3: nat, i4: nat :: TailShape(t, i1, i2, i3, i4) && t[i1..i2] == d
  }

  /** The digits `\s*(\d*)\s*day(s)*\)` captures at the start of `t`, if it matches there. */
  function UnitTail(t: string): (r: Option<string>)
    ensures r.Some? ==> forall i :: 0 <= i < |r.value| ==> IsDigit(r.value[i])
  {
    var a := SkipWhile(t, 0, Whitespace);
    var b := SkipWhile(t, a, Digit);
    var c := SkipWhile(t, b, Whitespace);
    if c + 3 <= |t| && t[c..c + 3] == "day" then
      var e := SkipWhile(t, c + 3, LetterS);
      if e < |t| && t[e] == ')' then Some(t[a..b]) else None
    else None
  }

  /** A run that holds from `i` up to `j` and stops at `j` is the one `SkipWhile` finds. */
  lemma {:induction false} SkipWhileStops(t: string, i: nat, cls: CharClass, j: nat)
    requires i <= j <= |t|
    requires forall k :: i <= k < j ==> InClass(t[k], cls)
    requires j == |t| || !InClass(t[j], cls)
    ensures SkipWhile(t, i, cls) == j
    decreases j - i
  {
    if i < j {
      SkipWhileStops(t, i + 1, cls, j);
    }
  }

  /** Whatever `UnitTail` captures, the pattern's tail captures. */
  lemma UnitTailSound(t: string, d: string)
    requires UnitTail(t) == Some(d)
    ensures TailMatches(t, d)
  {
    var a := SkipWhile(t, 0, Whitespace);
    var b := SkipWhile(t, a, Digit);
    var c := SkipWhile(t, b, Whitespace);
    var e := SkipWhile(t, c + 3, LetterS);
    assert TailShape(t, a, b, c, e) && t[a..b] == d;
  }

  /** From whitespace running up to `day(s)*)`, `UnitTail`'s last two scans land where the pattern does. */
  lemma UnitTailFrom(t: string, b: nat, i3: nat, i4: nat)
    requires b <= i3 && UnitAt(t, i3, i4)
    requires forall k :: b <= k < i3 ==> IsWhitespace(t[k])
    ensures SkipWhile(t, b, Whitespace) == i3
    ensures SkipWhile(t, i3 + 3, LetterS) == i4
  {
    assert t[i3] == 'd';
    SkipWhileStops(t, b, Whitespace, i3);
    SkipWhileStops(t, i3 + 3, LetterS, i4);
  }

  /** Every way of matching the pattern's tail captures what `UnitTail` captures. */
  lemma UnitTailComplete(t: string, i1: nat, i2: nat, i3: nat, i4: nat)
    requires TailShape(t, i1, i2, i3, i4)
    ensures UnitTail(t) == Some(t[i1..i2])
  {
    if i1 < i2 {
      // Digits were captured: the whitespace run ends at the first digit.
      SkipWhileStops(t, 0, Whitespace, i1);
      assert t[i3] == 'd';
      SkipWhileStops(t, i1, Digit, i2);
      UnitTailFrom(t, i2, i3, i4);
    } else {
      // Nothing was captured: all of t[..i3] is whitespace.
      UnitTailFrom(t, 0, i3, i4);
      SkipWhileStops(t, i3, Digit, i3);
      UnitTailFrom(t, i3, i3, i4);
      assert t[i3..i3] == t[i1..i2];
    }
  }

  /**
   * `UnitTail` is exactly the pattern's tail: it captures `d` if and only if
   * some way of matching the tail captures `d` (so every way captures the same
   * digits).
   */
  lemma UnitTailExact(t: string, d: string)
    ensures UnitTail(t) == Some(d) <==> TailMatches(t, d)
  {
    if UnitTail(t) == Some(d) {
      UnitTailSound(t, d);
    }
    if TailMatches(t, d) {
      var i1: nat, i2: nat, i3: nat, i4: nat :| TailShape(t, i1, i2, i3, i4) && t[i1..i2] == d;
      UnitTailComplete(t, i1, i2, i3, i4);
    }
  }

  // ---------------------------------------------------------------------------
  // The whole pattern
  // ---------------------------------------------------------------------------

  /** `predictLinear(` stands at position `k` of `q`. */
  predicate CallAt(q: string, k: nat)
  {
    k + |Call| <= |q| && q[k..k + |Call|] == Call
  }

  /** The comma at `c` can end `.*`: the pattern's tail matches right after it. */
  predicate GoodComma(q: string, c: nat)
  {
    c < |q| && q[c] == ',' && UnitTail(q[c + 1..]).Some?
  }

  /** The pattern matches from the `predictLinear(` at `k` through the comma at `c`. */
  ghost predicate CallMatch(q: string, k: nat, c: nat)
  {
    && CallAt(q, k)
    && k + |Call| <= c
    && GoodComma(q, c)
    && (forall m :: k + |Call| <= m < c ==> IsLineChar(q[m]))
  }

  /** A match of the pattern from the `predictLinear(` at `k` through the comma at `c`, capturing `d`. */
  ghost predicate MatchAt(q: string, k: nat, c: nat, d: string)
  {
    CallMatch(q, k, c) && UnitTail(q[c + 1..]).value == d
  }

  /** The match `exec` reports: where its `predictLinear(` and its comma stand, and the captured digits. */
  datatype PatternMatch = PatternMatch(callAt: nat, commaAt: nat, daysInFutures: string)

  /** The last comma in `q[lo..hi]` that the pattern's tail can follow. */
  function LastComma(q: string, lo: nat, hi: nat): (r: Option<nat>)
    requires lo <= hi <= |q|
    ensures r.Some? ==> lo <= r.value < hi && GoodComma(q, r.value)
    ensures forall c :: lo <= c < hi && GoodComma(q, c) ==> r.Some? && c <= r.value
    decreases hi
  {
    if hi == lo then None
    else if GoodComma(q, hi - 1) then Some(hi - 1)
    else LastComma(q, lo, hi - 1)
  }

  /**
   * The match `exec` finds when it starts looking at `k`: the first
   * `predictLinear(` from `k` on that has a matching comma, with the last such
   * comma on its line.
   */
  function FindFrom(q: string, k: nat): (r: Option<PatternMatch>)
    requires k <= |q|
    ensures r.Some? ==> k <= r.value.callAt
    decreases |q| - k
  {
    if k + |Call| > |q| then None
    else if CallAt(q, k) then
      var lineEnd := SkipWhile(q, k + |Call|, LineChar);
      match LastComma(q, k + |Call|, lineEnd)
      case Some(c) => Some(PatternMatch(k, c, UnitTail(q[c + 1..]).value))
      case None => FindFrom(q, k + 1)
    else FindFrom(q, k + 1)
  }

  /** A match at `k` cannot use a comma past the end of the line its `predictLinear(` is on. */
  lemma CommaOnCallLine(q: string, k: nat, c: nat)
    requires CallMatch(q, k, c)
    ensures c < SkipWhile(q, k + |Call|, LineChar)
  {
    var lineEnd := SkipWhile(q, k + |Call|, LineChar);
    assert IsLineChar(q[c]);
    assert forall m :: k + |Call| <= m <= c ==> IsLineChar(q[m]);
  }

  /** From the `predictLinear(` at `k`, the matches are exactly those ending at a good comma on its line, the last one reaching furthest. */
  lemma LastCommaOnCallLine(q: string, k: nat)
    requires CallAt(q, k)
    ensures var comma := LastComma(q, k + |Call|, SkipWhile(q, k + |Call|, LineChar));
      && (comma.Some? ==> CallMatch(q, k, comma.value))
      && (forall c': nat :: CallMatch(q, k, c') ==> comma.Some? && c' <= comma.value)
  {
    var lineEnd := SkipWhile(q, k + |Call|, LineChar);
    var comma := LastComma(q, k + |Call|, lineEnd);
    forall c': nat | CallMatch(q, k, c')
      ensures comma.Some? && c' <= comma.value
    {
      CommaOnCallLine(q, k, c');
    }
  }

  /** `m` is the match `exec` reports when it starts looking at `k`. */
  ghost predicate FirstMatchFrom(q: string, k: nat, m: PatternMatch)
  {
    && k <= m.callAt && MatchAt(q, m.callAt, m.commaAt, m.daysInFutures)
    && forall k': nat, c': nat :: k <= k' && CallMatch(q, k', c') ==>
         m.callAt <= k' && (k' == m.callAt ==> c' <= m.commaAt)
  }

  /** No match of the pattern starts at or after `k`. */
  ghost predicate NoMatchFrom(q: string, k: nat)
  {
    forall k': nat, c': nat :: k <= k' ==> !CallMatch(q, k', c')
  }

  /** When nothing matches from `k` itself, looking from `k` is looking from `k + 1`. */
  lemma SkipPosition(q: string, k: nat, r: Option<PatternMatch>)
    requires forall c': nat :: !CallMatch(q, k, c')
    requires match r case Some(m) => FirstMatchFrom(q, k + 1, m) case None => NoMatchFrom(q, k + 1)
    ensures match r case Some(m) => FirstMatchFrom(q, k, m) case None => NoMatchFrom(q, k)
  {
  }

  /**
   * `FindFrom` follows `exec`: what it returns is a match, no match starts at
   * an earlier `predictLinear(`, and none from the same one reaches a later
   * comma; when it returns nothing, there is no match from `k` on.
   */
  lemma {:induction false} FindFromLeftmost(q: string, k: nat)
    requires k <= |q|
    ensures match FindFrom(q, k)
      case Some(m) => FirstMatchFrom(q, k, m)
      case None => NoMatchFrom(q, k)
    decreases |q| - k
  {
    if k + |Call| > |q| {
      // No room for the call, let alone a comma after it.
    } else if CallAt(q, k) {
      var lineEnd := SkipWhile(q, k + |Call|, LineChar);
      var comma := LastComma(q, k + |Call|, lineEnd);
      LastCommaOnCallLine(q, k);
      if comma.None? {
        FindFromLeftmost(q, k + 1);
        SkipPosition(q, k, FindFrom(q, k + 1));
      }
    } else {
      FindFromLeftmost(q, k + 1);
      SkipPosition(q, k, FindFrom(q, k + 1));
    }
  }

  /**
   * The `daysInFutures` group `exec` captures in `q`: there is one exactly
   * when the pattern matches somewhere, and it is the one of the match at the
   * first `predictLinear(` that has any, reaching to its last possible comma.
   * None stands for the source's destructuring of a failed match, which throws.
   */
  function DaysInFutures(q: string): (r: Option<string>)
    ensures r.Some? <==> exists k: nat, c: nat :: CallMatch(q, k, c)
    ensures r.Some? ==> exists k: nat, c: nat ::
      && MatchAt(q, k, c, r.value)
      && forall k': nat, c': nat :: CallMatch(q, k', c') ==> k <= k' && (k' == k ==> c' <= c)
    ensures r.Some? ==> forall i :: 0 <= i < |r.value| ==> IsDigit(r.value[i])
  {
    FindFromLeftmost(q, 0);
    match FindFrom(q, 0)
    case Some(m) => Some(m.daysInFutures)
    case None => None
  }

  // ---------------------------------------------------------------------------
  // The captured digits as a number of days
  // ---------------------------------------------------------------------------

  /** The decimal value of a digit string; the empty string is 0, as `Number("")` is. */
  function DigitsValue(s: string): (r: nat)
    requires forall i :: 0 <= i < |s| ==> IsDigit(s[i])
    ensures s != [] ==> r % 10 == s[|s| - 1] as int - '0' as int
  {
    if s == [] then 0
    else
      var last := s[|s| - 1];
      assert IsDigit(last);
      DigitsValue(s[..|s| - 1]) * 10 + (last as int - '0' as int)
  }

  /** The horizon the transform uses, in days. */
  function HorizonDays(q: string): (r: Option<nat>)
    ensures r.Some? <==> DaysInFutures(q).Some?
  {
    match DaysInFutures(q)
    case Some(d) => Some(DigitsValue(d))
    case None => None
  }

  /** The decimal digits of `n`, without leading zeros. */
  function Digits(n: nat): (s: string)
    ensures |s| > 0 && forall i :: 0 <= i < |s| ==> IsDigit(s[i])
  {
    if n < 10 then [('0' as int + n) as char]
    else Digits(n / 10) + [('0' as int + n % 10) as char]
  }

  /** Reading the digits of `n` back gives `n`. */
  lemma {:induction false} DigitsRoundTrip(n: nat)
    ensures DigitsValue(Digits(n)) == n
  {
    var s := Digits(n);
    assert s[..|s| - 1] == if n < 10 then [] else Digits(n / 10);
    if n >= 10 {
      DigitsRoundTrip(n / 10);
    }
  }

  /** The unit written after the day count. */
  function Unit(plural: bool): string
  {
    if plural then " days)" else " day)"
  }

  /** A prediction query written the usual way: `<prefix>predictLinear(<metric>, <n> day[s])<suffix>`. */
  function PredictionQuery(prefix: string, metric: string, n: nat, plural: bool, suffix: string): string
  {
    prefix + Call + metric + "," + (" " + Digits(n) + Unit(plural) + suffix)
  }

  /** The unit written after the count is `day(s)*\)` after one space. */
  lemma UnitAfter(pre: string, plural: bool, suffix: string)
    ensures var t := pre + Unit(plural) + suffix;
      && t[|pre|] == ' '
      && UnitAt(t, |pre| + 1, if plural then |pre| + 5 else |pre| + 4)
  {
    var t := pre + Unit(plural) + suffix;
    var u := Unit(plural);
    var i3 := |pre| + 1;
    forall j | 0 <= j < |u|
      ensures t[|pre| + j] == u[j]
    {
    }
    assert t[i3..i3 + 3] == u[1..4] == "day";
  }

  /** After the comma of such a query, the pattern's tail captures the digits of `n`. */
  lemma QueryTail(n: nat, plural: bool, suffix: string)
    ensures UnitTail(" " + Digits(n) + Unit(plural) + suffix) == Some(Digits(n))
  {
    var digits := Digits(n);
    var pre := " " + digits;
    var tail := pre + Unit(plural) + suffix;
    var i2 := |pre|;
    var i4 := if plural then i2 + 5 else i2 + 4;
    UnitAfter(pre, plural, suffix);
    assert tail[1..i2] == digits;
    assert tail[0] == ' ';
    assert TailShape(tail, 1, i2, i2 + 1, i4);
    UnitTailComplete(tail, 1, i2, i2 + 1, i4);
  }

  /** No comma follows the one after the metric, when the suffix has none. */
  lemma QueryCommas(prefix: string, metric: string, n: nat, plural: bool, suffix: string)
    requires forall i :: 0 <= i < |suffix| ==> suffix[i] != ','
    ensures var q := PredictionQuery(prefix, metric, n, plural, suffix);
      forall c :: |prefix| + |Call| + |metric| < c < |q| ==> q[c] != ','
  {
    var q := PredictionQuery(prefix, metric, n, plural, suffix);
    var digits := Digits(n);
    var c0 := |prefix| + |Call| + |metric|;
    var tail := " " + digits + Unit(plural) + suffix;
    assert q[c0 + 1..] == tail;
    forall c | c0 < c < |q|
      ensures q[c] != ','
    {
      var i := c - c0 - 1;
      assert q[c] == tail[i];
      if i == 0 {
      } else if i < 1 + |digits| {
        assert tail[i] == digits[i - 1];
      } else if i < 1 + |digits| + |Unit(plural)| {
        assert tail[i] == Unit(plural)[i - 1 - |digits|];
      } else {
        assert tail[i] == suffix[i - 1 - |digits| - |Unit(plural)|];
      }
    }
  }

  /** No `predictLinear(` starts before the one after the prefix, when the prefix holds none. */
  lemma QueryCalls(prefix: string, metric: string, n: nat, plural: bool, suffix: string)
    requires forall k: nat :: !CallAt(prefix, k)
    ensures forall k: nat :: k < |prefix| ==> !CallAt(PredictionQuery(prefix, metric, n, plural, suffix), k)
  {
    var q := PredictionQuery(prefix, metric, n, plural, suffix);
    var p := |prefix|;
    assert q[..p] == prefix;
    assert q[p] == 'p';
    forall k: nat | k < p
      ensures !CallAt(q, k)
    {
      if k + |Call| <= p {
        assert q[k..k + |Call|] == prefix[k..k + |Call|];
        assert !CallAt(prefix, k);
      } else if k + |Call| <= |q| {
        assert Call[p - k] != 'p';
        assert q[k..k + |Call|][p - k] == q[p];
      }
    }
  }

  /** A `predictLinear(` whose line runs on to a comma that the pattern's tail follows is a match. */
  lemma MatchAfter(head: string, p: nat, tail: string)
    requires CallAt(head, p)
    requires forall m :: p + |Call| <= m < |head| ==> IsLineChar(head[m])
    requires UnitTail(tail).Some?
    ensures MatchAt(head + "," + tail, p, |head|, UnitTail(tail).value)
  {
    var q := head + "," + tail;
    assert q[|head| + 1..] == tail;
    assert q[p..p + |Call|] == head[p..p + |Call|];
  }

  /** The call after the prefix, with the comma after the metric, is a match capturing the digits of `n`. */
  lemma QueryMatch(prefix: string, metric: string, n: nat, plural: bool, suffix: string)
    requires forall i :: 0 <= i < |metric| ==> IsLineChar(metric[i])
    ensures MatchAt(PredictionQuery(prefix, metric, n, plural, suffix), |prefix|, |prefix| + |Call| + |metric|, Digits(n))
  {
    var p := |prefix|;
    var head := prefix + Call + metric;
    assert head[p..p + |Call|] == Call;
    forall m | p + |Call| <= m < |head|
      ensures IsLineChar(head[m])
    {
      assert head[m] == metric[m - p - |Call|];
    }
    QueryTail(n, plural, suffix);
    MatchAfter(head, p, " " + Digits(n) + Unit(plural) + suffix);
  }

  /** The first match starts at the first `predictLinear(` that has one. */
  lemma FirstMatchCall(q: string, p: nat, c0: nat, m: PatternMatch)
    requires CallMatch(q, p, c0)
    requires forall k: nat :: k < p ==> !CallAt(q, k)
    requires FirstMatchFrom(q, 0, m)
    ensures m.callAt == p
  {
    assert m.callAt <= p;
    assert CallAt(q, m.callAt);
  }

  /** From the same `predictLinear(`, the first match reaches at least as far, and ends `.*` at a comma. */
  lemma FirstMatchComma(q: string, p: nat, c0: nat, m: PatternMatch)
    requires CallMatch(q, p, c0)
    requires FirstMatchFrom(q, 0, m) && m.callAt == p
    ensures c0 <= m.commaAt < |q| && q[m.commaAt] == ','
  {
  }

  /**
   * A match at the first `predictLinear(` of `q`, whose comma is the last one
   * in `q`, is the one `exec` reports.
   */
  lemma OnlyCandidate(q: string, p: nat, c0: nat, d: string)
    requires MatchAt(q, p, c0, d)
    requires forall k: nat :: k < p ==> !CallAt(q, k)
    requires forall c :: c0 < c < |q| ==> q[c] != ','
    ensures FindFrom(q, 0) == Some(PatternMatch(p, c0, d))
  {
    FindFromLeftmost(q, 0);
    assert FindFrom(q, 0).Some?;
    var m := FindFrom(q, 0).value;
    FirstMatchCall(q, p, c0, m);
    FirstMatchComma(q, p, c0, m);
    assert m.commaAt == c0;
    SameCapture(q, m, p, c0, d);
  }

  /** Two matches through the same comma capture the same digits. */
  lemma SameCapture(q: string, m: PatternMatch, p: nat, c0: nat, d: string)
    requires FirstMatchFrom(q, 0, m)
    requires MatchAt(q, p, c0, d) && m.callAt == p && m.commaAt == c0
    ensures m == PatternMatch(p, c0, d)
  {
  }

  /**
   * The horizon written into a query is the one read back, provided nothing
   * before it opens another `predictLinear(`, the metric stays on one line,
   * and no comma follows the call.
   */
  lemma HorizonRoundTrip(prefix: string, metric: string, n: nat, plural: bool, suffix: string)
    requires forall k: nat :: !CallAt(prefix, k)
    requires forall i :: 0 <= i < |metric| ==> IsLineChar(metric[i])
    requires forall i :: 0 <= i < |suffix| ==> suffix[i] != ','
    ensures HorizonDays(PredictionQuery(prefix, metric, n, plural, suffix)) == Some(n)
  {
    QueryMatch(prefix, metric, n, plural, suffix);
    QueryCalls(prefix, metric, n, plural, suffix);
    QueryCommas(prefix, metric, n, plural, suffix);
    OnlyCandidate(PredictionQuery(prefix, metric, n, plural, suffix), |prefix|, |prefix| + |Call| + |metric|, Digits(n));
    assert DaysInFutures(PredictionQuery(prefix, metric, n, plural, suffix)) == Some(Digits(n));
    DigitsRoundTrip(n);
  }

  /** A query that never calls `predictLinear(` yields no horizon: the source's destructuring throws there. */
  lemma NoCallNoHorizon(q: string)
    requires forall k: nat :: !CallAt(q, k)
    ensures HorizonDays(q) == None
  {
    forall k: nat, c: nat
      ensures !CallMatch(q, k, c)
    {
      assert !CallAt(q, k);
    }
  }
}
