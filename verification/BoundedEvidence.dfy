/**
 * The evidence a controller sees: a bounded budget of encoded characters over all
 * jobs of an observation, and the windows through which the rest is paged.
 *
 * Text is UTF-16, and lengths are of the encoded form, lone surrogates included.
 */
module BoundedEvidence {
  import opened Common
  import opened CanonicalJson

  const MAX_EVIDENCE_CHARS := 12_000
  const MAX_EVIDENCE_OFFSET := 1_000_000_000

  // ------------------------------------------------------------------ encoded length

  predicate NeedsHtmlEscape(u: Unit) { u == 0x3C || u == 0x3E || u == 0x26 }

  function HtmlSafe(t: Text): Text {
    if t == [] then []
    else (if NeedsHtmlEscape(t[0]) then UnicodeEscape(t[0]) else [t[0]]) + HtmlSafe(t[1..])
  }

  // JSON.stringify without its quotes, and with < > & escaped.
  function Encoded(s: Text): Text {
    HtmlSafe(Escape(s))
  }

  function EncodedLength(s: Text): nat { |Encoded(s)| }

  // "\n...[truncated " and " chars]"
  const TRUNCATED: Text := [0x0A] + TRUNCATED_TAIL
  const TRUNCATED_TAIL: Text := [0x2E, 0x2E, 0x2E, 0x5B, 0x74, 0x72, 0x75, 0x6E, 0x63, 0x61, 0x74, 0x65, 0x64, 0x20]
  const CHARS: Text := [0x20, 0x63, 0x68, 0x61, 0x72, 0x73, 0x5D]

  function TruncationMarker(omitted: nat): Text {
    TRUNCATED + (Digits(omitted) + CHARS)
  }

  // The first k characters, and the marker for the others.
  function Candidate(value: Text, k: nat): Text
    requires k <= |value|
  {
    value[..k] + TruncationMarker(|value| - k)
  }

  function Cost(value: Text, k: nat): nat
    requires k <= |value|
  {
    EncodedLength(Candidate(value, k))
  }

  // Cutting here would separate the halves of a surrogate pair.
  predicate SplitsPair(value: Text, k: nat) {
    0 < k < |value| && IsLeading(value[k - 1]) && IsTrailing(value[k])
  }

  lemma UnicodeEscapeIsPlain(u: Unit)
    ensures forall x :: x in UnicodeEscape(u) ==> x != 0x3C && x != 0x3E && x != 0x26
  {
    assert forall d: nat :: d < 16 ==> HexDigit(d) < 0x3A || 0x60 < HexDigit(d);
  }

  // Encoded text holds no markup, and text without any is left as it is.
  lemma {:induction false} HtmlSafeEscapesMarkup(t: Text)
    ensures forall u :: u in HtmlSafe(t) ==> u != 0x3C && u != 0x3E && u != 0x26
    ensures (forall u :: u in t ==> u != 0x3C && u != 0x3E && u != 0x26) ==> HtmlSafe(t) == t
  {
    hide UnicodeEscape;
    if t != [] {
      HtmlSafeEscapesMarkup(t[1..]);
      if NeedsHtmlEscape(t[0]) { UnicodeEscapeIsPlain(t[0]); }
      assert t[0] in t && t == [t[0]] + t[1..];
      assert forall u :: u in t[1..] ==> u in t;
    }
  }

  lemma {:induction false} HtmlSafeConcat(a: Text, b: Text)
    ensures HtmlSafe(a + b) == HtmlSafe(a) + HtmlSafe(b)
  {
    if a == [] {
      assert a + b == b;
    } else {
      assert (a + b)[1..] == a[1..] + b;
      HtmlSafeConcat(a[1..], b);
    }
  }

  // What escaping does with the first character or pair.
  function Head(s: Text): Text
    requires s != []
  {
    if StartsWithPair(s) then [s[0], s[1]] else EscapeUnit(s[0])
  }

  lemma SameHead(a: Text, b: Text)
    requires a != [] && !SplitsPair(a + b, |a|)
    ensures StartsWithPair(a + b) == StartsWithPair(a) && Head(a + b) == Head(a)
  {
    if |a| == 1 {
      assert StartsWithPair(a + b) == SplitsPair(a + b, 1);
    }
  }

  lemma EscapeHead(s: Text, n: nat, rest: Text)
    requires s != [] && n == (if StartsWithPair(s) then 2 else 1) && s[n..] == rest
    ensures Escape(s) == Head(s) + Escape(rest)
  {
  }

  lemma {:induction false} EscapeConcat(a: Text, b: Text)
    requires !SplitsPair(a + b, |a|)
    ensures Escape(a + b) == Escape(a) + Escape(b)
    decreases |a|
  {
    if a == [] {
      assert a + b == b;
    } else {
      var n := if StartsWithPair(a) then 2 else 1;
      var rest := a[n..];
      assert (a + b)[n..] == rest + b;
      SameHead(a, b);
      EscapeHead(a + b, n, rest + b);
      EscapeHead(a, n, rest);
      EscapeConcat(rest, b);
      Associative(Head(a), Escape(rest), Escape(b));
    }
  }

  lemma EncodedConcat(a: Text, b: Text)
    requires !SplitsPair(a + b, |a|)
    ensures EncodedLength(a + b) == EncodedLength(a) + EncodedLength(b)
  {
    EscapeConcat(a, b);
    HtmlSafeConcat(Escape(a), Escape(b));
  }

  // One character costs one to six; a pair costs its two halves.
  lemma EncodedUnit(u: Unit)
    ensures 1 <= EncodedLength([u]) <= 6
    ensures Plain(u) ==> EncodedLength([u]) == 1
  {
    var e := EscapeUnit(u);
    assert Escape([u]) == e + [] == e;
    PlainEscape(u);
  }

  lemma PlainEscape(u: Unit)
    ensures |EscapeUnit(u)| > 1 ==> HtmlSafe(EscapeUnit(u)) == EscapeUnit(u)
    ensures |EscapeUnit(u)| == 1 ==> HtmlSafe([u]) == if NeedsHtmlEscape(u) then UnicodeEscape(u) else [u]
  {
    var e := EscapeUnit(u);
    if |e| > 1 {
      NothingToEscape(e);
    } else {
      assert e[1..] == [];
    }
  }

  lemma {:induction false} NothingToEscape(t: Text)
    requires forall i :: 0 <= i < |t| ==> !NeedsHtmlEscape(t[i])
    ensures HtmlSafe(t) == t
  {
    if t != [] {
      NothingToEscape(t[1..]);
    }
  }

  lemma EncodedPair(s: Text)
    requires |s| == 2 && StartsWithPair(s)
    ensures EncodedLength(s) == 2
  {
    assert Escape(s) == s + Escape(s[2..]) == s;
    NothingToEscape(s);
  }

  lemma {:induction false} EncodedBounds(s: Text)
    ensures |s| <= EncodedLength(s) <= 6 * |s|
    decreases |s|
  {
    if s != [] {
      var n := if StartsWithPair(s) then 2 else 1;
      assert s == s[..n] + s[n..];
      assert SplitsPair(s, n) ==> n == 2;
      EncodedConcat(s[..n], s[n..]);
      EncodedBounds(s[n..]);
      if n == 2 { EncodedPair(s[..2]); } else {
        assert s[..1] == [s[0]];
        EncodedUnit(s[0]);
      }
    }
  }

  // A character that is encoded as itself.
  predicate Plain(u: Unit) {
    && 0x20 <= u && u != QUOTE && u != BACKSLASH && !IsLeading(u) && !IsTrailing(u)
    && !NeedsHtmlEscape(u)
  }

  lemma {:induction false} EncodedPlain(t: Text)
    requires forall i :: 0 <= i < |t| ==> Plain(t[i])
    ensures EncodedLength(t) == |t|
  {
    if t != [] {
      assert t == [t[0]] + t[1..];
      EncodedConcat([t[0]], t[1..]);
      EncodedUnit(t[0]);
      EncodedPlain(t[1..]);
    }
  }

  lemma {:induction false} DigitsGrowSlowly(a: nat, b: nat)
    requires a <= b
    ensures |Digits(a)| <= |Digits(b)| <= |Digits(a)| + (b - a)
    decreases b
  {
    if b >= 10 && a < b {
      if a >= 10 {
        DigitsGrowSlowly(a / 10, b / 10);
      } else {
        DigitsGrowSlowly(1, b / 10);
      }
    }
  }

  // What a text costs that is followed by a framed number.
  lemma FramedCost(prefix: Text, head: Text, n: nat, tail: Text)
    requires head != [] && !IsTrailing(head[0]) && tail != [] && !IsTrailing(tail[0])
    ensures EncodedLength(prefix + (head + (Digits(n) + tail)))
      == EncodedLength(prefix) + EncodedLength(head) + |Digits(n)| + EncodedLength(tail)
  {
    hide EncodedLength, Digits;
    var digits := Digits(n);
    EncodedConcat(prefix, head + (digits + tail));
    EncodedConcat(head, digits + tail);
    EncodedConcat(digits, tail);
    EncodedPlain(digits);
  }

  // What a candidate costs: its prefix, a fixed part, and the digits of the rest.
  lemma CostOfCandidate(value: Text, k: nat)
    requires k <= |value|
    ensures Cost(value, k)
      == EncodedLength(value[..k]) + EncodedLength(TRUNCATED) + |Digits(|value| - k)| + EncodedLength(CHARS)
  {
    hide EncodedLength;
    FramedCost(value[..k], TRUNCATED, |value| - k, CHARS);
  }

  lemma FramedGrows(value: Text, j: nat, k: nat, head: Text, tail: Text)
    requires j <= k <= |value| && !SplitsPair(value, j)
    requires head != [] && !IsTrailing(head[0]) && tail != [] && !IsTrailing(tail[0])
    ensures EncodedLength(value[..j] + (head + (Digits(|value| - j) + tail)))
      <= EncodedLength(value[..k] + (head + (Digits(|value| - k) + tail)))
  {
    hide EncodedLength;
    FramedCost(value[..j], head, |value| - j, tail);
    FramedCost(value[..k], head, |value| - k, tail);
    PrefixGrows(value, j, k);
    DigitsGrowSlowly(|value| - k, |value| - j);
  }

  // A longer prefix never costs less than one that ends between characters.
  lemma CostGrows(value: Text, j: nat, k: nat)
    requires j <= k <= |value| && !SplitsPair(value, j)
    ensures Cost(value, j) <= Cost(value, k)
  {
    FramedGrows(value, j, k, TRUNCATED, CHARS);
  }

  lemma PrefixGrows(value: Text, j: nat, k: nat)
    requires j <= k <= |value| && !SplitsPair(value, j)
    ensures EncodedLength(value[..j]) + (k - j) <= EncodedLength(value[..k])
  {
    assert value[..k] == value[..j] + value[j..k];
    EncodedConcat(value[..j], value[j..k]);
    EncodedBounds(value[j..k]);
  }

  // Marking nothing as truncated costs more than the text itself.
  lemma WholeCostsMore(value: Text)
    ensures EncodedLength(value) < Cost(value, |value|)
  {
    assert value[..|value|] == value;
    CostOfCandidate(value, |value|);
  }

  function Pow10(k: nat): nat {
    if k == 0 then 1 else 10 * Pow10(k - 1)
  }

  lemma {:induction false} DigitsBound(n: nat, k: nat)
    requires 0 < k && n < Pow10(k)
    ensures |Digits(n)| <= k
  {
    if n >= 10 {
      DigitsBound(n / 10, k - 1);
    }
  }

  lemma SafeDigits(n: nat)
    requires n <= MAX_SAFE_INTEGER
    ensures |Digits(n)| <= 16
  {
    assert Pow10(4) == 10_000;
    assert Pow10(8) == 10_000 * Pow10(4);
    assert Pow10(12) == 10_000 * Pow10(8);
    assert Pow10(16) == 10_000 * Pow10(12);
    DigitsBound(n, 16);
  }

  // ------------------------------------------------------------------- the search

  // The cost of every prefix, with its marker.
  function Costs(value: Text): (r: seq<nat>)
    ensures |r| == |value| + 1 && forall k :: 0 <= k <= |value| ==> r[k] == Cost(value, k)
  {
    seq(|value| + 1, k requires 0 <= k <= |value| => Cost(value, k))
  }

  // The binary search for a prefix that fits: `best` is the longest seen to fit.
  function Search(costs: seq<nat>, budget: int, low: int, high: int, best: Option<nat>): (r: Option<nat>)
    requires 0 <= low && high < |costs| && (best.Some? ==> best.value < |costs|)
    ensures r.Some? ==> r.value < |costs|
    decreases high - low + 1
  {
    if high < low then best
    else
      var middle := (low + high) / 2;
      if costs[middle] <= budget then Search(costs, budget, middle + 1, high, Some(middle))
      else Search(costs, budget, low, middle - 1, best)
  }

  predicate SearchState(costs: seq<nat>, budget: int, low: int, high: int, best: Option<nat>) {
    && 0 <= low <= high + 1 <= |costs|
    && best == (if low == 0 then None else Some(low - 1))
    && (0 < low ==> costs[low - 1] <= budget)
    && (high + 1 < |costs| ==> budget < costs[high + 1])
  }

  // What the search finds fits, and one character more does not, however the costs
  // go up and down.
  lemma {:induction false} SearchFindsAnEdge(costs: seq<nat>, budget: int, low: int, high: int, best: Option<nat>)
    requires SearchState(costs, budget, low, high, best) && costs != []
    ensures var r := Search(costs, budget, low, high, best);
      && (r.None? ==> budget < costs[0])
      && (r.Some? ==> costs[r.value] <= budget && (r.value + 1 < |costs| ==> budget < costs[r.value + 1]))
    decreases high - low + 1
  {
    if low <= high {
      var middle := (low + high) / 2;
      if costs[middle] <= budget {
        SearchFindsAnEdge(costs, budget, middle + 1, high, Some(middle));
      } else {
        SearchFindsAnEdge(costs, budget, low, middle - 1, best);
      }
    }
  }

  // ------------------------------------------------------------------ taking evidence

  datatype Budget = Budget(value: int, omittedChars: nat)

  datatype Take = Take(text: Option<Text>, includedChars: nat)

  const NOTHING := Take(None, 0)

  // takeBoundedEvidence: what is served, and the budget that is left.
  function TakeOf(value: Option<Text>, budget: Budget): (Take, Budget) {
    if value.None? then (NOTHING, budget)
    else
      var v := value.value;
      if budget.value <= 0 then (NOTHING, budget.(omittedChars := budget.omittedChars + |v|))
      else if EncodedLength(v) <= budget.value then
        (Take(Some(v), |v|), budget.(value := budget.value - EncodedLength(v)))
      else
        Settled(v, budget, Search(Costs(v), budget.value, 0, |v|, None))
  }

  function Settled(v: Text, budget: Budget, k: Option<nat>): (Take, Budget)
    requires k.Some? ==> k.value <= |v|
  {
    if k.None? then (NOTHING, budget.(omittedChars := budget.omittedChars + |v|))
    else
      (Take(Some(Candidate(v, k.value)), k.value),
       Budget(budget.value - Cost(v, k.value), budget.omittedChars + |v| - k.value))
  }

  function Spent(take: Take): nat {
    if take.text.Some? then EncodedLength(take.text.value) else 0
  }

  function Offered(value: Option<Text>): nat {
    if value.Some? then |value.value| else 0
  }

  // The budget pays for what is served, never runs below zero, and every offered
  // character is either included or counted as omitted.
  lemma TakeConserves(value: Option<Text>, budget: Budget)
    requires 0 <= budget.value
    ensures var (take, left) := TakeOf(value, budget);
      && left.value == budget.value - Spent(take) && 0 <= left.value
      && take.includedChars + left.omittedChars == Offered(value) + budget.omittedChars
      && take.includedChars <= Offered(value)
  {
    if value.Some? {
      var v := value.value;
      SearchFindsAnEdge(Costs(v), budget.value, 0, |v|, None);
    }
  }

  // What is served of a text: all of it, or a proper prefix behind which one more
  // character does not fit; or nothing, if not even the marker fits.
  lemma TakeServesAnEdge(v: Text, budget: Budget)
    ensures var take := TakeOf(Some(v), budget).0;
      && take.includedChars <= |v|
      && (take.text.Some? && take.includedChars == |v| ==> take.text == Some(v))
      && (take.text.Some? && take.includedChars < |v| ==>
          && budget.value < EncodedLength(v)
          && take.text == Some(Candidate(v, take.includedChars))
          && budget.value < Cost(v, take.includedChars + 1))
      && (take.text.None? ==>
          && take.includedChars == 0
          && budget.value < Cost(v, 0)
          && (0 < budget.value ==> budget.value < EncodedLength(v)))
  {
    hide Encoded;
    SearchFindsAnEdge(Costs(v), budget.value, 0, |v|, None);
    WholeCostsMore(v);
    EncodedBounds(Candidate(v, 0));
  }

  // No longer prefix of the text would have fitted.
  predicate ServesLongest(v: Text, budget: Budget) {
    forall k :: TakeOf(Some(v), budget).0.includedChars < k <= |v| ==> budget.value < Cost(v, k)
  }

  // The next character would split a pair that as a whole still fits.
  predicate StopsInsidePair(v: Text, budget: Budget) {
    var next := TakeOf(Some(v), budget).0.includedChars + 1;
    SplitsPair(v, next) && Cost(v, next + 1) <= budget.value
  }

  // Some pair of the text fits where its first half alone does not.
  predicate HidesPair(v: Text, budget: Budget) {
    exists j :: 0 < j < |v| && SplitsPair(v, j) && Cost(v, j + 1) <= budget.value < Cost(v, j)
  }

  lemma CostsMoreFrom(v: Text, budget: int, edge: nat)
    requires edge <= |v| && !SplitsPair(v, edge) && budget < Cost(v, edge)
    ensures forall k :: edge <= k <= |v| ==> budget < Cost(v, k)
  {
    hide Cost;
    forall k | edge <= k <= |v| ensures Cost(v, edge) <= Cost(v, k) {
      CostGrows(v, edge, k);
    }
  }

  // The longest prefix that fits is served if and only if the search does not stop
  // inside a pair that as a whole still fits.
  lemma LongestIsServedExactlyOutsidePairs(v: Text, budget: Budget)
    ensures ServesLongest(v, budget) <==> !StopsInsidePair(v, budget)
  {
    hide TakeOf, Cost;
    TakeServesAnEdge(v, budget);
    var take := TakeOf(Some(v), budget).0;
    var next := take.includedChars + 1;
    if take.text.None? {
      CostsMoreFrom(v, budget.value, 0);
    } else if next <= |v| && !SplitsPair(v, next) {
      CostsMoreFrom(v, budget.value, next);
    } else if next <= |v| && budget.value < Cost(v, next + 1) {
      CostsMoreFrom(v, budget.value, next + 1);
    }
  }

  // Before the call: where the text hides no pair at this budget, and so in any text
  // without surrogate pairs, the longest prefix that fits is served.
  lemma LongestIsServedWithoutHiddenPair(v: Text, budget: Budget)
    requires !HidesPair(v, budget)
    ensures ServesLongest(v, budget)
  {
    hide TakeOf, Cost;
    TakeServesAnEdge(v, budget);
    LongestIsServedExactlyOutsidePairs(v, budget);
    if TakeOf(Some(v), budget).0.text.None? {
      CostsMoreFrom(v, budget.value, 0);
    }
  }

  lemma PlainTextHidesNoPair(v: Text, budget: Budget)
    requires forall j :: 0 < j < |v| ==> !SplitsPair(v, j)
    ensures !HidesPair(v, budget) && ServesLongest(v, budget)
  {
    LongestIsServedWithoutHiddenPair(v, budget);
  }

  // The binary search of takeBoundedEvidence.
  method SearchPrefix(v: Text, budget: int) returns (best: Option<nat>)
    ensures best == Search(Costs(v), budget, 0, |v|, None)
  {
    var low, high := 0, |v|;
    best := None;
    ghost var costs := Costs(v);
    while low <= high
      invariant 0 <= low && high <= |v| && (best.Some? ==> best.value <= |v|)
      invariant Search(costs, budget, low, high, best) == Search(costs, budget, 0, |v|, None)
      decreases high - low + 1
    {
      var candidateLength := (low + high) / 2;
      if Cost(v, candidateLength) <= budget {
        best, low := Some(candidateLength), candidateLength + 1;
      } else {
        high := candidateLength - 1;
      }
    }
  }

  // A hidden pair can make the search miss the longest prefix: a pair and thirty
  // digits, in a budget that two characters and the marker would just fill.
  lemma LongestPrefixCanBeMissed() returns (v: Text, budget: Budget)
    ensures var take := TakeOf(Some(v), budget).0;
      && take.text.Some? && take.includedChars == 0
      && 2 <= |v| && Cost(v, 2) <= budget.value && !ServesLongest(v, budget)
  {
    v := [0xD800, 0xDC00] + Zeros(30);
    CostOfPairAndZeros(v, 2);
    budget := Budget(27, 0);
    CostOfLonePrefix(v);
    CostOfPairAndZeros(v, 3);
    CostOfPairAndZeros(v, 7);
    CostOfPairAndZeros(v, 16);
    SearchMisses(Costs(v), 27);
    assert v[..|v|] == v;
    EncodedPairAndZeros(v, |v|);
  }

  function Zeros(n: nat): (r: Text)
    ensures |r| == n && forall i :: 0 <= i < n ==> r[i] == 0x30
  {
    seq(n, _ => 0x30)
  }

  lemma SearchMisses(costs: seq<nat>, budget: int)
    requires |costs| == 33 && costs[0] <= budget
    requires budget < costs[1] && budget < costs[3] && budget < costs[7] && budget < costs[16]
    ensures Search(costs, budget, 0, 32, None) == Some(0)
  {
    assert Search(costs, budget, 0, 32, None) == Search(costs, budget, 0, 15, None);
    assert Search(costs, budget, 0, 15, None) == Search(costs, budget, 0, 6, None);
    assert Search(costs, budget, 0, 6, None) == Search(costs, budget, 0, 2, None);
    assert Search(costs, budget, 0, 2, None) == Search(costs, budget, 0, 0, None);
    assert Search(costs, budget, 0, 0, None) == Search(costs, budget, 1, 0, Some(0));
  }

  predicate PairAndZeros(v: Text) {
    |v| == 32 && v[0] == 0xD800 && v[1] == 0xDC00 && forall i :: 2 <= i < 32 ==> v[i] == 0x30
  }

  lemma EncodedPairAndZeros(v: Text, k: nat)
    requires PairAndZeros(v) && 2 <= k <= 32
    ensures EncodedLength(v[..k]) == k
  {
    assert v[..k] == v[..2] + v[2..k];
    EncodedConcat(v[..2], v[2..k]);
    EncodedPair(v[..2]);
    EncodedPlain(v[2..k]);
  }

  lemma CostOfPairAndZeros(v: Text, k: nat)
    requires PairAndZeros(v) && (k == 2 || k == 3 || k == 7 || k == 16)
    ensures Cost(v, k) == k + 25
  {
    EncodedPairAndZeros(v, k);
    CostOfCandidate(v, k);
    FixedPart();
    assert |Digits(32 - k)| == 2;
  }

  lemma CostOfLonePrefix(v: Text)
    requires PairAndZeros(v)
    ensures Cost(v, 0) == 25 && Cost(v, 1) == 31
  {
    assert v[..0] == [] && v[..1] == [0xD800];
    CostOfCandidate(v, 0);
    CostOfCandidate(v, 1);
    FixedPart();
    LoneSurrogate(0xD800);
    assert |Digits(32)| == 2 && |Digits(31)| == 2;
  }

  lemma FixedPart()
    ensures EncodedLength(TRUNCATED) == 16 && EncodedLength(CHARS) == 7 && EncodedLength([]) == 0
  {
    PlainLine(0x0A, TRUNCATED_TAIL);
    EncodedPlain(CHARS);
  }

  lemma PlainLine(newline: Unit, line: Text)
    requires newline == 0x0A && forall i :: 0 <= i < |line| ==> Plain(line[i])
    ensures EncodedLength([newline] + line) == 2 + |line|
  {
    EncodedConcat([newline], line);
    EncodedPlain(line);
    var e := EscapeUnit(newline);
    assert Escape([newline]) == e + [] == e;
    NothingToEscape(e);
  }

  lemma LoneSurrogate(u: Unit)
    requires IsLeading(u)
    ensures EncodedLength([u]) == 6
  {
    assert Escape([u]) == UnicodeEscape(u) + [] == UnicodeEscape(u);
    NothingToEscape(UnicodeEscape(u));
  }

  class EvidenceBudget {
    var value: int
    var omittedChars: nat

    function Left(): Budget
      reads this
    {
      Budget(value, omittedChars)
    }

    constructor (maximum: int)
      ensures Left() == Budget(maximum, 0)
    {
      value, omittedChars := maximum, 0;
    }

    method TakeBoundedEvidence(evidence: Option<Text>) returns (take: Take)
      modifies this
      ensures (take, Left()) == TakeOf(evidence, old(Left()))
    {
      if evidence.None? { return NOTHING; }
      var v := evidence.value;
      if value <= 0 {
        omittedChars := omittedChars + |v|;
        return NOTHING;
      }
      var fullLength := EncodedLength(v);
      if fullLength <= value {
        value := value - fullLength;
        return Take(Some(v), |v|);
      }
      var best := SearchPrefix(v, value);
      take := Settle(v, best);
    }

    // Account for the prefix that was found, if any.
    method Settle(v: Text, best: Option<nat>) returns (take: Take)
      requires best.Some? ==> best.value <= |v|
      modifies this
      ensures (take, Left()) == Settled(v, old(Left()), best)
    {
      if best.None? {
        omittedChars := omittedChars + |v|;
        return NOTHING;
      }
      omittedChars := omittedChars + |v| - best.value;
      value := value - EncodedLength(Candidate(v, best.value));
      take := Take(Some(Candidate(v, best.value)), best.value);
    }
  }
}
