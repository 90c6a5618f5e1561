/**
 * The per-job cap on controller evidence, and its replay from the event log.
 *
 * Capped text ends in a marker that names what was left out.  Replay recognises the
 * marker it wrote itself and nothing else: evidence that was capped once replays to
 * exactly itself, whatever markers its author may have forged.
 */
module ControllerEvidence {
  import opened Common
  import opened CanonicalJson

  datatype Capped = Capped(value: Text, totalChars: nat, truncatedChars: nat)

  const NEWLINE: Unit := 0x0A
  const END_OF_MARKER: Unit := 0x5D
  // "...[job evidence capped: ", after the newline that starts a marker
  const CAPPED: Text := [0x2E, 0x2E, 0x2E, 0x5B, 0x6A, 0x6F, 0x62, 0x20, 0x65, 0x76, 0x69, 0x64, 0x65, 0x6E, 0x63, 0x65, 0x20, 0x63, 0x61, 0x70, 0x70, 0x65, 0x64, 0x3A, 0x20]
  // " chars omitted; total_chars="
  const OMITTED: Text := [0x20, 0x63, 0x68, 0x61, 0x72, 0x73, 0x20, 0x6F, 0x6D, 0x69, 0x74, 0x74, 0x65, 0x64, 0x3B, 0x20, 0x74, 0x6F, 0x74, 0x61, 0x6C, 0x5F, 0x63, 0x68, 0x61, 0x72, 0x73, 0x3D]
  // "; cap="
  const CAP: Text := [0x3B, 0x20, 0x63, 0x61, 0x70, 0x3D]

  datatype Marker = Marker(omitted: Text, total: Text, cap: Text)

  function MarkerNumbers(m: Marker): Text {
    m.omitted + (OMITTED + (m.total + (CAP + (m.cap + [END_OF_MARKER]))))
  }

  function MarkerBody(m: Marker): Text {
    CAPPED + MarkerNumbers(m)
  }

  function MarkerText(m: Marker): Text {
    [NEWLINE] + MarkerBody(m)
  }

  // capControllerEvidence
  function Cap(value: Text, maximum: nat): Capped {
    if |value| <= maximum then Capped(value, |value|, 0)
    else
      var omitted := |value| - maximum;
      Capped(value[..maximum] + MarkerText(Marker(Digits(omitted), Digits(|value|), Digits(maximum))),
             |value|, omitted)
  }

  // ------------------------------------------------------------ finding the marker

  function DigitSpan(t: Text): (r: Text)
    ensures r <= t && forall i :: 0 <= i < |r| ==> IsDigit(r[i])
  {
    if t == [] || !IsDigit(t[0]) then [] else [t[0]] + DigitSpan(t[1..])
  }

  // What follows a run of digits and then this text.
  function AfterDigits(t: Text, then': Text): Option<(Text, Text)> {
    var digits := DigitSpan(t);
    if digits == [] || !(then' <= t[|digits|..]) then None
    else Some((digits, t[|digits| + |then'|..]))
  }

  // The three numbers behind "capped: ", up to the end of the text.
  function NumbersOf(t: Text): Option<Marker> {
    var omitted := AfterDigits(t, OMITTED);
    if omitted.None? then None
    else
      var total := AfterDigits(omitted.value.1, CAP);
      if total.None? then None
      else
        var cap := AfterDigits(total.value.1, [END_OF_MARKER]);
        if cap.None? || cap.value.1 != [] then None
        else Some(Marker(omitted.value.0, total.value.0, cap.value.0))
  }

  // The marker that is this whole text, as the pattern reads it: each group takes a
  // maximal run of digits, and the text ends with the marker.
  function MarkerOf(t: Text): Option<Marker> {
    if t == [] || t[0] != NEWLINE || !(CAPPED <= t[1..]) then None else NumbersOf(t[1 + |CAPPED|..])
  }

  // The leftmost match of the pattern from this index on.
  function FindMarker(value: Text, from: nat): Option<(nat, Marker)>
    requires from <= |value|
    decreases |value| - from
  {
    if MarkerOf(value[from..]).Some? then Some((from, MarkerOf(value[from..]).value))
    else if from == |value| then None
    else FindMarker(value, from + 1)
  }

  // Number(digits), where it is exact.
  function NumberIn(digits: Text): Option<int> {
    if SafeInteger(Decimal(digits)) then Some(Decimal(digits)) else None
  }

  // The marker is the one that capping at this maximum writes for that total.
  predicate Genuine(index: nat, marker: Marker, declaredTotal: Option<int>, maximum: nat) {
    && index == maximum
    && NumberIn(marker.cap) == Some(maximum)
    && declaredTotal.Some? && SafeInteger(declaredTotal.value)
    && NumberIn(marker.total) == declaredTotal
    && NumberIn(marker.omitted).Some?
    && NumberIn(marker.omitted).value == declaredTotal.value - maximum
    && NumberIn(marker.omitted).value > 0
  }

  // capReplayedControllerEvidence
  function CapReplayed(value: Text, declaredTotal: Option<int>, maximum: nat): Capped {
    var found := FindMarker(value, 0);
    if found.Some? && Genuine(found.value.0, found.value.1, declaredTotal, maximum)
    then Capped(value, declaredTotal.value, NumberIn(found.value.1.omitted).value)
    else Cap(value, maximum)
  }

  // -------------------------------------------------------------------- the marker

  predicate OneLine(t: Text) {
    forall i :: 0 <= i < |t| ==> t[i] != NEWLINE
  }

  predicate AllDigits(t: Text) {
    t != [] && forall i :: 0 <= i < |t| ==> IsDigit(t[i])
  }

  predicate AllDigitsMarker(m: Marker) {
    AllDigits(m.omitted) && AllDigits(m.total) && AllDigits(m.cap)
  }

  lemma {:induction false} DigitSpanOf(digits: Text, rest: Text)
    requires forall i :: 0 <= i < |digits| ==> IsDigit(digits[i])
    requires rest != [] && !IsDigit(rest[0])
    ensures DigitSpan(digits + rest) == digits
  {
    if digits == [] {
      assert digits + rest == rest;
    } else {
      assert (digits + rest)[1..] == digits[1..] + rest;
      DigitSpanOf(digits[1..], rest);
    }
  }

  lemma AfterDigitsOf(digits: Text, then': Text, rest: Text)
    requires AllDigits(digits) && then' != [] && !IsDigit(then'[0])
    ensures AfterDigits(digits + (then' + rest), then') == Some((digits, rest))
  {
    DigitSpanOf(digits, then' + rest);
    var t := digits + (then' + rest);
    assert t[|digits|..] == then' + rest;
    assert t[|digits| + |then'|..] == rest;
  }

  // A marker reads back as what it says.
  lemma MarkerReadsBack(m: Marker)
    requires AllDigitsMarker(m)
    ensures MarkerOf(MarkerText(m)) == Some(m)
  {
    var end: Text := [END_OF_MARKER];
    var capped := m.cap + end;
    var totalled := m.total + (CAP + capped);
    var omitted := m.omitted + (OMITTED + totalled);
    var t := MarkerText(m);
    assert t[1..] == CAPPED + omitted;
    assert t[1 + |CAPPED|..] == omitted;
    AfterDigitsOf(m.omitted, OMITTED, totalled);
    AfterDigitsOf(m.total, CAP, capped);
    AfterDigitsOf(m.cap, end, []);
    assert end + [] == end;
  }

  lemma OneLineConcat(a: Text, b: Text)
    requires OneLine(a) && OneLine(b)
    ensures OneLine(a + b)
  {
  }

  lemma ConstantsAreOneLine()
    ensures OneLine(CAPPED) && OneLine(OMITTED) && OneLine(CAP) && OneLine([END_OF_MARKER])
  {
  }

  lemma MarkerBodyIsOneLine(m: Marker)
    requires AllDigitsMarker(m)
    ensures OneLine(MarkerBody(m))
  {
    ConstantsAreOneLine();
    var capped := m.cap + [END_OF_MARKER];
    OneLineConcat(m.cap, [END_OF_MARKER]);
    OneLineConcat(CAP, capped);
    OneLineConcat(m.total, CAP + capped);
    OneLineConcat(OMITTED, m.total + (CAP + capped));
    OneLineConcat(m.omitted, OMITTED + (m.total + (CAP + capped)));
    OneLineConcat(CAPPED, m.omitted + (OMITTED + (m.total + (CAP + capped))));
  }

  lemma AfterDigitsSplits(t: Text, then': Text)
    requires AfterDigits(t, then').Some?
    ensures var r := AfterDigits(t, then').value;
      AllDigits(r.0) && t == r.0 + (then' + r.1)
  {
    var digits := DigitSpan(t);
    assert t == digits + t[|digits|..];
    assert t[|digits|..] == then' + t[|digits|..][|then'|..];
  }

  lemma NumbersAreExact(t: Text)
    requires NumbersOf(t).Some?
    ensures AllDigitsMarker(NumbersOf(t).value) && t == MarkerNumbers(NumbersOf(t).value)
  {
    var omitted := AfterDigits(t, OMITTED).value;
    var total := AfterDigits(omitted.1, CAP).value;
    AfterDigitsSplits(t, OMITTED);
    AfterDigitsSplits(omitted.1, CAP);
    AfterDigitsSplits(total.1, [END_OF_MARKER]);
    assert [END_OF_MARKER] + [] == [END_OF_MARKER];
  }

  // What matches is a marker, with nothing before or after it.
  lemma MarkerOfIsExact(t: Text)
    requires MarkerOf(t).Some?
    ensures AllDigitsMarker(MarkerOf(t).value) && t == MarkerText(MarkerOf(t).value)
  {
    NumbersAreExact(t[1 + |CAPPED|..]);
    SplitPrefix(t, CAPPED);
  }

  lemma SplitPrefix(t: Text, prefix: Text)
    requires t != [] && prefix <= t[1..]
    ensures t == [t[0]] + (prefix + t[1 + |prefix|..])
  {
    assert t[1..][|prefix|..] == t[1 + |prefix|..];
  }

  // A match reaches to the end and holds one newline, its first: a text that ends in
  // a marker has no other match.
  lemma OnlyTheLastLineMatches(prefix: Text, m: Marker, i: nat)
    requires AllDigitsMarker(m) && i < |prefix|
    ensures MarkerOf((prefix + MarkerText(m))[i..]).None?
  {
    var value := prefix + MarkerText(m);
    var t := value[i..];
    assert t[|prefix| - i] == NEWLINE;
    if MarkerOf(t).Some? {
      MarkerOfIsExact(t);
      MarkerBodyIsOneLine(MarkerOf(t).value);
    }
  }

  lemma {:induction false} FindsLastMarker(prefix: Text, m: Marker, from: nat)
    requires AllDigitsMarker(m) && from <= |prefix|
    ensures FindMarker(prefix + MarkerText(m), from) == Some((|prefix|, m))
    decreases |prefix| - from
  {
    var value := prefix + MarkerText(m);
    if from == |prefix| {
      assert value[from..] == MarkerText(m);
      MarkerReadsBack(m);
    } else {
      OnlyTheLastLineMatches(prefix, m, from);
      FindsLastMarker(prefix, m, from + 1);
    }
  }

  lemma {:induction false} FoundInside(value: Text, from: nat)
    requires from <= |value| && FindMarker(value, from).Some?
    ensures FindMarker(value, from).value.0 < |value|
    decreases |value| - from
  {
    if MarkerOf(value[from..]).None? {
      FoundInside(value, from + 1);
    }
  }

  lemma {:induction false} FoundAt(value: Text, from: nat)
    requires from <= |value| && FindMarker(value, from).Some?
    ensures var found := FindMarker(value, from).value;
      found.0 <= |value| && MarkerOf(value[found.0..]) == Some(found.1)
    decreases |value| - from
  {
    if MarkerOf(value[from..]).None? {
      FoundAt(value, from + 1);
    }
  }

  // ------------------------------------------------------------------ main results

  // A marker with these numbers, behind exactly `maximum` characters, is accepted.
  lemma ReplayOfMarked(prefix: Text, m: Marker, total: nat, maximum: nat)
    requires AllDigitsMarker(m) && |prefix| == maximum < total <= MAX_SAFE_INTEGER
    requires Decimal(m.cap) == maximum && Decimal(m.total) == total && Decimal(m.omitted) == total - maximum
    ensures CapReplayed(prefix + MarkerText(m), Some(total), maximum)
      == Capped(prefix + MarkerText(m), total, total - maximum)
  {
    FindsLastMarker(prefix, m, 0);
  }

  // The marker that capping writes.
  lemma MarkerOfCapped(value: Text, maximum: nat) returns (m: Marker)
    requires maximum < |value|
    ensures Cap(value, maximum) == Capped(value[..maximum] + MarkerText(m), |value|, |value| - maximum)
    ensures AllDigitsMarker(m)
    ensures Decimal(m.cap) == maximum && Decimal(m.total) == |value| && Decimal(m.omitted) == |value| - maximum
  {
    m := Marker(Digits(|value| - maximum), Digits(|value|), Digits(maximum));
    DecimalOfDigits(|value| - maximum);
    DecimalOfDigits(|value|);
    DecimalOfDigits(maximum);
  }

  // Capped evidence replays to itself, forged markers in it or not.
  lemma ReplayOfCapped(value: Text, maximum: nat)
    requires |value| <= MAX_SAFE_INTEGER
    ensures var capped := Cap(value, maximum);
      && CapReplayed(capped.value, Some(capped.totalChars), maximum) == capped
      && capped.totalChars == |value|
      && (if |value| <= maximum then capped.value == value && capped.truncatedChars == 0
          else value[..maximum] <= capped.value && capped.truncatedChars == |value| - maximum)
  {
    if maximum < |value| {
      var m := MarkerOfCapped(value, maximum);
      ReplayOfMarked(value[..maximum], m, |value|, maximum);
    } else if FindMarker(value, 0).Some? {
      FoundInside(value, 0);
    }
  }

  // Replaying what replay made, with the total it reports, changes nothing.
  lemma ReplayIsStable(value: Text, declaredTotal: Option<int>, maximum: nat)
    requires |value| <= MAX_SAFE_INTEGER
    ensures var replayed := CapReplayed(value, declaredTotal, maximum);
      CapReplayed(replayed.value, Some(replayed.totalChars), maximum) == replayed
  {
    var found := FindMarker(value, 0);
    if !(found.Some? && Genuine(found.value.0, found.value.1, declaredTotal, maximum)) {
      ReplayOfCapped(value, maximum);
    }
  }

  // Replay accepts a text beyond the cap only if it is capped text: its first
  // `maximum` characters and the marker for the declared total.
  lemma ReplayAcceptsOnlyItsOwnMarker(value: Text, declaredTotal: Option<int>, maximum: nat)
    returns (m: Marker)
    requires CapReplayed(value, declaredTotal, maximum) != Cap(value, maximum)
    ensures maximum < |value| && value == value[..maximum] + MarkerText(m) && AllDigitsMarker(m)
    ensures declaredTotal == Some(Decimal(m.total)) && Decimal(m.cap) == maximum
    ensures Decimal(m.omitted) == Decimal(m.total) - maximum
    ensures CapReplayed(value, declaredTotal, maximum) == Capped(value, Decimal(m.total), Decimal(m.omitted))
  {
    var found := FindMarker(value, 0).value;
    FoundAt(value, 0);
    FoundInside(value, 0);
    MarkerOfIsExact(value[found.0..]);
    assert value == value[..maximum] + value[maximum..];
    m := found.1;
  }
}
