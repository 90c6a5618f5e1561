/**
 * canonicalJson: the text under every job id, hash and terminal-conflict check.
 *
 * Two values have the same canonical text exactly when they mean the same, that is
 * when they differ at most in the order of object keys.  One direction is a decoder
 * that reads the meaning back from the text; the other is that a set of keys has
 * only one ascending order.
 *
 * A number is the decimal that JSON.stringify prints for it.
 */
module CanonicalJson {

  // A UTF-16 code unit.
  type Unit = u: int | 0 <= u < 0x1_0000
  type Text = seq<Unit>

  datatype Json =
    | Null
    | Bool(b: bool)
    | Int(n: int)
    | Real(token: Text)
    | Str(s: Text)
    | Arr(items: Items)
    | Obj(members: Members)

  datatype Items = NoItems | Item(head: Json, tail: Items)

  // The own enumerable properties, in property order.
  datatype Members = NoMembers | Member(key: Text, value: Json, rest: Members)

  // What a value means: an object is its mapping from keys to values.
  datatype Value =
    | VNull
    | VBool(b: bool)
    | VInt(n: int)
    | VReal(token: Text)
    | VStr(s: Text)
    | VArr(items: seq<Value>)
    | VObj(members: map<Text, Value>)

  function Meaning(v: Json): Value {
    match v
    case Null => VNull
    case Bool(b) => VBool(b)
    case Int(n) => VInt(n)
    case Real(token) => VReal(token)
    case Str(s) => VStr(s)
    case Arr(items) => VArr(MeaningOfItems(items))
    case Obj(members) => VObj(MeaningOfMembers(members))
  }

  function MeaningOfItems(items: Items): seq<Value> {
    match items
    case NoItems => []
    case Item(head, tail) => [Meaning(head)] + MeaningOfItems(tail)
  }

  function MeaningOfMembers(members: Members): map<Text, Value> {
    match members
    case NoMembers => map[]
    case Member(key, value, rest) => map[key := Meaning(value)] + MeaningOfMembers(rest)
  }

  function Size(v: Json): nat {
    match v
    case Arr(items) => 1 + SizeOfItems(items)
    case Obj(members) => 1 + SizeOfMembers(members)
    case _ => 1
  }

  function SizeOfItems(items: Items): nat {
    match items
    case NoItems => 0
    case Item(head, tail) => 1 + Size(head) + SizeOfItems(tail)
  }

  function SizeOfMembers(members: Members): nat {
    match members
    case NoMembers => 0
    case Member(_, value, rest) => 1 + Size(value) + SizeOfMembers(rest)
  }

  // A value that can exist: keys of an object are distinct, and a number that is not
  // an integer has the token of one.
  predicate Proper(v: Json) {
    match v
    case Real(token) => IsRealToken(token)
    case Arr(items) => ProperItems(items)
    case Obj(members) => ProperMembers(members)
    case _ => true
  }

  predicate ProperItems(items: Items) {
    match items
    case NoItems => true
    case Item(head, tail) => Proper(head) && ProperItems(tail)
  }

  predicate ProperMembers(members: Members) {
    match members
    case NoMembers => true
    case Member(key, value, rest) => Proper(value) && !HasKey(rest, key) && ProperMembers(rest)
  }

  predicate HasKey(members: Members, key: Text) {
    match members
    case NoMembers => false
    case Member(first, _, rest) => first == key || HasKey(rest, key)
  }

  // ------------------------------------------------------------------- characters

  const QUOTE: Unit := 0x22
  const BACKSLASH: Unit := 0x5C
  const COMMA: Unit := 0x2C
  const COLON: Unit := 0x3A
  const LEFT_BRACKET: Unit := 0x5B
  const RIGHT_BRACKET: Unit := 0x5D
  const LEFT_BRACE: Unit := 0x7B
  const RIGHT_BRACE: Unit := 0x7D
  const MINUS: Unit := 0x2D
  const LOWER_U: Unit := 0x75

  const NULL_TEXT: Text := [0x6E, 0x75, 0x6C, 0x6C]
  const TRUE_TEXT: Text := [0x74, 0x72, 0x75, 0x65]
  const FALSE_TEXT: Text := [0x66, 0x61, 0x6C, 0x73, 0x65]

  predicate IsDigit(u: Unit) { 0x30 <= u <= 0x39 }

  // Digits, and - + . e.
  predicate IsNumberUnit(u: Unit) {
    IsDigit(u) || u == MINUS || u == 0x2B || u == 0x2E || u == 0x65
  }

  predicate IsFractionUnit(u: Unit) { u == 0x2E || u == 0x65 }

  predicate IsRealToken(token: Text) {
    && token != [] && (IsDigit(token[0]) || token[0] == MINUS)
    && (forall i :: 0 <= i < |token| ==> IsNumberUnit(token[i]))
    && (exists i :: 0 <= i < |token| && IsFractionUnit(token[i]))
  }

  // ---------------------------------------------------------------------- numbers

  function Digits(n: nat): (r: Text)
    ensures r != [] && forall i :: 0 <= i < |r| ==> IsDigit(r[i])
  {
    (if n < 10 then [] else Digits(n / 10)) + [0x30 + n % 10]
  }

  function Decimal(digits: Text): int {
    if digits == [] then 0
    else 10 * Decimal(digits[..|digits| - 1]) + digits[|digits| - 1] - 0x30
  }

  lemma {:induction false} DecimalOfDigits(n: nat)
    ensures Decimal(Digits(n)) == n
  {
    var last: Text := [0x30 + n % 10];
    if n < 10 {
      assert Digits(n) == last;
      assert last[..0] == [];
    } else {
      assert (Digits(n / 10) + last)[..|Digits(n / 10)|] == Digits(n / 10);
      DecimalOfDigits(n / 10);
    }
  }

  function IntText(n: int): Text {
    if n < 0 then [MINUS] + Digits(-n) else Digits(n)
  }

  function NumberOf(token: Text): Value
    requires token != []
  {
    if exists i :: 0 <= i < |token| && IsFractionUnit(token[i]) then VReal(token)
    else VInt(if token[0] == MINUS then -Decimal(token[1..]) else Decimal(token))
  }

  lemma NumberOfIntText(n: int)
    ensures IntText(n) != [] && (IsDigit(IntText(n)[0]) || IntText(n)[0] == MINUS)
    ensures forall i :: 0 <= i < |IntText(n)| ==> IsNumberUnit(IntText(n)[i])
    ensures NumberOf(IntText(n)) == VInt(n)
  {
    var magnitude := if n < 0 then -n else n;
    DecimalOfDigits(magnitude);
    assert n < 0 ==> IntText(n)[1..] == Digits(-n);
    assert forall i :: 0 <= i < |IntText(n)| ==> IsDigit(IntText(n)[i]) || IntText(n)[i] == MINUS;
  }

  // ---------------------------------------------------------------------- strings

  predicate IsLeading(u: Unit) { 0xD800 <= u <= 0xDBFF }
  predicate IsTrailing(u: Unit) { 0xDC00 <= u <= 0xDFFF }

  function HexDigit(n: int): Unit
    requires 0 <= n < 16
  {
    if n < 10 then 0x30 + n else 0x61 + n - 10
  }

  function HexValue(u: Unit): int {
    if IsDigit(u) then u - 0x30 else if 0x61 <= u <= 0x66 then u - 0x61 + 10 else -1
  }

  function UnicodeEscape(u: Unit): Text {
    [BACKSLASH, LOWER_U, HexDigit(u / 0x1000), HexDigit(u / 0x100 % 16), HexDigit(u / 0x10 % 16),
     HexDigit(u % 16)]
  }

  // The letter of the two-unit escape of a unit, if it has one.
  function ShortEscape(u: Unit): int {
    if u == QUOTE || u == BACKSLASH then u
    else if u == 0x08 then 0x62
    else if u == 0x09 then 0x74
    else if u == 0x0A then 0x6E
    else if u == 0x0C then 0x66
    else if u == 0x0D then 0x72
    else -1
  }

  function ShortEscaped(letter: Unit): int {
    if letter == QUOTE || letter == BACKSLASH then letter
    else if letter == 0x62 then 0x08
    else if letter == 0x74 then 0x09
    else if letter == 0x6E then 0x0A
    else if letter == 0x66 then 0x0C
    else if letter == 0x72 then 0x0D
    else -1
  }

  // One unit that is not part of a surrogate pair.
  function EscapeUnit(u: Unit): Text {
    if ShortEscape(u) >= 0 then [BACKSLASH, ShortEscape(u)]
    else if u < 0x20 || IsLeading(u) || IsTrailing(u) then UnicodeEscape(u)
    else [u]
  }

  predicate StartsWithPair(s: Text) {
    |s| >= 2 && IsLeading(s[0]) && IsTrailing(s[1])
  }

  // The characters of JSON.stringify of a string, without the quotes.
  function Escape(s: Text): Text {
    if s == [] then []
    else if StartsWithPair(s) then [s[0], s[1]] + Escape(s[2..])
    else EscapeUnit(s[0]) + Escape(s[1..])
  }

  function Quoted(s: Text): Text {
    [QUOTE] + Escape(s) + [QUOTE]
  }

  lemma Associative(a: Text, b: Text, c: Text)
    ensures (a + b) + c == a + (b + c)
  {
  }

  datatype Parsed<+T> = Parsed(value: T, rest: Text) | Malformed

  function UnescapeUnit(t: Text): (r: Parsed<Unit>)
    requires t != []
    ensures r.Parsed? ==> |r.rest| < |t|
  {
    if t[0] != BACKSLASH then
      if t[0] < 0x20 then Malformed else Parsed(t[0], t[1..])
    else if |t| < 2 then Malformed
    else if ShortEscaped(t[1]) >= 0 then Parsed(ShortEscaped(t[1]), t[2..])
    else if t[1] != LOWER_U || |t| < 6 then Malformed
    else
      var a, b, c, d := HexValue(t[2]), HexValue(t[3]), HexValue(t[4]), HexValue(t[5]);
      if a < 0 || b < 0 || c < 0 || d < 0 then Malformed
      else Parsed(0x1000 * a + 0x100 * b + 0x10 * c + d, t[6..])
  }

  // The rest of a string, up to its closing quote.
  function Unescape(t: Text): (r: Parsed<Text>)
    ensures r.Parsed? ==> |r.rest| < |t|
    decreases |t|
  {
    if t == [] then Malformed
    else if t[0] == QUOTE then Parsed([], t[1..])
    else
      var first := UnescapeUnit(t);
      if first.Malformed? then Malformed
      else
        var others := Unescape(first.rest);
        if others.Malformed? then Malformed else Parsed([first.value] + others.value, others.rest)
  }

  lemma HexDigitsOf(u: Unit)
    ensures 0x1000 * (u / 0x1000) + 0x100 * (u / 0x100 % 16) + 0x10 * (u / 0x10 % 16) + u % 16 == u
  {
    assert u / 0x10 / 16 == u / 0x100;
    assert u / 0x100 / 16 == u / 0x1000;
  }

  lemma HexValueOfDigit(n: int)
    requires 0 <= n < 16
    ensures HexValue(HexDigit(n)) == n
  {
  }

  lemma UnescapeUnicode(u: Unit, rest: Text)
    ensures UnescapeUnit(UnicodeEscape(u) + rest) == Parsed(u, rest)
  {
    var t := UnicodeEscape(u) + rest;
    assert t[6..] == rest;
    HexValueOfDigit(u / 0x1000);
    HexValueOfDigit(u / 0x100 % 16);
    HexValueOfDigit(u / 0x10 % 16);
    HexValueOfDigit(u % 16);
    HexDigitsOf(u);
  }

  lemma UnescapeEscapedUnit(u: Unit, rest: Text)
    ensures var t := EscapeUnit(u) + rest; t[0] != QUOTE && UnescapeUnit(t) == Parsed(u, rest)
  {
    var t := EscapeUnit(u) + rest;
    if ShortEscape(u) >= 0 {
      assert t[2..] == rest;
    } else if u < 0x20 || IsLeading(u) || IsTrailing(u) {
      UnescapeUnicode(u, rest);
    } else {
      assert t[1..] == rest;
    }
  }

  lemma UnescapePair(s: Text, after: Text, decoded: Text, rest: Text)
    requires StartsWithPair(s) && Unescape(after) == Parsed(decoded, rest)
    ensures Unescape([s[0], s[1]] + after) == Parsed([s[0], s[1]] + decoded, rest)
  {
    var second := [s[1]] + after;
    assert second[1..] == after;
    assert Unescape(second) == Parsed([s[1]] + decoded, rest);
    assert [s[0], s[1]] + after == [s[0]] + second;
    assert ([s[0]] + second)[1..] == second;
    assert [s[0]] + ([s[1]] + decoded) == [s[0], s[1]] + decoded;
  }

  lemma UnescapeEnd(rest: Text)
    ensures Unescape([] + ([QUOTE] + rest)) == Parsed([], rest)
  {
    var end := [QUOTE] + rest;
    assert [] + end == end && end[1..] == rest;
  }

  lemma UnescapeOne(u: Unit, after: Text, decoded: Text, rest: Text)
    requires Unescape(after) == Parsed(decoded, rest)
    ensures Unescape(EscapeUnit(u) + after) == Parsed([u] + decoded, rest)
  {
    UnescapeEscapedUnit(u, after);
  }

  // Decoding an escaped string gives the string back, lone surrogates included.
  lemma {:induction false} UnescapeEscaped(s: Text, rest: Text)
    ensures Unescape(Escape(s) + ([QUOTE] + rest)) == Parsed(s, rest)
    decreases |s|
  {
    var end := [QUOTE] + rest;
    if s == [] {
      UnescapeEnd(rest);
    } else if StartsWithPair(s) {
      UnescapeEscaped(s[2..], rest);
      var others := Escape(s[2..]);
      UnescapePair(s, others + end, s[2..], rest);
      assert Escape(s) == [s[0], s[1]] + others;
      Associative([s[0], s[1]], others, end);
      assert [s[0], s[1]] + s[2..] == s;
    } else {
      UnescapeEscaped(s[1..], rest);
      var first, others := EscapeUnit(s[0]), Escape(s[1..]);
      UnescapeOne(s[0], others + end, s[1..], rest);
      assert Escape(s) == first + others;
      Associative(first, others, end);
      assert [s[0]] + s[1..] == s;
    }
  }

  // -------------------------------------------------------------------- key order

  // Array.prototype.sort on strings: by UTF-16 code units.
  predicate Before(a: Text, b: Text) {
    if b == [] then false
    else if a == [] then true
    else if a[0] != b[0] then a[0] < b[0]
    else Before(a[1..], b[1..])
  }

  lemma {:induction false} BeforeIsTotal(a: Text, b: Text)
    ensures a != b ==> Before(a, b) || Before(b, a)
    ensures a == b ==> !Before(a, b)
  {
    if a != [] && b != [] && a[0] == b[0] {
      assert a == [a[0]] + a[1..] && b == [b[0]] + b[1..];
      BeforeIsTotal(a[1..], b[1..]);
    }
  }

  lemma {:induction false} BeforeIsTransitive(a: Text, b: Text, c: Text)
    requires Before(a, b) && Before(b, c)
    ensures Before(a, c)
  {
    if a != [] && a[0] == b[0] && b[0] == c[0] {
      BeforeIsTransitive(a[1..], b[1..], c[1..]);
    }
  }

  function Insert(key: Text, value: Json, members: Members): (r: Members)
    ensures SizeOfMembers(r) == 1 + Size(value) + SizeOfMembers(members)
  {
    if members.NoMembers? || Before(key, members.key) then Member(key, value, members)
    else Member(members.key, members.value, Insert(key, value, members.rest))
  }

  // The entries in the order of Object.keys(record).sort().
  function Sorted(members: Members): (r: Members)
    ensures SizeOfMembers(r) == SizeOfMembers(members)
  {
    match members
    case NoMembers => NoMembers
    case Member(key, value, rest) => Insert(key, value, Sorted(rest))
  }

  predicate Ascending(members: Members) {
    match members
    case NoMembers => true
    case Member(key, _, rest) => (rest.Member? ==> Before(key, rest.key)) && Ascending(rest)
  }

  lemma {:induction false} KeysOfMeaning(members: Members, key: Text)
    ensures HasKey(members, key) <==> key in MeaningOfMembers(members)
  {
    if members.Member? {
      KeysOfMeaning(members.rest, key);
    }
  }

  lemma {:induction false} InsertAscends(key: Text, value: Json, members: Members)
    requires Ascending(members) && !HasKey(members, key)
    ensures Ascending(Insert(key, value, members))
  {
    if members.Member? && !Before(key, members.key) {
      BeforeIsTotal(key, members.key);
      InsertAscends(key, value, members.rest);
    }
  }

  lemma {:induction false} InsertAddsKey(key: Text, value: Json, members: Members)
    requires Proper(value) && ProperMembers(members) && !HasKey(members, key)
    ensures ProperMembers(Insert(key, value, members))
    ensures forall k :: HasKey(Insert(key, value, members), k) <==> k == key || HasKey(members, k)
  {
    if members.Member? && !Before(key, members.key) {
      InsertAddsKey(key, value, members.rest);
    }
  }

  lemma {:induction false} InsertKeepsMeaning(key: Text, value: Json, members: Members)
    requires !HasKey(members, key)
    ensures MeaningOfMembers(Insert(key, value, members)) == MeaningOfMembers(Member(key, value, members))
  {
    if members.Member? && !Before(key, members.key) {
      InsertKeepsMeaning(key, value, members.rest);
      var added, first, others :=
        map[key := Meaning(value)], map[members.key := Meaning(members.value)], MeaningOfMembers(members.rest);
      assert first + (added + others) == added + (first + others);
    }
  }

  lemma {:induction false} SortingKeepsMeaning(members: Members)
    requires ProperMembers(members)
    ensures ProperMembers(Sorted(members)) && Ascending(Sorted(members))
    ensures MeaningOfMembers(Sorted(members)) == MeaningOfMembers(members)
    ensures forall k :: HasKey(Sorted(members), k) <==> HasKey(members, k)
  {
    if members.Member? {
      SortingKeepsMeaning(members.rest);
      InsertAscends(members.key, members.value, Sorted(members.rest));
      InsertAddsKey(members.key, members.value, Sorted(members.rest));
      InsertKeepsMeaning(members.key, members.value, Sorted(members.rest));
    }
  }

  // ---------------------------------------------------------------- canonical text

  function Canonical(v: Json): Text
    decreases Size(v)
  {
    match v
    case Null => NULL_TEXT
    case Bool(b) => if b then TRUE_TEXT else FALSE_TEXT
    case Int(n) => IntText(n)
    case Real(token) => token
    case Str(s) => Quoted(s)
    case Arr(items) => [LEFT_BRACKET] + CanonicalItems(items) + [RIGHT_BRACKET]
    case Obj(members) => [LEFT_BRACE] + CanonicalMembers(Sorted(members)) + [RIGHT_BRACE]
  }

  function CanonicalItems(items: Items): Text
    decreases SizeOfItems(items)
  {
    match items
    case NoItems => []
    case Item(head, tail) =>
      Canonical(head) + if tail.NoItems? then [] else [COMMA] + CanonicalItems(tail)
  }

  function CanonicalMembers(members: Members): Text
    decreases SizeOfMembers(members)
  {
    match members
    case NoMembers => []
    case Member(key, value, rest) =>
      Quoted(key) + [COLON] + Canonical(value) +
      if rest.NoMembers? then [] else [COMMA] + CanonicalMembers(rest)
  }

  // ------------------------------------------------------------------- the decoder

  function NumberSpan(t: Text): (r: Text)
    ensures r <= t
  {
    if t == [] || !IsNumberUnit(t[0]) then [] else [t[0]] + NumberSpan(t[1..])
  }

  function Parse(t: Text): (r: Parsed<Value>)
    ensures r.Parsed? ==> |r.rest| < |t|
    decreases |t|, 1
  {
    if t == [] then Malformed
    else if t[0] == QUOTE then
      var s := Unescape(t[1..]);
      if s.Malformed? then Malformed else Parsed(VStr(s.value), s.rest)
    else if t[0] == LEFT_BRACKET then
      if |t| > 1 && t[1] == RIGHT_BRACKET then Parsed(VArr([]), t[2..])
      else
        var items := ParseItems(t[1..]);
        if items.Malformed? then Malformed else Parsed(VArr(items.value), items.rest)
    else if t[0] == LEFT_BRACE then
      if |t| > 1 && t[1] == RIGHT_BRACE then Parsed(VObj(map[]), t[2..])
      else
        var members := ParseMembers(t[1..]);
        if members.Malformed? then Malformed else Parsed(VObj(members.value), members.rest)
    else if IsDigit(t[0]) || t[0] == MINUS then
      var token := NumberSpan(t);
      Parsed(NumberOf(token), t[|token|..])
    else if NULL_TEXT <= t then Parsed(VNull, t[4..])
    else if TRUE_TEXT <= t then Parsed(VBool(true), t[4..])
    else if FALSE_TEXT <= t then Parsed(VBool(false), t[5..])
    else Malformed
  }

  // The items of an array, after its bracket or a comma.
  function ParseItems(t: Text): (r: Parsed<seq<Value>>)
    ensures r.Parsed? ==> |r.rest| < |t|
    decreases |t|, 2
  {
    var head := Parse(t);
    if head.Malformed? || head.rest == [] then Malformed
    else if head.rest[0] == RIGHT_BRACKET then Parsed([head.value], head.rest[1..])
    else if head.rest[0] != COMMA then Malformed
    else
      var tail := ParseItems(head.rest[1..]);
      if tail.Malformed? then Malformed else Parsed([head.value] + tail.value, tail.rest)
  }

  function ParseMembers(t: Text): (r: Parsed<map<Text, Value>>)
    ensures r.Parsed? ==> |r.rest| < |t|
    decreases |t|, 2
  {
    if t == [] || t[0] != QUOTE then Malformed
    else
      var key := Unescape(t[1..]);
      if key.Malformed? || key.rest == [] || key.rest[0] != COLON then Malformed
      else
        var value := Parse(key.rest[1..]);
        if value.Malformed? || value.rest == [] then Malformed
        else if value.rest[0] == RIGHT_BRACE then Parsed(map[key.value := value.value], value.rest[1..])
        else if value.rest[0] != COMMA then Malformed
        else
          var others := ParseMembers(value.rest[1..]);
          if others.Malformed? then Malformed
          else Parsed(map[key.value := value.value] + others.value, others.rest)
  }

  // ------------------------------------------------------- decoding canonical text

  // What may follow a number.
  predicate Delimited(rest: Text) {
    rest == [] || !IsNumberUnit(rest[0])
  }

  lemma {:induction false} SpanOfToken(token: Text, rest: Text)
    requires Delimited(rest) && forall i :: 0 <= i < |token| ==> IsNumberUnit(token[i])
    ensures NumberSpan(token + rest) == token
  {
    if token == [] {
      assert token + rest == rest;
    } else {
      assert (token + rest)[1..] == token[1..] + rest;
      SpanOfToken(token[1..], rest);
    }
  }

  lemma ParseToken(token: Text, rest: Text)
    requires Delimited(rest) && forall i :: 0 <= i < |token| ==> IsNumberUnit(token[i])
    requires token != [] && (IsDigit(token[0]) || token[0] == MINUS)
    ensures Parse(token + rest) == Parsed(NumberOf(token), rest)
  {
    SpanOfToken(token, rest);
    assert (token + rest)[|token|..] == rest;
  }

  lemma ParseQuoted(s: Text, rest: Text)
    ensures var t := Quoted(s) + rest;
      t[0] == QUOTE && Unescape(t[1..]) == Parsed(s, rest)
  {
    assert (Quoted(s) + rest)[1..] == Escape(s) + ([QUOTE] + rest);
    UnescapeEscaped(s, rest);
  }

  // No canonical text starts like the end of an array.
  lemma CanonicalStart(v: Json)
    requires Proper(v)
    ensures Canonical(v) != [] && Canonical(v)[0] != RIGHT_BRACKET
  {
    if v.Int? { NumberOfIntText(v.n); }
  }

  // The decoder reads the meaning of a value back from its canonical text.
  lemma {:induction false} ParseCanonical(v: Json, rest: Text)
    requires Proper(v) && Delimited(rest)
    ensures Parse(Canonical(v) + rest) == Parsed(Meaning(v), rest)
    decreases Size(v), 1
  {
    var t := Canonical(v) + rest;
    match v {
      case Null => assert t[4..] == rest;
      case Bool(b) => assert t[if b then 4 else 5..] == rest;
      case Int(n) =>
        NumberOfIntText(n);
        ParseToken(IntText(n), rest);
      case Real(token) => ParseToken(token, rest);
      case Str(s) => ParseQuoted(s, rest);
      case Arr(items) => ParseCanonicalArray(items, rest);
      case Obj(members) => ParseCanonicalObject(members, rest);
    }
  }

  lemma ParseCanonicalArray(items: Items, rest: Text)
    requires ProperItems(items)
    ensures Parse(Canonical(Arr(items)) + rest) == Parsed(Meaning(Arr(items)), rest)
    decreases Size(Arr(items)), 0
  {
    var t := Canonical(Arr(items)) + rest;
    if items.NoItems? {
      assert t[2..] == rest;
    } else {
      CanonicalStart(items.head);
      assert t[1..] == CanonicalItems(items) + [RIGHT_BRACKET] + rest;
      ParseCanonicalItems(items, rest);
    }
  }

  lemma ParseCanonicalObject(members: Members, rest: Text)
    requires ProperMembers(members)
    ensures Parse(Canonical(Obj(members)) + rest) == Parsed(Meaning(Obj(members)), rest)
    decreases Size(Obj(members)), 0
  {
    hide Sorted, ParseMembers;
    var t := Canonical(Obj(members)) + rest;
    SortingKeepsMeaning(members);
    var sorted := Sorted(members);
    if sorted.NoMembers? {
      assert t[2..] == rest;
    } else {
      assert t[1..] == CanonicalMembers(sorted) + [RIGHT_BRACE] + rest;
      ParseCanonicalMembers(sorted, rest);
    }
  }

  lemma {:induction false} ParseCanonicalItems(items: Items, rest: Text)
    requires items.Item? && ProperItems(items)
    ensures ParseItems(CanonicalItems(items) + [RIGHT_BRACKET] + rest) == Parsed(MeaningOfItems(items), rest)
    decreases SizeOfItems(items), 1
  {
    var t := CanonicalItems(items) + [RIGHT_BRACKET] + rest;
    if items.tail.NoItems? {
      var after := [RIGHT_BRACKET] + rest;
      assert t == Canonical(items.head) + after;
      ParseCanonical(items.head, after);
      assert after[1..] == rest;
      assert MeaningOfItems(items) == [Meaning(items.head)];
    } else {
      var others := CanonicalItems(items.tail) + [RIGHT_BRACKET] + rest;
      var after := [COMMA] + others;
      assert t == Canonical(items.head) + after;
      ParseCanonical(items.head, after);
      assert after[1..] == others;
      ParseCanonicalItems(items.tail, rest);
    }
  }

  lemma ParseOneMember(key: Text, value: Value, text: Text, after: Text)
    requires after != [] && Parse(text + after) == Parsed(value, after)
    ensures var r := ParseMembers(Quoted(key) + ([COLON] + (text + after)));
      && (after[0] == RIGHT_BRACE ==> r == Parsed(map[key := value], after[1..]))
      && (after[0] == COMMA ==>
          var others := ParseMembers(after[1..]);
          others.Parsed? ==> r == Parsed(map[key := value] + others.value, others.rest))
  {
    var valued := [COLON] + (text + after);
    ParseQuoted(key, valued);
    assert valued[1..] == text + after;
  }

  lemma LastMemberText(key: Text, text: Text, rest: Text)
    ensures key + [COLON] + text + [] + [RIGHT_BRACE] + rest == key + ([COLON] + (text + ([RIGHT_BRACE] + rest)))
  {
  }

  lemma MemberText(key: Text, text: Text, others: Text, rest: Text)
    ensures key + [COLON] + text + ([COMMA] + others) + [RIGHT_BRACE] + rest
      == key + ([COLON] + (text + ([COMMA] + (others + [RIGHT_BRACE] + rest))))
  {
  }

  lemma ParseLastMember(key: Text, value: Value, text: Text, rest: Text)
    requires Parse(text + ([RIGHT_BRACE] + rest)) == Parsed(value, [RIGHT_BRACE] + rest)
    ensures ParseMembers(Quoted(key) + [COLON] + text + [] + [RIGHT_BRACE] + rest) == Parsed(map[key := value], rest)
  {
    var end := [RIGHT_BRACE] + rest;
    ParseOneMember(key, value, text, end);
    assert end[1..] == rest;
    LastMemberText(Quoted(key), text, rest);
  }

  lemma ParseAnotherMember(key: Text, value: Value, text: Text, others: Text, parsed: map<Text, Value>, rest: Text)
    requires var after := [COMMA] + (others + [RIGHT_BRACE] + rest); Parse(text + after) == Parsed(value, after)
    requires ParseMembers(others + [RIGHT_BRACE] + rest) == Parsed(parsed, rest)
    ensures ParseMembers(Quoted(key) + [COLON] + text + ([COMMA] + others) + [RIGHT_BRACE] + rest)
      == Parsed(map[key := value] + parsed, rest)
  {
    var after := [COMMA] + (others + [RIGHT_BRACE] + rest);
    ParseOneMember(key, value, text, after);
    assert after[1..] == others + [RIGHT_BRACE] + rest;
    MemberText(Quoted(key), text, others, rest);
  }

  lemma {:induction false} ParseCanonicalMembers(members: Members, rest: Text)
    requires members.Member? && ProperMembers(members)
    ensures ParseMembers(CanonicalMembers(members) + [RIGHT_BRACE] + rest)
      == Parsed(MeaningOfMembers(members), rest)
    decreases SizeOfMembers(members), 1
  {
    var value, text := Meaning(members.value), Canonical(members.value);
    if members.rest.NoMembers? {
      ParseCanonical(members.value, [RIGHT_BRACE] + rest);
      ParseLastMember(members.key, value, text, rest);
      assert map[members.key := value] + map[] == map[members.key := value];
    } else {
      var others := CanonicalMembers(members.rest);
      ParseCanonical(members.value, [COMMA] + (others + [RIGHT_BRACE] + rest));
      ParseCanonicalMembers(members.rest, rest);
      ParseAnotherMember(members.key, value, text, others, MeaningOfMembers(members.rest), rest);
    }
  }

  // ------------------------------------------------------------------ main results

  lemma {:induction false} AscendingKeyIsLeast(members: Members, key: Text)
    requires members.Member? && Ascending(members) && HasKey(members.rest, key)
    ensures Before(members.key, key)
  {
    if members.rest.key != key {
      AscendingKeyIsLeast(members.rest, key);
      BeforeIsTransitive(members.key, members.rest.key, key);
    }
  }

  // Two ascending lists of members with one meaning start with the same key.
  lemma SameFirstKey(a: Members, b: Members)
    requires a.Member? && Ascending(a) && Ascending(b)
    requires MeaningOfMembers(a) == MeaningOfMembers(b)
    ensures b.Member? && a.key == b.key
  {
    KeysOfMeaning(a, a.key);
    KeysOfMeaning(b, a.key);
    KeysOfMeaning(a, b.key);
    KeysOfMeaning(b, b.key);
    if a.key != b.key {
      AscendingKeyIsLeast(a, b.key);
      AscendingKeyIsLeast(b, a.key);
      BeforeIsTransitive(a.key, b.key, a.key);
      BeforeIsTotal(a.key, a.key);
    }
  }

  lemma MeaningOfRest(members: Members)
    requires members.Member? && !HasKey(members.rest, members.key)
    ensures MeaningOfMembers(members.rest) == MeaningOfMembers(members) - {members.key}
    ensures MeaningOfMembers(members)[members.key] == Meaning(members.value)
  {
    KeysOfMeaning(members.rest, members.key);
  }

  lemma {:induction false} SameMeaningSameText(a: Json, b: Json)
    requires Proper(a) && Proper(b) && Meaning(a) == Meaning(b)
    ensures Canonical(a) == Canonical(b)
    decreases Size(a), 0
  {
    if a.Arr? {
      SameItemsSameText(a.items, b.items);
    } else if a.Obj? {
      SortingKeepsMeaning(a.members);
      SortingKeepsMeaning(b.members);
      SameMembersSameText(Sorted(a.members), Sorted(b.members));
    }
  }

  lemma {:induction false} SameItemsSameText(a: Items, b: Items)
    requires ProperItems(a) && ProperItems(b) && MeaningOfItems(a) == MeaningOfItems(b)
    ensures CanonicalItems(a) == CanonicalItems(b) && (a.NoItems? <==> b.NoItems?)
    decreases SizeOfItems(a), 1
  {
    if a.Item? {
      assert MeaningOfItems(a)[0] == Meaning(a.head) && MeaningOfItems(a)[1..] == MeaningOfItems(a.tail);
      assert MeaningOfItems(b)[0] == Meaning(b.head) && MeaningOfItems(b)[1..] == MeaningOfItems(b.tail);
      SameMeaningSameText(a.head, b.head);
      SameItemsSameText(a.tail, b.tail);
    }
  }

  lemma {:induction false} SameMembersSameText(a: Members, b: Members)
    requires ProperMembers(a) && ProperMembers(b) && Ascending(a) && Ascending(b)
    requires MeaningOfMembers(a) == MeaningOfMembers(b)
    ensures CanonicalMembers(a) == CanonicalMembers(b) && (a.NoMembers? <==> b.NoMembers?)
    decreases SizeOfMembers(a), 1
  {
    if a.Member? {
      SameFirstKey(a, b);
      MeaningOfRest(a);
      MeaningOfRest(b);
      SameMeaningSameText(a.value, b.value);
      SameMembersSameText(a.rest, b.rest);
    } else if b.Member? {
      SameFirstKey(b, a);
    }
  }

  // canonicalJson is injective up to the order of object keys, and does not depend
  // on that order.
  lemma SameTextExactlyWhenSameMeaning(a: Json, b: Json)
    requires Proper(a) && Proper(b)
    ensures Canonical(a) == Canonical(b) <==> Meaning(a) == Meaning(b)
  {
    if Canonical(a) == Canonical(b) {
      ParseCanonical(a, []);
      ParseCanonical(b, []);
    } else if Meaning(a) == Meaning(b) {
      SameMeaningSameText(a, b);
    }
  }
}
