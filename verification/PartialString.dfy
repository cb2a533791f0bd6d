/** Showing a summary while the model's JSON answer is still arriving. */
module PartialString {
  import opened Common
  import opened JsonText

  /** `\s` of the regular expression: the white space of Python's text type. */
  predicate IsSpace(c: Code) {
    9 <= c <= 13 || 28 <= c <= 32 || c == 0x85 || c == 0xA0 || c == 0x1680 || 0x2000 <= c <= 0x200A
    || c == 0x2028 || c == 0x2029 || c == 0x202F || c == 0x205F || c == 0x3000
  }

  function Spaces(t: Text): (n: nat)
    ensures n <= |t| && (n < |t| ==> !IsSpace(t[n])) && forall i :: 0 <= i < n ==> IsSpace(t[i])
  {
    if t == [] || !IsSpace(t[0]) then 0 else 1 + Spaces(t[1..])
  }

  /** The number of spaces before `mark`, if that is what follows the spaces. */
  function SpacesThen(t: Text, mark: Code): (n: Option<nat>)
    ensures n.Some? ==> n.value < |t| && t[n.value] == mark
  {
    var n := Spaces(t);
    if n < |t| && t[n] == mark then Some(n) else None
  }

  /** The length of `: "` at the start of `t`, with any white space before the colon and before the quote. */
  function MatchTail(t: Text): (length: Option<nat>)
    ensures length.Some? ==> 2 <= length.value <= |t| && t[length.value - 1] == QUOTE
  {
    match SpacesThen(t, COLON)
    case None => None
    case Some(n) =>
      match SpacesThen(t[n + 1..], QUOTE)
      case None => None
      case Some(m) => Some(n + 1 + m + 1)
  }

  function Quoted(key: Text): Text { [QUOTE] + key + [QUOTE] }

  /** The length of `"key" : "` at the start of `t`. */
  function MatchHere(t: Text, key: Text): (length: Option<nat>)
    ensures length.Some? ==> |key| + 4 <= length.value <= |t|
  {
    if !(Quoted(key) <= t) then None
    else match MatchTail(t[|key| + 2..])
      case None => None
      case Some(n) => Some(|key| + 2 + n)
  }

  /** The length of a match at the start of a text, if there is one. */
  type Matcher = Text -> Option<nat>

  function MatcherOf(key: Text): Matcher { (t: Text) => MatchHere(t, key) }

  /** The end of the leftmost match. */
  function FirstMatch(t: Text, m: Matcher): Option<nat> {
    if m(t).Some? then m(t)
    else if t == [] then None
    else match FirstMatch(t[1..], m)
      case None => None
      case Some(n) => Some(n + 1)
  }

  lemma {:induction false} FirstMatchEndsInside(t: Text, m: Matcher)
    requires forall x :: m(x).Some? ==> m(x).value <= |x|
    ensures FirstMatch(t, m).Some? ==> FirstMatch(t, m).value <= |t|
  {
    if m(t).None? && t != [] {
      FirstMatchEndsInside(t[1..], m);
    }
  }

  /** The end of the leftmost `"key" : "`. */
  function Search(t: Text, key: Text): (end: Option<nat>)
    ensures end.Some? ==> end.value <= |t|
  {
    FirstMatchEndsInside(t, MatcherOf(key));
    FirstMatch(t, MatcherOf(key))
  }

  function Unescape(c: Code): Code
    requires IsEscape(c)
  {
    if c == 98 then 8 else if c == 102 then 12 else if c == 110 then 10 else if c == 114 then 13
      else if c == 116 then 9 else c
  }

  /** How four characters after `\u` are read; outside hexadecimal digits this is the host language's number parser. */
  type HexReader = Text -> Option<Code>

  /** The next character and how much text it takes; nothing at the closing quote or at an unusable escape. */
  function Step(t: Text, hex: HexReader): (step: Option<(Code, nat)>)
    ensures step.Some? ==> 1 <= step.value.1 <= |t|
  {
    if t == [] || t[0] == QUOTE then None
    else if t[0] != BACKSLASH then Some((t[0], 1))
    else if |t| < 2 then None
    else if t[1] == LETTER_U then
      if |t| < 6 then None
      else match hex(t[2..6])
        case None => None
        case Some(c) => Some((c, 6))
    else if IsEscape(t[1]) then Some((Unescape(t[1]), 2))
    else None
  }

  function Decode(t: Text, hex: HexReader): Text
    decreases |t|
  {
    match Step(t, hex)
    case None => []
    case Some((c, n)) => [c] + Decode(t[n..], hex)
  }

  /** What `_partial_json_string_value` makes of a response that may still be incomplete. */
  function PartialValue(t: Text, key: Text, hex: HexReader): Text {
    match Search(t, key)
    case None => []
    case Some(end) => Decode(t[end..], hex)
  }

  method PartialJsonStringValue(text: Text, key: Text, hex: HexReader) returns (value: Text)
    ensures value == PartialValue(text, key, hex)
  {
    var found := Search(text, key);
    if found.None? {
      return [];
    }
    value := DecodeFrom(text, found.value, hex);
  }

  method DecodeFrom(text: Text, start: nat, hex: HexReader) returns (out: Text)
    requires start <= |text|
    ensures out == Decode(text[start..], hex)
  {
    var index := start;
    out := [];
    while index < |text|
      invariant start <= index <= |text|
      invariant Decode(text[start..], hex) == out + Decode(text[index..], hex)
    {
      var step := ReadStep(text, index, hex);
      if step.None? {
        break;
      }
      var (c, width) := step.value;
      Consumed(text, start, index, out, c, width, hex);
      out := out + [c];
      index := index + width;
    }
  }

  /** The body of the loop: one character or escape at `index`, with every read inside the text. */
  method ReadStep(text: Text, index: nat, hex: HexReader) returns (step: Option<(Code, nat)>)
    requires index < |text|
    ensures step == Step(text[index..], hex)
  {
    var c := text[index];
    if c == QUOTE {
      return None;
    }
    if c != BACKSLASH {
      return Some((c, 1));
    }
    if index + 1 >= |text| {
      return None;
    }
    var code := text[index + 1];
    if code != LETTER_U {
      return if IsEscape(code) then Some((Unescape(code), 2)) else None;
    }
    if index + 6 > |text| {
      return None;
    }
    assert text[index..][2..6] == text[index + 2..index + 6];
    var digit := hex(text[index + 2..index + 6]);
    step := if digit.None? then None else Some((digit.value, 6));
  }

  lemma Consumed(text: Text, start: nat, index: nat, out: Text, c: Code, width: nat, hex: HexReader)
    requires start <= index <= |text| && Step(text[index..], hex) == Some((c, width))
    requires Decode(text[start..], hex) == out + Decode(text[index..], hex)
    ensures Decode(text[start..], hex) == (out + [c]) + Decode(text[index + width..], hex)
  {
    assert text[index..][width..] == text[index + width..];
    assert out + ([c] + Decode(text[index + width..], hex)) == (out + [c]) + Decode(text[index + width..], hex);
  }

  // ---------------------------------------------------------------- monotone under streaming

  lemma StepIsLocal(a: Text, b: Text, hex: HexReader)
    requires Step(a, hex).Some?
    ensures Step(a + b, hex) == Step(a, hex)
  {
    if |a| >= 6 {
      assert (a + b)[2..6] == a[2..6];
    }
  }

  lemma {:induction false} DecodeIsMonotone(a: Text, b: Text, hex: HexReader)
    ensures Decode(a, hex) <= Decode(a + b, hex)
    decreases |a|
  {
    if Step(a, hex).Some? {
      var n := Step(a, hex).value.1;
      StepIsLocal(a, b, hex);
      assert (a + b)[n..] == a[n..] + b;
      DecodeIsMonotone(a[n..], b, hex);
    }
  }

  function Quotes(t: Text): nat { if t == [] then 0 else (if t[0] == QUOTE then 1 else 0) + Quotes(t[1..]) }

  lemma {:induction false} QuotesConcat(a: Text, b: Text)
    ensures Quotes(a + b) == Quotes(a) + Quotes(b)
  {
    if a == [] {
      assert a + b == b;
    } else {
      assert (a + b)[1..] == a[1..] + b;
      QuotesConcat(a[1..], b);
    }
  }

  lemma {:induction false} NoQuotes(t: Text)
    requires forall i :: 0 <= i < |t| ==> t[i] != QUOTE
    ensures Quotes(t) == 0
  {
    if t != [] {
      NoQuotes(t[1..]);
    }
  }

  lemma {:induction false} SpacesOfPrefix(a: Text, b: Text)
    requires Spaces(a + b) < |a| || Spaces(a) < |a|
    ensures Spaces(a + b) == Spaces(a)
  {
    if a != [] && IsSpace(a[0]) {
      assert (a + b)[1..] == a[1..] + b;
      SpacesOfPrefix(a[1..], b);
    }
  }

  lemma SpacesThenIsLocal(a: Text, b: Text, mark: Code)
    requires SpacesThen(a, mark).Some? || (SpacesThen(a + b, mark).Some? && SpacesThen(a + b, mark).value < |a|)
    ensures SpacesThen(a + b, mark) == SpacesThen(a, mark)
  {
    SpacesOfPrefix(a, b);
    var n := Spaces(a);
    assert n < |a| && (a + b)[n] == a[n];
  }

  /** A match reads nothing behind its end: it is found in every text that contains it, and in none that cuts it. */
  lemma TailIsLocal(a: Text, b: Text)
    requires MatchTail(a).Some? || (MatchTail(a + b).Some? && MatchTail(a + b).value <= |a|)
    ensures MatchTail(a + b) == MatchTail(a)
  {
    SpacesThenIsLocal(a, b, COLON);
    var n := SpacesThen(a, COLON).value;
    LateTailIsLocal(a, b, a + b, n, a[n + 1..]);
  }

  lemma LateTailIsLocal(a: Text, b: Text, t: Text, n: nat, rest: Text)
    requires t == a + b && SpacesThen(a, COLON) == SpacesThen(t, COLON) == Some(n) && rest == a[n + 1..]
    requires SpacesThen(rest, QUOTE).Some?
             || (SpacesThen(t[n + 1..], QUOTE).Some? && SpacesThen(t[n + 1..], QUOTE).value < |rest|)
    ensures MatchTail(t) == MatchTail(a)
  {
    RestOfConcat(a, b, n + 1);
    SpacesThenIsLocal(rest, b, QUOTE);
  }

  lemma MatchIsLocal(a: Text, b: Text, key: Text)
    requires MatchHere(a, key).Some? || (MatchHere(a + b, key).Some? && MatchHere(a + b, key).value <= |a|)
    ensures MatchHere(a + b, key) == MatchHere(a, key)
  {
    var k := |key| + 2;
    var rest := a[k..];
    PrefixOfConcat(a, b, Quoted(key));
    RestOfConcat(a, b, k);
    MatchIsHead(a, key);
    MatchIsHead(a + b, key);
    MatchFromTail(a, key, rest);
    MatchFromTail(a + b, key, rest + b);
    TailIsLocal(rest, b);
  }

  lemma MatchIsHead(t: Text, key: Text)
    ensures MatchHere(t, key).Some? ==> Quoted(key) <= t && |key| + 2 <= |t|
  {
  }

  lemma MatchFromTail(t: Text, key: Text, tail: Text)
    requires Quoted(key) <= t && t[|key| + 2..] == tail
    ensures MatchHere(t, key) == match MatchTail(tail) { case None => None case Some(n) => Some(|key| + 2 + n) }
  {
  }

  lemma RestOfConcat(a: Text, b: Text, k: nat)
    requires k <= |a|
    ensures (a + b)[k..] == a[k..] + b
  {
  }

  lemma PrefixOfConcat(a: Text, b: Text, head: Text)
    requires |head| <= |a|
    ensures head <= a + b <==> head <= a
  {
    assert (a + b)[..|head|] == a[..|head|];
  }

  /** The only quote in the tail of a match is its last character. */
  lemma TailHasOneQuote(t: Text)
    requires MatchTail(t).Some?
    ensures Quotes(t[..MatchTail(t).value - 1]) == 0
  {
    var e, n := MatchTail(t).value, Spaces(t);
    var second := t[n + 1..];
    forall i | 0 <= i < e - 1 ensures t[i] != QUOTE {
      if i > n {
        assert t[i] == second[i - n - 1];
      }
    }
    NoQuotes(t[..e - 1]);
  }

  /** For a key without quotes, a match contains three quotes, the third at its very end. */
  lemma MatchHasThreeQuotes(t: Text, key: Text)
    requires MatchHere(t, key).Some? && forall i :: 0 <= i < |key| ==> key[i] != QUOTE
    ensures Quotes(t[..MatchHere(t, key).value - 1]) == 2
    ensures Quotes(t) >= 3
  {
    var e, k := MatchHere(t, key).value, |key| + 2;
    QuotedHasTwo(key);
    TailHasOneQuote(t[k..]);
    QuotesBefore(t, Quoted(key), k, e);
  }

  lemma QuotesBefore(t: Text, head: Text, k: nat, e: nat)
    requires |head| == k < e <= |t| && head <= t && t[e - 1] == QUOTE
    requires Quotes(head) == 2 && Quotes(t[k..][..e - k - 1]) == 0
    ensures Quotes(t[..e - 1]) == 2 && Quotes(t) >= 3
  {
    var middle, last := t[k..][..e - k - 1], [QUOTE] + t[e..];
    assert t[..e - 1] == head + middle;
    QuotesConcat(head, middle);
    assert t == t[..e - 1] + last;
    QuotesConcat(t[..e - 1], last);
  }

  lemma QuotedHasTwo(key: Text)
    requires forall i :: 0 <= i < |key| ==> key[i] != QUOTE
    ensures Quotes(Quoted(key)) == 2
  {
    NoQuotes(key);
    QuotesConcat([QUOTE] + key, [QUOTE]);
    QuotesConcat([QUOTE], key);
    assert [QUOTE][1..] == [];
  }

  lemma QuotesOfPrefix(a: Text, t: Text)
    requires a <= t
    ensures Quotes(a) <= Quotes(t)
  {
    QuotesConcat(a, t[|a|..]);
    assert t == a + t[|a|..];
  }

  /** A match that straddles the end of `a` leaves at most two quotes in `a`. */
  lemma StraddlingMatch(a: Text, t: Text, key: Text, e: nat)
    requires a <= t && MatchHere(t, key) == Some(e) && e > |a|
    requires forall i :: 0 <= i < |key| ==> key[i] != QUOTE
    ensures Quotes(a) <= 2
  {
    MatchHasThreeQuotes(t, key);
    FewQuotesBefore(a, t, e - 1);
  }

  lemma FewQuotesBefore(a: Text, t: Text, n: nat)
    requires a <= t && |a| <= n <= |t| && Quotes(t[..n]) == 2
    ensures Quotes(a) <= 2
  {
    PrefixOfPrefix(a, t, n);
    QuotesOfPrefix(a, t[..n]);
  }

  lemma PrefixOfPrefix(a: Text, t: Text, n: nat)
    requires a <= t && |a| <= n <= |t|
    ensures a <= t[..n]
  {
  }

  /** A match contains three quotes, is found in every text that contains it, and leaves at most two quotes in a text
      that cuts it. */
  ghost predicate Steady(m: Matcher) {
    && (forall t :: m(t).Some? ==> Quotes(t) >= 3)
    && (forall a, b :: m(a).Some? ==> m(a + b) == m(a))
    && (forall a, b :: m(a + b).Some? ==> if m(a + b).value <= |a| then m(a) == m(a + b) else Quotes(a) <= 2)
  }

  lemma {:induction false} FirstMatchHasThreeQuotes(t: Text, m: Matcher)
    requires Steady(m) && FirstMatch(t, m).Some?
    ensures Quotes(t) >= 3
  {
    if m(t).None? {
      FirstMatchHasThreeQuotes(t[1..], m);
    }
  }

  lemma {:induction false} FirstMatchIsStable(a: Text, b: Text, m: Matcher)
    requires Steady(m) && FirstMatch(a, m).Some?
    ensures FirstMatch(a + b, m) == FirstMatch(a, m)
  {
    FirstMatchHasThreeQuotes(a, m);
    if m(a).Some? {
      assert m(a + b) == m(a);
    } else {
      assert m(a + b).None?;
      RestOfConcat(a, b, 1);
      FirstMatchIsStable(a[1..], b, m);
    }
  }

  lemma KeysAreSteady(key: Text)
    requires forall i :: 0 <= i < |key| ==> key[i] != QUOTE
    ensures Steady(MatcherOf(key))
  {
    var m := MatcherOf(key);
    forall t | m(t).Some? ensures Quotes(t) >= 3 {
      MatchHasThreeQuotes(t, key);
    }
    forall a, b | m(a).Some? ensures m(a + b) == m(a) {
      MatchIsLocal(a, b, key);
    }
    forall a, b | m(a + b).Some?
      ensures if m(a + b).value <= |a| then m(a) == m(a + b) else Quotes(a) <= 2
    {
      CutMatch(a, b, key);
    }
  }

  lemma CutMatch(a: Text, b: Text, key: Text)
    requires MatchHere(a + b, key).Some? && forall i :: 0 <= i < |key| ==> key[i] != QUOTE
    ensures var e := MatchHere(a + b, key).value;
            if e <= |a| then MatchHere(a, key) == MatchHere(a + b, key) else Quotes(a) <= 2
  {
    if MatchHere(a + b, key).value <= |a| {
      MatchIsLocal(a, b, key);
    } else {
      StraddlingMatch(a, a + b, key, MatchHere(a + b, key).value);
    }
  }

  /** More text never moves the place where the value starts, even when a match is split between two pieces. */
  lemma SearchIsStable(a: Text, b: Text, key: Text)
    requires Search(a, key).Some? && forall i :: 0 <= i < |key| ==> key[i] != QUOTE
    ensures Search(a + b, key) == Search(a, key)
  {
    KeysAreSteady(key);
    FirstMatchIsStable(a, b, MatcherOf(key));
  }

  /** The value shown for a prefix of a response is a prefix of the value shown for any extension of it. */
  lemma PartialValueIsMonotone(a: Text, b: Text, key: Text, hex: HexReader)
    requires forall i :: 0 <= i < |key| ==> key[i] != QUOTE
    ensures PartialValue(a, key, hex) <= PartialValue(a + b, key, hex)
  {
    if Search(a, key).Some? {
      var e := Search(a, key).value;
      SearchIsStable(a, b, key);
      assert (a + b)[e..] == a[e..] + b;
      DecodeIsMonotone(a[e..], b, hex);
    }
  }

  // ---------------------------------------------------------------- round trip

  function HexDigit(c: Code): Code
    requires IsHex(c)
  {
    if c <= 57 then c - 48 else if c <= 70 then c - 55 else c - 87
  }

  function HexValue(a: Code, b: Code, c: Code, d: Code): Code
    requires IsHex(a) && IsHex(b) && IsHex(c) && IsHex(d)
  {
    ((HexDigit(a) * 16 + HexDigit(b)) * 16 + HexDigit(c)) * 16 + HexDigit(d)
  }

  /** The reader agrees with RFC 8259 wherever that defines the escape. */
  ghost predicate ReadsHex(hex: HexReader) {
    forall a, b, c, d :: IsHex(a) && IsHex(b) && IsHex(c) && IsHex(d) ==>
              hex([a, b, c, d]) == Some(HexValue(a, b, c, d))
  }

  /** The character a piece of a string stands for; `\u` escapes are read one code unit at a time. */
  function Meaning(p: Piece): Code
    requires PieceOk(p)
  {
    match p
    case Plain(c) => c
    case Escaped(c) => Unescape(c)
    case Unicode(a, b, c, d) => HexValue(a, b, c, d)
  }

  function Meanings(pieces: seq<Piece>): Text
    requires PiecesOk(pieces)
  {
    if pieces == [] then [] else [Meaning(pieces[0])] + Meanings(pieces[1..])
  }

  lemma StepReadsPiece(p: Piece, rest: Text, hex: HexReader)
    requires PieceOk(p) && ReadsHex(hex)
    ensures Step(PrintPiece(p) + rest, hex) == Some((Meaning(p), |PrintPiece(p)|))
  {
    if p.Unicode? {
      assert (PrintPiece(p) + rest)[2..6] == [p.a, p.b, p.c, p.d];
    }
  }

  lemma {:induction false} DecodePrinted(pieces: seq<Piece>, rest: Text, hex: HexReader)
    requires PiecesOk(pieces) && ReadsHex(hex)
    ensures Decode(PrintPieces(pieces) + [QUOTE] + rest, hex) == Meanings(pieces)
  {
    if pieces != [] {
      var first, tail := PrintPiece(pieces[0]), PrintPieces(pieces[1..]) + [QUOTE] + rest;
      assert PrintPieces(pieces) + [QUOTE] + rest == first + tail;
      StepReadsPiece(pieces[0], tail, hex);
      assert (first + tail)[|first|..] == tail;
      DecodePrinted(pieces[1..], rest, hex);
    }
  }

  /** Standard escaping: quotes, backslashes and control characters are escaped, everything else stands for itself. */
  function EscapeCode(c: Code): (p: Piece)
    ensures PieceOk(p) && Meaning(p) == c
  {
    if c == QUOTE || c == BACKSLASH then Escaped(c)
    else if c == 8 then Escaped(98) else if c == 12 then Escaped(102) else if c == 10 then Escaped(110)
    else if c == 13 then Escaped(114) else if c == 9 then Escaped(116)
    else if c < 16 then Unicode(48, 48, 48, if c < 10 then 48 + c else 87 + c)
    else if c < 32 then Unicode(48, 48, 49, if c < 26 then 32 + c else 71 + c)
    else Plain(c)
  }

  function EscapeText(t: Text): (pieces: seq<Piece>)
    ensures PiecesOk(pieces)
  {
    if t == [] then [] else [EscapeCode(t[0])] + EscapeText(t[1..])
  }

  lemma {:induction false} EscapeThenRead(t: Text)
    ensures Meanings(EscapeText(t)) == t
  {
    if t != [] {
      EscapeThenRead(t[1..]);
    }
  }

  predicate AllSpace(s: Text) { forall i :: 0 <= i < |s| ==> IsSpace(s[i]) }

  lemma {:induction false} SpacesAre(s: Text, rest: Text)
    requires AllSpace(s) && (rest != [] ==> !IsSpace(rest[0]))
    ensures Spaces(s + rest) == |s|
  {
    if s == [] {
      assert s + rest == rest;
    } else {
      assert (s + rest)[1..] == s[1..] + rest;
      SpacesAre(s[1..], rest);
    }
  }

  lemma SpacesThenFound(s: Text, mark: Code, rest: Text)
    requires AllSpace(s) && !IsSpace(mark)
    ensures SpacesThen(s + ([mark] + rest), mark) == Some(|s|)
  {
    SpacesAre(s, [mark] + rest);
  }

  /** A quoted key, a colon in white space and an opening quote are a match, whatever follows. */
  lemma FieldIsMatched(key: Text, s1: Text, s2: Text, body: Text)
    requires AllSpace(s1) && AllSpace(s2)
    ensures MatchHere(Quoted(key) + (s1 + ([COLON] + (s2 + ([QUOTE] + body)))), key) == Some(|key| + |s1| + |s2| + 4)
  {
    var second := s2 + ([QUOTE] + body);
    TailIsMatched(s1, s2, second, body);
    HeadIsMatched(Quoted(key), s1 + ([COLON] + second));
  }

  lemma TailIsMatched(s1: Text, s2: Text, second: Text, body: Text)
    requires AllSpace(s1) && AllSpace(s2) && second == s2 + ([QUOTE] + body)
    ensures MatchTail(s1 + ([COLON] + second)) == Some(|s1| + |s2| + 2)
  {
    SpacesThenFound(s1, COLON, second);
    assert (s1 + ([COLON] + second))[|s1| + 1..] == second;
    SpacesThenFound(s2, QUOTE, body);
  }

  lemma HeadIsMatched(head: Text, tail: Text)
    ensures head <= head + tail && (head + tail)[|head|..] == tail
  {
  }

  lemma FieldTail(head: Text, s1: Text, s2: Text, body: Text)
    ensures (head + (s1 + ([COLON] + (s2 + ([QUOTE] + body)))))[|head| + |s1| + |s2| + 2..] == body
  {
  }

  lemma FieldEnds(t: Text, key: Text, s1: Text, s2: Text, body: Text, end: nat)
    requires AllSpace(s1) && AllSpace(s2) && end == |key| + |s1| + |s2| + 4
    requires t == Quoted(key) + (s1 + ([COLON] + (s2 + ([QUOTE] + body))))
    ensures MatchHere(t, key) == Some(end) && t[end..] == body
  {
    FieldIsMatched(key, s1, s2, body);
    FieldTail(Quoted(key), s1, s2, body);
  }

  lemma MatchedIsShown(t: Text, key: Text, end: nat, pieces: seq<Piece>, after: Text, hex: HexReader)
    requires MatchHere(t, key) == Some(end) && t[end..] == PrintPieces(pieces) + [QUOTE] + after
    requires PiecesOk(pieces) && ReadsHex(hex)
    ensures PartialValue(t, key, hex) == Meanings(pieces)
  {
    DecodePrinted(pieces, after, hex);
  }

  /** A field at the start of a text is shown as the meaning of its printed value. */
  lemma FieldIsShown(t: Text, key: Text, s1: Text, s2: Text, pieces: seq<Piece>, body: Text, after: Text,
                     hex: HexReader)
    requires AllSpace(s1) && AllSpace(s2) && PiecesOk(pieces) && ReadsHex(hex)
    requires body == PrintPieces(pieces) + [QUOTE] + after
    requires t == Quoted(key) + (s1 + ([COLON] + (s2 + ([QUOTE] + body))))
    ensures PartialValue(t, key, hex) == Meanings(pieces)
  {
    var end := |key| + |s1| + |s2| + 4;
    FieldEnds(t, key, s1, s2, body, end);
    MatchedIsShown(t, key, end, pieces, after, hex);
  }

  /** No match begins inside `a` when `rest` follows it. */
  ghost predicate Passes(a: Text, rest: Text, key: Text) {
    forall i :: 0 <= i < |a| ==> MatchHere(a[i..] + rest, key).None?
  }

  lemma {:induction false} FirstMatchPasses(a: Text, rest: Text, t: Text, m: Matcher)
    requires t == a + rest && forall i :: 0 <= i < |a| ==> m(a[i..] + rest).None?
    ensures FirstMatch(t, m) == match FirstMatch(rest, m) { case None => None case Some(n) => Some(|a| + n) }
    decreases |a|
  {
    if a == [] {
      assert t == rest;
    } else {
      assert a[0..] == a;
      assert m(t).None?;
      forall i | 0 <= i < |a[1..]| ensures m(a[1..][i..] + rest).None? {
        assert a[1..][i..] == a[i + 1..];
      }
      RestOfConcat(a, rest, 1);
      FirstMatchPasses(a[1..], rest, t[1..], m);
    }
  }

  /** Text in which no match begins changes nothing of what is shown. */
  lemma PassedTextIsIgnored(a: Text, rest: Text, key: Text, hex: HexReader)
    requires Passes(a, rest, key)
    ensures PartialValue(a + rest, key, hex) == PartialValue(rest, key, hex)
  {
    FirstMatchPasses(a, rest, a + rest, MatcherOf(key));
    if end :| Search(rest, key) == Some(end) {
      assert (a + rest)[|a| + end..] == rest[end..];
    }
  }

  /** The field as it stands in a document: a quoted key, a colon in white space, and the escaped value. */
  function Field(key: Text, s1: Text, s2: Text, value: Text): Text {
    Quoted(key) + s1 + [COLON] + s2 + PrintString(EscapeText(value))
  }

  lemma FieldShape(head: Text, s1: Text, s2: Text, inside: Text, after: Text)
    ensures (head + s1 + [COLON] + s2 + ([QUOTE] + inside + [QUOTE])) + after
         == head + (s1 + ([COLON] + (s2 + ([QUOTE] + (inside + [QUOTE] + after)))))
  {
  }

  /** A field that was escaped and closed is shown as exactly the text that was escaped, unless an earlier match
      begins before it. */
  lemma ClosedFieldIsShown(text: Text, before: Text, key: Text, s1: Text, s2: Text, value: Text, after: Text,
                           hex: HexReader)
    requires text == before + Field(key, s1, s2, value) + after
    requires forall i :: 0 <= i < |before| ==> MatchHere(text[i..], key).None?
    requires AllSpace(s1) && AllSpace(s2) && ReadsHex(hex)
    ensures PartialValue(text, key, hex) == value
  {
    var rest := Field(key, s1, s2, value) + after;
    assert text == before + rest;
    forall i | 0 <= i < |before| ensures MatchHere(before[i..] + rest, key).None? {
      RestOfConcat(before, rest, i);
    }
    PassedTextIsIgnored(before, rest, key, hex);
    FieldShape(Quoted(key), s1, s2, PrintPieces(EscapeText(value)), after);
    var body := PrintPieces(EscapeText(value)) + [QUOTE] + after;
    FieldIsShown(rest, key, s1, s2, EscapeText(value), body, after, hex);
    EscapeThenRead(value);
  }

  // ---------------------------------------------------------------- deltas

  const SUMMARY_LIMIT := 1200

  /** The public form of a summary: here only its length limit. */
  function Public(t: Text): Text { if |t| <= SUMMARY_LIMIT then t else t[..SUMMARY_LIMIT] }

  function Join(pieces: seq<Text>): Text {
    if pieces == [] then [] else Join(pieces[..|pieces| - 1]) + pieces[|pieces| - 1]
  }

  /** One streamed response: the provider's content callback and the loop's summary callback. */
  class SummaryStream {
    const key: Text
    const hex: HexReader
    var content: Text
    var lastSummary: Text
    var streamedSummary: Text
    ghost var deltas: Text  // every emitted delta, concatenated

    ghost predicate Valid()
      reads this
    {
      && (forall i :: 0 <= i < |key| ==> key[i] != QUOTE)
      && lastSummary == PartialValue(content, key, hex)
      && streamedSummary == Public(lastSummary)
      && deltas == streamedSummary
    }

    constructor (key: Text, hex: HexReader)
      requires forall i :: 0 <= i < |key| ==> key[i] != QUOTE
      ensures Valid() && content == [] && this.key == key && this.hex == hex
    {
      this.key, this.hex := key, hex;
      content, lastSummary, streamedSummary, deltas := [], [], [], [];
      new;
      assert PartialValue([], key, hex) == [];
    }

    method OnSummary(message: Text)
      modifies this`streamedSummary, this`deltas
      ensures streamedSummary == Public(message)
      ensures deltas == old(deltas) + if old(streamedSummary) <= Public(message)
                                      then Public(message)[|old(streamedSummary)|..] else Public(message)
    {
      var current := Public(message);
      var delta := if streamedSummary <= current then current[|streamedSummary|..] else current;
      streamedSummary := current;
      if delta == [] {
        return;
      }
      deltas := deltas + delta;
    }

    /** After every piece, the deltas sent so far add up to the summary shown so far. */
    method ContentDelta(piece: Text)
      requires Valid()
      modifies this
      ensures Valid() && content == old(content) + piece
    {
      PartialValueIsMonotone(content, piece, key, hex);
      content := content + piece;
      var summary := PartialJsonStringValue(content, key, hex);
      if summary != [] && summary != lastSummary {
        lastSummary := summary;
        OnSummary(summary);
      }
    }

    /** However a response is cut into pieces, its deltas concatenate to the public form of its last summary. */
    method Consume(pieces: seq<Text>)
      requires Valid() && content == []
      modifies this
      ensures content == Join(pieces)
      ensures deltas == Public(PartialValue(Join(pieces), key, hex))
    {
      for i := 0 to |pieces|
        invariant Valid() && content == Join(pieces[..i])
      {
        assert pieces[..i + 1][..i] == pieces[..i];
        ContentDelta(pieces[i]);
      }
      assert pieces[..|pieces|] == pieces;
    }
  }
}
