/** Which member of a printed object is shown while the object is still arriving. */
module SummaryField {
  import opened Common
  import opened JsonText
  import opened PartialString

  /** A key that is printed as itself and cannot be mistaken for punctuation. */
  predicate SimpleKey(key: Text) {
    && key != [] && !IsBlank(key[0]) && !Stop(key[0]) && key[0] != COLON
    && forall i :: 0 <= i < |key| ==> key[i] >= 32 && key[i] != QUOTE && key[i] != BACKSLASH
  }

  predicate Stop(c: Code) { c == COMMA || c == RIGHT || c == CLOSE }

  /** What may follow a value: blanks, then punctuation other than a colon. */
  predicate Fenced(t: Text) { t != [] && (Stop(t[0]) || (IsBlank(t[0]) && Fenced(t[1..]))) }

  /** A printed name that ends in the key, alone or behind an escaped quote. */
  predicate EndsInKey(printed: Text, key: Text) {
    && |key| <= |printed| && printed[|printed| - |key|..] == key
    && (|key| == |printed| || printed[|printed| - |key| - 1] == QUOTE)
  }

  /** What a printed string means. */
  function Meant(v: Json): Text
    requires v.Str? && JsonOk(v)
  {
    Meanings(v.pieces)
  }

  /** What the first string member means whose printed name ends in the key, in the order of the text and at any
      depth. */
  function Loud(v: Json, key: Text): Option<Text>
    requires JsonOk(v)
  {
    match v
    case Atom(_) | Str(_) => None
    case Arr(_, items) => LoudItem(items, key)
    case Obj(_, members) => LoudMember(members, key)
  }

  function LoudItem(items: Items, key: Text): Option<Text>
    requires ItemsOk(items)
  {
    match items
    case NoItems => None
    case Item(_, value, _, rest) => if Loud(value, key).Some? then Loud(value, key) else LoudItem(rest, key)
  }

  function LoudMember(members: Members, key: Text): Option<Text>
    requires MembersOk(members)
  {
    match members
    case NoMembers => None
    case Member(_, name, _, _, value, _, rest) =>
      if value.Str? && EndsInKey(PrintPieces(name), key) then Some(Meant(value))
      else if Loud(value, key).Some? then Loud(value, key)
      else LoudMember(rest, key)
  }

  /** The value of the first top-level string member with exactly this name. */
  function TopField(members: Members, key: Text): Option<Text>
    requires MembersOk(members)
  {
    match members
    case NoMembers => None
    case Member(_, name, _, _, value, _, rest) =>
      if value.Str? && PrintPieces(name) == key then Some(Meant(value)) else TopField(rest, key)
  }

  /** What is shown of a loud text, or else of what follows. */
  function Or(loud: Option<Text>, shown: Text): Text { match loud { case Some(t) => t case None => shown } }

  // ---------------------------------------------------------------- text in which no match begins

  lemma {:induction false} FencedBehindBlanks(t: Text, rest: Text)
    requires Blank(t) && Fenced(rest)
    ensures Fenced(t + rest)
  {
    if t == [] {
      assert t + rest == rest;
    } else {
      assert (t + rest)[1..] == t[1..] + rest;
      FencedBehindBlanks(t[1..], rest);
    }
  }

  lemma {:induction false} FencedHasNoColon(t: Text)
    requires Fenced(t)
    ensures SpacesThen(t, COLON).None? && MatchTail(t).None?
  {
    if !Stop(t[0]) {
      FencedHasNoColon(t[1..]);
    }
  }

  lemma QuotelessIsPassed(t: Text, rest: Text, key: Text, hex: HexReader)
    requires forall i :: 0 <= i < |t| ==> t[i] != QUOTE
    ensures PartialValue(t + rest, key, hex) == PartialValue(rest, key, hex)
  {
    forall i | 0 <= i < |t| ensures MatchHere(t[i..] + rest, key).None? {
      assert (t[i..] + rest)[0] == t[i] && Quoted(key)[0] == QUOTE;
    }
    PassedTextIsIgnored(t, rest, key, hex);
  }

  /** Quotes inside a printed string are escaped. */
  lemma {:induction false} InnerQuotesAreEscaped(pieces: seq<Piece>, i: nat)
    requires PiecesOk(pieces) && i < |PrintPieces(pieces)| && PrintPieces(pieces)[i] == QUOTE
    ensures i > 0 && PrintPieces(pieces)[i - 1] == BACKSLASH
  {
    var n := |PrintPiece(pieces[0])|;
    if i >= n {
      InnerQuotesAreEscaped(pieces[1..], i - n);
    }
  }

  /** A printed string passes, unless it ends in the key and a colon with another string follows. */
  lemma StringIsPassed(pieces: seq<Piece>, rest: Text, key: Text, hex: HexReader)
    requires PiecesOk(pieces) && SimpleKey(key)
    requires rest != [] ==> rest[0] != key[0]
    requires MatchTail(rest).None? || !EndsInKey(PrintPieces(pieces), key)
    ensures PartialValue(PrintString(pieces) + rest, key, hex) == PartialValue(rest, key, hex)
  {
    var t, p := PrintString(pieces), PrintPieces(pieces);
    forall i | 0 <= i < |t| ensures MatchHere(t[i..] + rest, key).None? {
      if Quoted(key) <= t[i..] + rest {
        MatchedStringEnds(pieces, p, t, rest, key, i, t[i..] + rest);
      }
    }
    PassedTextIsIgnored(t, rest, key, hex);
  }

  /** The quoted key, character by character. */
  ghost predicate StartsQuoted(w: Text, key: Text) {
    && |key| + 2 <= |w| && w[0] == QUOTE && w[|key| + 1] == QUOTE
    && forall j :: 1 <= j <= |key| ==> w[j] == key[j - 1]
  }

  lemma QuotedCharacters(w: Text, key: Text)
    requires Quoted(key) <= w
    ensures StartsQuoted(w, key)
  {
    assert Quoted(key)[|key| + 1] == QUOTE;
    forall j | 1 <= j <= |key| ensures w[j] == key[j - 1] {
      assert Quoted(key)[j] == key[j - 1];
    }
  }

  /** Where the quoted key stands in a printed string, if it does: at its end. */
  lemma MatchedStringEnds(pieces: seq<Piece>, p: Text, t: Text, rest: Text, key: Text, i: nat, w: Text)
    requires PiecesOk(pieces) && p == PrintPieces(pieces) && t == PrintString(pieces) && SimpleKey(key)
    requires i < |t| && w == t[i..] + rest && Quoted(key) <= w && (rest != [] ==> rest[0] != key[0])
    ensures EndsInKey(p, key) && w[|key| + 2..] == rest && i + |key| + 2 == |t|
  {
    QuotedCharacters(w, key);
    assert t == [QUOTE] + p + [QUOTE];
    if i == |p| + 1 {
      KeyBehindString(t, rest, key, i, w);
    } else {
      FromPosition(p, t, rest, i, w);
      if i + |key| < |p| {
        KeyInsideString(pieces, p, key, i, w);
      } else if i + |key| > |p| {
        KeyAcrossEnd(p, key, i, w);
      } else {
        KeyAtEnd(p, key, i, w);
      }
    }
  }

  lemma KeyBehindString(t: Text, rest: Text, key: Text, i: nat, w: Text)
    requires i + 1 == |t| && w == t[i..] + rest && StartsQuoted(w, key) && key != []
    ensures rest != [] && rest[0] == key[0]
  {
    assert w[1] == rest[0];
  }

  /** The characters of `w` that come from the inside of a printed string, of which `i` are skipped. */
  ghost predicate Inside(w: Text, p: Text, i: nat) {
    && i <= |p| && |p| - i + 2 <= |w| && w[|p| - i + 1] == QUOTE
    && forall y :: 1 <= y <= |p| - i ==> w[y] == p[i + y - 1]
  }

  lemma FromPosition(p: Text, t: Text, rest: Text, i: nat, w: Text)
    requires t == [QUOTE] + p + [QUOTE] && i <= |p| && w == t[i..] + rest
    ensures Inside(w, p, i) && (i > 0 ==> w[0] == p[i - 1]) && w[|p| - i + 2..] == rest
  {
    forall y | 1 <= y <= |p| - i ensures w[y] == p[i + y - 1] {
      assert w[y] == t[i + y];
    }
  }

  lemma KeyInsideString(pieces: seq<Piece>, p: Text, key: Text, i: nat, w: Text)
    requires PiecesOk(pieces) && p == PrintPieces(pieces) && key != [] && i + |key| < |p|
    requires StartsQuoted(w, key) && Inside(w, p, i)
    ensures key[|key| - 1] == BACKSLASH
  {
    assert w[|key|] == p[i + |key| - 1] && w[|key| + 1] == p[i + |key|];
    InnerQuotesAreEscaped(pieces, i + |key|);
  }

  lemma KeyAcrossEnd(p: Text, key: Text, i: nat, w: Text)
    requires i + |key| > |p| && StartsQuoted(w, key) && Inside(w, p, i)
    ensures key[|p| - i] == QUOTE
  {
    assert w[|p| - i + 1] == key[|p| - i];
  }

  lemma KeyAtEnd(p: Text, key: Text, i: nat, w: Text)
    requires i + |key| == |p| && StartsQuoted(w, key) && Inside(w, p, i) && (i > 0 ==> w[0] == p[i - 1])
    ensures EndsInKey(p, key)
  {
    forall x | 0 <= x < |key| ensures p[i..][x] == key[x] {
      assert w[x + 1] == p[i + (x + 1) - 1];
    }
    assert p[i..] == key;
  }

  /** A printed string that ends in the key counts from there on: nothing before that is a match. */
  lemma StringCountsFromKey(pieces: seq<Piece>, rest: Text, key: Text, hex: HexReader)
    requires PiecesOk(pieces) && SimpleKey(key) && EndsInKey(PrintPieces(pieces), key)
    requires rest != [] ==> rest[0] != key[0]
    ensures PartialValue(PrintString(pieces) + rest, key, hex) == PartialValue(Quoted(key) + rest, key, hex)
  {
    var t, p := PrintString(pieces), PrintPieces(pieces);
    var start := t[..|p| - |key|];
    QuotedEnd(p, t, start, key);
    forall i | 0 <= i < |start| ensures MatchHere(start[i..] + (Quoted(key) + rest), key).None? {
      SuffixShape(t, start, Quoted(key), rest, i);
      if Quoted(key) <= t[i..] + rest {
        MatchedStringEnds(pieces, p, t, rest, key, i, t[i..] + rest);
      }
    }
    PassedTextIsIgnored(start, Quoted(key) + rest, key, hex);
    SuffixShape(t, start, Quoted(key), rest, 0);
    assert t[0..] == t && start[0..] == start;
  }

  lemma QuotedEnd(p: Text, t: Text, start: Text, key: Text)
    requires t == [QUOTE] + p + [QUOTE] && EndsInKey(p, key) && start == t[..|p| - |key|]
    ensures t == start + Quoted(key)
  {
    var n := |p| - |key|;
    assert t[n] == QUOTE && t[n + 1..|p| + 1] == p[n..];
    assert t == t[..n] + ([t[n]] + t[n + 1..|p| + 1] + [QUOTE]);
  }

  lemma SuffixShape(t: Text, start: Text, end: Text, rest: Text, i: nat)
    requires t == start + end && i <= |start|
    ensures t[i..] + rest == start[i..] + (end + rest)
  {
    assert t[i..] == start[i..] + end;
  }

  /** A printed value shows its loud member, if it has one, and is passed over otherwise. */
  lemma ValueShows(v: Json, rest: Text, key: Text, hex: HexReader)
    requires JsonOk(v) && SimpleKey(key) && Fenced(rest) && ReadsHex(hex)
    ensures PartialValue(Print(v) + rest, key, hex) == Or(Loud(v, key), PartialValue(rest, key, hex))
    decreases v
  {
    match v {
      case Atom(text) => QuotelessIsPassed(text, rest, key, hex);
      case Str(pieces) =>
        FencedHasNoColon(rest);
        StringIsPassed(pieces, rest, key, hex);
      case Arr(inner, items) =>
        BracketShape([LEFT] + inner, PrintItems(items), RIGHT, rest);
        QuotelessIsPassed([LEFT] + inner, PrintItems(items) + ([RIGHT] + rest), key, hex);
        ItemsShow(items, [RIGHT] + rest, key, hex);
        QuotelessIsPassed([RIGHT], rest, key, hex);
      case Obj(inner, members) => ObjectShows(inner, members, rest, key, hex);
    }
  }

  /** What follows an object matters only if nothing in it is loud; it may be any text. */
  lemma ObjectShows(inner: Text, members: Members, rest: Text, key: Text, hex: HexReader)
    requires Blank(inner) && MembersOk(members) && SimpleKey(key) && ReadsHex(hex)
    ensures PartialValue(([OPEN] + inner + PrintMembers(members) + [CLOSE]) + rest, key, hex)
         == Or(LoudMember(members, key), PartialValue(rest, key, hex))
    decreases members, 2
  {
    BracketShape([OPEN] + inner, PrintMembers(members), CLOSE, rest);
    QuotelessIsPassed([OPEN] + inner, PrintMembers(members) + ([CLOSE] + rest), key, hex);
    MembersShow(members, [CLOSE] + rest, key, hex);
    QuotelessIsPassed([CLOSE], rest, key, hex);
  }

  lemma BracketShape(start: Text, inside: Text, close: Code, rest: Text)
    requires Stop(close)
    ensures (start + inside + [close]) + rest == start + (inside + ([close] + rest))
    ensures Fenced([close] + rest)
  {
  }

  lemma ItemsShow(items: Items, rest: Text, key: Text, hex: HexReader)
    requires ItemsOk(items) && SimpleKey(key) && Fenced(rest) && ReadsHex(hex)
    ensures PartialValue(PrintItems(items) + rest, key, hex) == Or(LoudItem(items, key), PartialValue(rest, key, hex))
    decreases items, 1
  {
    match items {
      case NoItems => assert PrintItems(items) + rest == rest;
      case Item(before, value, after, more) =>
        ItemShows(items, rest, key, hex);
        ItemsShow(more, rest, key, hex);
    }
  }

  /** An item shows what its value does, and what follows it. */
  lemma ItemShows(items: Items, rest: Text, key: Text, hex: HexReader)
    requires items.Item? && ItemsOk(items) && SimpleKey(key) && Fenced(rest) && ReadsHex(hex)
    ensures PartialValue(PrintItems(items) + rest, key, hex)
         == Or(Loud(items.value, key), PartialValue(PrintItems(items.rest) + rest, key, hex))
    decreases items, 0
  {
    var Item(before, value, after, more) := items;
    var next := PrintItems(more) + rest;
    var comma := if more.NoItems? then [] else [COMMA];
    ItemShape(before, Print(value), after, comma, PrintItems(more), rest);
    AfterIsFenced(after, comma, next, more.NoItems?, rest);
    QuotelessIsPassed(before, Print(value) + (after + (comma + next)), key, hex);
    ValueShows(value, after + (comma + next), key, hex);
    SeparatorIsPassed(after, comma, next, key, hex);
  }

  lemma SeparatorIsPassed(after: Text, comma: Text, next: Text, key: Text, hex: HexReader)
    requires Blank(after) && (comma == [] || comma == [COMMA])
    ensures PartialValue(after + (comma + next), key, hex) == PartialValue(next, key, hex)
  {
    QuotelessIsPassed(after, comma + next, key, hex);
    QuotelessIsPassed(comma, next, key, hex);
  }

  lemma ItemShape(before: Text, value: Text, after: Text, comma: Text, more: Text, rest: Text)
    ensures (before + value + after + comma + more) + rest == before + (value + (after + (comma + (more + rest))))
  {
  }

  /** A value is followed by blanks, and then by a comma or by what closes the list it stands in. */
  lemma AfterIsFenced(after: Text, comma: Text, next: Text, last: bool, rest: Text)
    requires Blank(after) && Fenced(rest) && comma == (if last then [] else [COMMA]) && (last ==> next == rest)
    ensures Fenced(after + (comma + next))
  {
    assert last ==> comma + next == rest;
    FencedBehindBlanks(after, comma + next);
  }

  /** What stands behind a member's colon. */
  function Behind(m: Members, rest: Text): Text
    requires m.Member?
  {
    Print(m.value) + (m.after + ((if m.rest.NoMembers? then [] else [COMMA]) + (PrintMembers(m.rest) + rest)))
  }

  lemma MemberShape(m: Members, rest: Text)
    requires m.Member?
    ensures PrintMembers(m) + rest
         == m.before + (PrintString(m.name) + (m.beforeColon + ([COLON] + (m.afterColon + Behind(m, rest)))))
  {
    var comma := if m.rest.NoMembers? then [] else [COMMA];
    SevenParts(m.before, PrintString(m.name), m.beforeColon, [COLON], m.afterColon, Print(m.value), m.after,
               comma, PrintMembers(m.rest), rest);
  }

  lemma SevenParts(a: Text, b: Text, c: Text, d: Text, e: Text, f: Text, g: Text, h: Text, i: Text, rest: Text)
    ensures (a + b + c + d + e + f + g + h + i) + rest
         == a + (b + (c + (d + (e + (f + (g + (h + (i + rest))))))))
  {
    var x := a + b + c + d;
    var y := x + e + f + g;
    assert (y + h + i) + rest == y + (h + (i + rest));
    assert y + (h + (i + rest)) == x + (e + (f + (g + (h + (i + rest)))));
    assert x + (e + (f + (g + (h + (i + rest))))) == a + (b + (c + (d + (e + (f + (g + (h + (i + rest))))))));
  }

  /** A member that is not loud by its own name shows what its value does, and what follows it. */
  lemma QuietMemberShows(m: Members, rest: Text, key: Text, hex: HexReader)
    requires m.Member? && MembersOk(m) && SimpleKey(key) && Fenced(rest) && ReadsHex(hex)
    requires m.value.Str? ==> !EndsInKey(PrintPieces(m.name), key)
    ensures PartialValue(PrintMembers(m) + rest, key, hex)
         == Or(Loud(m.value, key), PartialValue(PrintMembers(m.rest) + rest, key, hex))
    decreases m, 0
  {
    var comma := if m.rest.NoMembers? then [] else [COMMA];
    var next := PrintMembers(m.rest) + rest;
    MemberShape(m, rest);
    NameIsPassed(m, Behind(m, rest), key, hex);
    assert m.rest.NoMembers? ==> next == rest;
    AfterIsFenced(m.after, comma, next, m.rest.NoMembers?, rest);
    ValueShows(m.value, m.after + (comma + next), key, hex);
    SeparatorIsPassed(m.after, comma, next, key, hex);
  }

  lemma NameIsPassed(m: Members, value: Text, key: Text, hex: HexReader)
    requires m.Member? && MembersOk(m) && SimpleKey(key) && Print(m.value) <= value
    requires m.value.Str? ==> !EndsInKey(PrintPieces(m.name), key)
    ensures var colon := m.beforeColon + ([COLON] + (m.afterColon + value));
            PartialValue(m.before + (PrintString(m.name) + colon), key, hex) == PartialValue(value, key, hex)
  {
    var colon := m.beforeColon + ([COLON] + (m.afterColon + value));
    NameIsFollowed(m, value, colon);
    QuotelessIsPassed(m.before, PrintString(m.name) + colon, key, hex);
    StringIsPassed(m.name, colon, key, hex);
    QuotelessIsPassed(m.beforeColon, [COLON] + (m.afterColon + value), key, hex);
    QuotelessIsPassed([COLON], m.afterColon + value, key, hex);
    QuotelessIsPassed(m.afterColon, value, key, hex);
  }

  /** Behind a name there is a match's tail only if the value is a string. */
  lemma NameIsFollowed(m: Members, value: Text, colon: Text)
    requires m.Member? && MembersOk(m) && colon == m.beforeColon + ([COLON] + (m.afterColon + value))
    requires Print(m.value) <= value
    ensures IsBlank(colon[0]) || colon[0] == COLON
    ensures !m.value.Str? ==> MatchTail(colon).None?
  {
    if !m.value.Str? {
      PrintedValueStart(m.value);
      assert value[0] == Print(m.value)[0];
      NoStringFollows(m.beforeColon, m.afterColon, value, m.afterColon + value, colon);
    }
  }

  lemma NoStringFollows(s1: Text, s2: Text, value: Text, second: Text, t: Text)
    requires AllSpace(s1) && AllSpace(s2) && value != [] && value[0] != QUOTE && !IsSpace(value[0])
    requires second == s2 + value && t == s1 + ([COLON] + second)
    ensures MatchTail(t).None?
  {
    SpacesThenFound(s1, COLON, second);
    assert t[|s1| + 1..] == second;
    SpacesAre(s2, value);
  }

  lemma PrintedValueStart(v: Json)
    requires JsonOk(v) && !v.Str?
    ensures Print(v) != [] && Print(v)[0] != QUOTE && !IsSpace(Print(v)[0])
  {
  }

  // ---------------------------------------------------------------- the field

  /** What stands behind a member's name. */
  function BehindName(m: Members, rest: Text): Text
    requires m.Member?
  {
    m.beforeColon + ([COLON] + (m.afterColon + Behind(m, rest)))
  }

  /** The quoted key with what stands behind the name of a string member is shown as that string. */
  lemma StringMemberIsShown(m: Members, rest: Text, key: Text, hex: HexReader)
    requires m.Member? && MembersOk(m) && m.value.Str? && JsonOk(m.value) && ReadsHex(hex)
    ensures PartialValue(Quoted(key) + BehindName(m, rest), key, hex) == Meant(m.value)
  {
    var after := m.after + ((if m.rest.NoMembers? then [] else [COMMA]) + (PrintMembers(m.rest) + rest));
    var body := PrintPieces(m.value.pieces) + [QUOTE] + after;
    StringShape(PrintPieces(m.value.pieces), after);
    FieldIsShown(Quoted(key) + BehindName(m, rest), key, m.beforeColon, m.afterColon, m.value.pieces, body, after, hex);
  }

  lemma StringShape(inside: Text, after: Text)
    ensures ([QUOTE] + inside + [QUOTE]) + after == [QUOTE] + (inside + [QUOTE] + after)
  {
  }

  /** A string member whose name ends in the key shows its value. */
  lemma LoudMemberIsShown(m: Members, rest: Text, key: Text, hex: HexReader)
    requires m.Member? && MembersOk(m) && m.value.Str? && JsonOk(m.value) && SimpleKey(key) && ReadsHex(hex)
    requires EndsInKey(PrintPieces(m.name), key)
    ensures PartialValue(PrintMembers(m) + rest, key, hex) == Meant(m.value)
  {
    var tail := BehindName(m, rest);
    MemberShape(m, rest);
    NameIsFollowed(m, Behind(m, rest), tail);
    QuotelessIsPassed(m.before, PrintString(m.name) + tail, key, hex);
    StringCountsFromKey(m.name, tail, key, hex);
    StringMemberIsShown(m, rest, key, hex);
  }

  lemma MembersShow(members: Members, rest: Text, key: Text, hex: HexReader)
    requires MembersOk(members) && SimpleKey(key) && Fenced(rest) && ReadsHex(hex)
    ensures PartialValue(PrintMembers(members) + rest, key, hex)
            == Or(LoudMember(members, key), PartialValue(rest, key, hex))
    decreases members, 1
  {
    if members.NoMembers? {
      assert PrintMembers(members) + rest == rest;
    } else if members.value.Str? && EndsInKey(PrintPieces(members.name), key) {
      LoudMemberIsShown(members, rest, key, hex);
    } else {
      QuietMemberShows(members, rest, key, hex);
      MembersShow(members.rest, rest, key, hex);
    }
  }

  /**
   What is shown of any printed object, wherever it stands in a response: the meaning of the first string member whose
   printed name ends in the key, at any depth; or what the text behind the object shows, if there is no such member.
   */
  lemma ObjectIsShown(before: Text, v: Json, after: Text, key: Text, hex: HexReader)
    requires v.Obj? && JsonOk(v) && SimpleKey(key) && ReadsHex(hex)
    requires forall i :: 0 <= i < |before| ==> before[i] != QUOTE
    ensures PartialValue(before + Print(v) + after, key, hex) == Or(Loud(v, key), PartialValue(after, key, hex))
  {
    assert before + Print(v) + after == before + (Print(v) + after);
    QuotelessIsPassed(before, Print(v) + after, key, hex);
    ObjectShows(v.inner, v.members, after, key, hex);
  }

  lemma {:induction false} TopFieldIsLoud(members: Members, key: Text)
    requires MembersOk(members) && TopField(members, key).Some?
    ensures LoudMember(members, key).Some?
  {
    if !(members.value.Str? && EndsInKey(PrintPieces(members.name), key)) {
      TopFieldIsLoud(members.rest, key);
    }
  }

  /** So the object's field is shown exactly if the first such member has that value; in particular if it is the
      field. */
  lemma FieldIsShownIff(before: Text, v: Json, after: Text, key: Text, hex: HexReader)
    requires v.Obj? && JsonOk(v) && SimpleKey(key) && ReadsHex(hex) && TopField(v.members, key).Some?
    requires forall i :: 0 <= i < |before| ==> before[i] != QUOTE
    ensures PartialValue(before + Print(v) + after, key, hex) == TopField(v.members, key).value
       <==> Loud(v, key) == TopField(v.members, key)
  {
    ObjectIsShown(before, v, after, key, hex);
    TopFieldIsLoud(v.members, key);
  }

  /** `{"x": v, "key": l}` in a compact layout, for two names, a value and a string. */
  function TwoMembers(name1: seq<Piece>, value1: Json, name2: seq<Piece>, value2: Text): Json {
    Obj([], Member([], name1, [], [], value1, [], Member([], name2, [], [], Str(EscapeText(value2)), [], NoMembers)))
  }

  lemma {:induction false} SimpleTextIsPrinted(t: Text)
    requires forall i :: 0 <= i < |t| ==> t[i] >= 32 && t[i] != QUOTE && t[i] != BACKSLASH
    ensures PrintPieces(EscapeText(t)) == t
  {
    if t != [] {
      SimpleTextIsPrinted(t[1..]);
    }
  }

  lemma PrintedHead(p: Piece, tail: seq<Piece>)
    ensures PrintPieces([p] + tail) == PrintPiece(p) + PrintPieces(tail)
  {
    assert ([p] + tail)[1..] == tail;
  }

  /** A name that ends in an escaped quote and the key is taken for the field. */
  lemma ANameEndingInTheKeyIsShown(key: Text, early: Text, late: Text, hex: HexReader)
    requires SimpleKey(key) && ReadsHex(hex)
    ensures var v := TwoMembers([Escaped(QUOTE)] + EscapeText(key), Str(EscapeText(early)), EscapeText(key), late);
            JsonOk(v) && PartialValue(Print(v), key, hex) == early
  {
    var name := [Escaped(QUOTE)] + EscapeText(key);
    SimpleTextIsPrinted(key);
    PrintedHead(Escaped(QUOTE), EscapeText(key));
    assert PrintPieces(name) == [BACKSLASH, QUOTE] + key;
    assert EndsInKey(PrintPieces(name), key);
    assert PieceOk(name[0]) && PiecesOk(name);
    var v := TwoMembers(name, Str(EscapeText(early)), EscapeText(key), late);
    TwoMembersAreOk(name, Str(EscapeText(early)), EscapeText(key), late);
    EscapeThenRead(early);
    assert Loud(v, key) == Some(early);
    WholeObjectIsShown(v, key, hex);
  }

  /** A member of the same name inside an earlier value is taken for the field. */
  lemma ANestedMemberIsShown(name: seq<Piece>, key: Text, early: Text, late: Text, hex: HexReader)
    requires SimpleKey(key) && ReadsHex(hex) && PiecesOk(name)
    ensures var v := TwoMembers(name, OneMember(key, early), EscapeText(key), late);
            JsonOk(v) && PartialValue(Print(v), key, hex) == early
  {
    var inner := OneMember(key, early);
    SimpleTextIsPrinted(key);
    assert EndsInKey(key, key);
    OneMemberIsLoud(key, early);
    TwoMembersAreOk(name, inner, EscapeText(key), late);
    WholeObjectIsShown(TwoMembers(name, inner, EscapeText(key), late), key, hex);
  }

  function OneMember(key: Text, value: Text): Json {
    Obj([], Member([], EscapeText(key), [], [], Str(EscapeText(value)), [], NoMembers))
  }

  lemma OneMemberIsLoud(key: Text, value: Text)
    requires PrintPieces(EscapeText(key)) == key && EndsInKey(key, key)
    ensures JsonOk(OneMember(key, value)) && Loud(OneMember(key, value), key) == Some(value)
  {
    assert JsonOk(Str(EscapeText(value))) && MembersOk(NoMembers);
    assert MembersOk(OneMember(key, value).members);
    EscapeThenRead(value);
  }

  lemma TwoMembersAreOk(name1: seq<Piece>, value1: Json, name2: seq<Piece>, value2: Text)
    requires PiecesOk(name1) && JsonOk(value1) && PiecesOk(name2)
    ensures JsonOk(TwoMembers(name1, value1, name2, value2))
  {
    var m := TwoMembers(name1, value1, name2, value2).members;
    assert JsonOk(m.rest.value) && MembersOk(m.rest.rest);
    assert MembersOk(m.rest);
    assert MembersOk(m);
  }

  lemma WholeObjectIsShown(v: Json, key: Text, hex: HexReader)
    requires v.Obj? && JsonOk(v) && SimpleKey(key) && ReadsHex(hex) && Loud(v, key).Some?
    ensures PartialValue(Print(v), key, hex) == Loud(v, key).value
  {
    ObjectIsShown([], v, [], key, hex);
    assert [] + Print(v) + [] == Print(v);
  }
}
