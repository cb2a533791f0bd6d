/** Finding the first JSON object in a model's free text. */
module JsonExtract {
  import opened Common
  import opened JsonText

  /** The scanner's three variables. */
  datatype Scan = Scan(depth: int, inString: bool, escaped: bool)

  const OUTSIDE := Scan(0, false, false)

  function Advance(s: Scan, c: Code): Scan {
    if s.escaped then s.(escaped := false)
    else if c == BACKSLASH then s.(escaped := true)
    else if c == QUOTE then s.(inString := !s.inString)
    else if s.inString then s
    else if c == OPEN then s.(depth := s.depth + 1)
    else if c == CLOSE then s.(depth := s.depth - 1)
    else s
  }

  /** This character closes the object the scan started with. */
  predicate Closes(s: Scan, c: Code) { !s.escaped && !s.inString && c == CLOSE && s.depth == 1 }

  /** The state after a text in which nothing closes the object; `None` if something does. */
  function Through(s: Scan, text: Text): Option<Scan>
    decreases |text|
  {
    if text == [] then Some(s)
    else if Closes(s, text[0]) then None
    else Through(Advance(s, text[0]), text[1..])
  }

  lemma {:induction false} ThroughConcat(s: Scan, a: Text, b: Text)
    ensures Through(s, a + b) == match Through(s, a) { case None => None case Some(s') => Through(s', b) }
    decreases |a|
  {
    if a == [] {
      assert a + b == b;
    } else {
      assert (a + b)[0] == a[0] && (a + b)[1..] == a[1..] + b;
      if !Closes(s, a[0]) {
        ThroughConcat(Advance(s, a[0]), a[1..], b);
      }
    }
  }

  /** `end` is the index right after the brace that closes the object opened at `start`. */
  ghost predicate ClosedAt(text: Text, start: nat, end: nat) {
    && start < end <= |text|
    && var state := Through(OUTSIDE, text[start..end - 1]);
       state.Some? && Closes(state.value, text[end - 1])
  }

  ghost predicate FirstOpen(text: Text, start: nat) {
    start < |text| && text[start] == OPEN && forall i :: 0 <= i < start ==> text[i] != OPEN
  }

  /** An object closes at one place only. */
  lemma ClosedOnce(text: Text, start: nat, e1: nat, e2: nat)
    requires ClosedAt(text, start, e1) && ClosedAt(text, start, e2)
    ensures e1 == e2
  {
    if e1 < e2 {
      ClosedStays(text, start, e1, e2);
    } else if e2 < e1 {
      ClosedStays(text, start, e2, e1);
    }
  }

  lemma ClosedStays(text: Text, start: nat, end: nat, later: nat)
    requires ClosedAt(text, start, end) && end < later <= |text|
    ensures Through(OUTSIDE, text[start..later - 1]) == None
  {
    var head, tail := text[start..end - 1], text[end - 1..later - 1];
    assert text[start..later - 1] == head + tail;
    ThroughConcat(OUTSIDE, head, tail);
  }

  /** What the scanner may answer: the text from the first brace to where it closes, or nothing if it never closes. */
  ghost predicate IsExtraction(text: Text, found: Option<Text>) {
    match found
    case Some(piece) =>
      exists start: nat, end: nat :: FirstOpen(text, start) && ClosedAt(text, start, end) && piece == text[start..end]
    case None => forall start: nat, end: nat :: FirstOpen(text, start) ==> !ClosedAt(text, start, end)
  }

  method ExtractJsonObject(value: Text) returns (found: Option<Text>)
    ensures IsExtraction(value, found)
  {
    var start := 0;
    while start < |value| && value[start] != OPEN
      invariant start <= |value| && forall i :: 0 <= i < start ==> value[i] != OPEN
    {
      start := start + 1;
    }
    if start == |value| {
      return None;
    }
    var depth, inString, escaped := 0, false, false;
    for index := start to |value|
      invariant Through(OUTSIDE, value[start..index]) == Some(Scan(depth, inString, escaped))
      invariant forall end: nat :: start < end <= index ==> !ClosedAt(value, start, end)
    {
      var c := value[index];
      ghost var before := Scan(depth, inString, escaped);
      OneMore(value, start, index, before);
      if escaped {
        escaped := false;
        continue;
      }
      if c == BACKSLASH {
        escaped := true;
        continue;
      }
      if c == QUOTE {
        inString := !inString;
        continue;
      }
      if inString {
        continue;
      }
      if c == OPEN {
        depth := depth + 1;
      } else if c == CLOSE {
        depth := depth - 1;
        if depth == 0 {
          return Some(value[start..index + 1]);
        }
      }
    }
    assert value[start..|value|] == value[start..];
    found := None;
  }

  lemma OneMore(value: Text, start: nat, index: nat, s: Scan)
    requires start <= index < |value| && Through(OUTSIDE, value[start..index]) == Some(s)
    ensures ClosedAt(value, start, index + 1) <==> Closes(s, value[index])
    ensures !Closes(s, value[index]) ==> Through(OUTSIDE, value[start..index + 1]) == Some(Advance(s, value[index]))
  {
    assert value[start..index + 1] == value[start..index] + [value[index]];
    ThroughConcat(OUTSIDE, value[start..index], [value[index]]);
  }

  // ---------------------------------------------------------------- printed objects

  /** Characters that change nothing outside strings. */
  ghost predicate Inert(t: Text) {
    forall i :: 0 <= i < |t| ==> t[i] != BACKSLASH && t[i] != QUOTE && t[i] != OPEN && t[i] != CLOSE
  }

  lemma {:induction false} InertText(depth: int, t: Text)
    requires Inert(t)
    ensures Through(Scan(depth, false, false), t) == Some(Scan(depth, false, false))
  {
    if t != [] {
      InertText(depth, t[1..]);
    }
  }

  lemma {:induction false} PiecesStayInside(depth: int, pieces: seq<Piece>)
    requires PiecesOk(pieces)
    ensures Through(Scan(depth, true, false), PrintPieces(pieces)) == Some(Scan(depth, true, false))
  {
    if pieces != [] {
      var inside := Scan(depth, true, false);
      PiecesStayInside(depth, pieces[1..]);
      PieceStaysInside(depth, pieces[0]);
      ThroughConcat(inside, PrintPiece(pieces[0]), PrintPieces(pieces[1..]));
    }
  }

  lemma PieceStaysInside(depth: int, p: Piece)
    requires PieceOk(p)
    ensures Through(Scan(depth, true, false), PrintPiece(p)) == Some(Scan(depth, true, false))
  {
    var inside := Scan(depth, true, false);
    match p {
      case Plain(c) =>
        assert PrintPiece(p)[1..] == [];
      case Escaped(c) =>
        assert PrintPiece(p)[1..] == [c] && [c][1..] == [];
        assert Through(inside.(escaped := true), [c]) == Some(inside);
      case Unicode(a, b, c, d) =>
        assert PrintPiece(p)[1..] == [LETTER_U, a, b, c, d];
        assert [LETTER_U, a, b, c, d][1..] == [a, b, c, d];
        HexStaysInside(depth, [a, b, c, d]);
    }
  }

  lemma {:induction false} HexStaysInside(depth: int, digits: Text)
    requires forall i :: 0 <= i < |digits| ==> IsHex(digits[i])
    ensures Through(Scan(depth, true, false), digits) == Some(Scan(depth, true, false))
  {
    if digits != [] {
      HexStaysInside(depth, digits[1..]);
    }
  }

  /** A printed string is skipped, whatever braces, quotes and backslashes it contains. */
  lemma StringIsSkipped(depth: int, pieces: seq<Piece>)
    requires PiecesOk(pieces)
    ensures Through(Scan(depth, false, false), PrintString(pieces)) == Some(Scan(depth, false, false))
  {
    var outside := Scan(depth, false, false);
    PiecesStayInside(depth, pieces);
    ThroughConcat(outside, [QUOTE] + PrintPieces(pieces), [QUOTE]);
    ThroughConcat(outside, [QUOTE], PrintPieces(pieces));
  }

  /** Inside an object, a printed value leaves the scanner as it found it. */
  lemma {:induction false} ValueIsSkipped(depth: int, v: Json)
    requires JsonOk(v) && depth >= 1
    ensures Through(Scan(depth, false, false), Print(v)) == Some(Scan(depth, false, false))
    decreases v
  {
    var outside := Scan(depth, false, false);
    match v {
      case Atom(text) => InertText(depth, text);
      case Str(pieces) => StringIsSkipped(depth, pieces);
      case Arr(inner, items) =>
        InertText(depth, [LEFT] + inner);
        ItemsAreSkipped(depth, items);
        InertText(depth, [RIGHT]);
        ThroughConcat(outside, [LEFT] + inner + PrintItems(items), [RIGHT]);
        ThroughConcat(outside, [LEFT] + inner, PrintItems(items));
      case Obj(inner, members) =>
        BodyIsSkipped(depth, inner, members);
        ThroughConcat(outside, [OPEN] + inner + PrintMembers(members), [CLOSE]);
    }
  }

  /** From the opening brace to just before the closing one. */
  lemma {:induction false} BodyIsSkipped(depth: int, inner: Text, members: Members)
    requires Blank(inner) && MembersOk(members) && depth >= 0
    ensures Through(Scan(depth, false, false), [OPEN] + inner + PrintMembers(members))
            == Some(Scan(depth + 1, false, false))
    decreases members, 1
  {
    var outside := Scan(depth, false, false);
    InertText(depth + 1, inner);
    MembersAreSkipped(depth + 1, members);
    ThroughConcat(outside, [OPEN] + inner, PrintMembers(members));
    ThroughConcat(outside, [OPEN], inner);
  }

  lemma {:induction false} ItemsAreSkipped(depth: int, items: Items)
    requires ItemsOk(items) && depth >= 1
    ensures Through(Scan(depth, false, false), PrintItems(items)) == Some(Scan(depth, false, false))
    decreases items
  {
    match items {
      case NoItems =>
      case Item(before, value, after, rest) =>
        var outside := Scan(depth, false, false);
        var comma := if rest.NoItems? then [] else [COMMA];
        InertText(depth, before);
        ValueIsSkipped(depth, value);
        InertText(depth, after);
        InertText(depth, comma);
        ItemsAreSkipped(depth, rest);
        ThroughConcat(outside, before, Print(value));
        ThroughConcat(outside, before + Print(value), after);
        ThroughConcat(outside, before + Print(value) + after, comma);
        ThroughConcat(outside, before + Print(value) + after + comma, PrintItems(rest));
    }
  }

  lemma {:induction false} MembersAreSkipped(depth: int, members: Members)
    requires MembersOk(members) && depth >= 1
    ensures Through(Scan(depth, false, false), PrintMembers(members)) == Some(Scan(depth, false, false))
    decreases members, 0
  {
    match members {
      case NoMembers =>
      case Member(before, name, beforeColon, afterColon, value, after, rest) =>
        var outside := Scan(depth, false, false);
        var comma := if rest.NoMembers? then [] else [COMMA];
        var head := before + PrintString(name) + beforeColon + [COLON] + afterColon;
        NameIsSkipped(depth, before, name, beforeColon, afterColon);
        ValueIsSkipped(depth, value);
        InertText(depth, after);
        InertText(depth, comma);
        MembersAreSkipped(depth, rest);
        ThroughConcat(outside, head, Print(value));
        ThroughConcat(outside, head + Print(value), after);
        ThroughConcat(outside, head + Print(value) + after, comma);
        ThroughConcat(outside, head + Print(value) + after + comma, PrintMembers(rest));
    }
  }

  lemma NameIsSkipped(depth: int, before: Text, name: seq<Piece>, beforeColon: Text, afterColon: Text)
    requires Blank(before) && PiecesOk(name) && Blank(beforeColon) && Blank(afterColon)
    ensures Through(Scan(depth, false, false), before + PrintString(name) + beforeColon + [COLON] + afterColon)
         == Some(Scan(depth, false, false))
  {
    var outside := Scan(depth, false, false);
    InertText(depth, before);
    StringIsSkipped(depth, name);
    InertText(depth, beforeColon);
    InertText(depth, [COLON]);
    InertText(depth, afterColon);
    ThroughConcat(outside, before, PrintString(name));
    ThroughConcat(outside, before + PrintString(name), beforeColon);
    ThroughConcat(outside, before + PrintString(name) + beforeColon, [COLON]);
    ThroughConcat(outside, before + PrintString(name) + beforeColon + [COLON], afterColon);
  }

  /**
   Whatever text surrounds it, a printed object is found exactly: the scan starts at its first brace, and the only
   place where it closes is its last brace.
   */
  lemma PrintedObjectIsFound(before: Text, v: Json, after: Text)
    requires v.Obj? && JsonOk(v)
    requires forall i :: 0 <= i < |before| ==> before[i] != OPEN
    ensures var text := before + Print(v) + after;
            && FirstOpen(text, |before|)
            && ClosedAt(text, |before|, |before| + |Print(v)|)
            && text[|before|..|before| + |Print(v)|] == Print(v)
  {
    var text := before + Print(v) + after;
    var body := [OPEN] + v.inner + PrintMembers(v.members);
    BodyIsSkipped(0, v.inner, v.members);
    assert text[|before|..|before| + |Print(v)|] == Print(v);
    assert text[|before|..|before| + |Print(v)| - 1] == body;
  }

  lemma ExtractionIsUnique(text: Text, start: nat, end: nat, found: Option<Text>)
    requires FirstOpen(text, start) && ClosedAt(text, start, end) && IsExtraction(text, found)
    ensures found == Some(text[start..end])
  {
    if found.Some? {
      var first: nat, last: nat :| FirstOpen(text, first) && ClosedAt(text, first, last)
                                   && found.value == text[first..last];
      ClosedOnce(text, start, last, end);
    }
  }

  /** So the scanner returns exactly the printed object, never a shorter or longer piece. */
  lemma PrintedObjectIsExtracted(before: Text, v: Json, after: Text, found: Option<Text>)
    requires v.Obj? && JsonOk(v)
    requires forall i :: 0 <= i < |before| ==> before[i] != OPEN
    requires IsExtraction(before + Print(v) + after, found)
    ensures found == Some(Print(v))
  {
    PrintedObjectIsFound(before, v, after);
    ExtractionIsUnique(before + Print(v) + after, |before|, |before| + |Print(v)|, found);
  }
}
