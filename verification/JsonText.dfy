/** Code points and the texts of JSON values (RFC 8259), in every layout the grammar allows. */
module JsonText {

  type Code = nat
  type Text = seq<Code>

  const QUOTE: Code := 34
  const BACKSLASH: Code := 92
  const OPEN: Code := 123
  const CLOSE: Code := 125
  const COMMA: Code := 44
  const COLON: Code := 58
  const LEFT: Code := 91
  const RIGHT: Code := 93
  const LETTER_U: Code := 117

  /** Section 2: space, tab, line feed, carriage return. */
  predicate IsBlank(c: Code) { c == 32 || c == 9 || c == 10 || c == 13 }

  /** Characters of numbers and of the three literal names (sections 3 and 6). */
  predicate IsAtomic(c: Code) { 48 <= c <= 57 || 97 <= c <= 122 || c == 43 || c == 45 || c == 46 || c == 69 }

  predicate IsHex(c: Code) { 48 <= c <= 57 || 65 <= c <= 70 || 97 <= c <= 102 }

  /** Section 7: the two-character escapes. */
  predicate IsEscape(c: Code) {
    c == QUOTE || c == BACKSLASH || c == 47 || c == 98 || c == 102 || c == 110 || c == 114 || c == 116
  }

  /** One element of a string: an unescaped character, a two-character escape, or four hexadecimal digits. */
  datatype Piece = Plain(c: Code) | Escaped(c: Code) | Unicode(a: Code, b: Code, c: Code, d: Code)

  predicate PieceOk(p: Piece) {
    match p
    case Plain(c) => c >= 32 && c != QUOTE && c != BACKSLASH
    case Escaped(c) => IsEscape(c)
    case Unicode(a, b, c, d) => IsHex(a) && IsHex(b) && IsHex(c) && IsHex(d)
  }

  function PrintPiece(p: Piece): Text {
    match p
    case Plain(c) => [c]
    case Escaped(c) => [BACKSLASH, c]
    case Unicode(a, b, c, d) => [BACKSLASH, LETTER_U, a, b, c, d]
  }

  predicate PiecesOk(pieces: seq<Piece>) { forall i :: 0 <= i < |pieces| ==> PieceOk(pieces[i]) }

  function PrintPieces(pieces: seq<Piece>): Text {
    if pieces == [] then [] else PrintPiece(pieces[0]) + PrintPieces(pieces[1..])
  }

  function PrintString(pieces: seq<Piece>): Text { [QUOTE] + PrintPieces(pieces) + [QUOTE] }

  /** A JSON value together with the insignificant whitespace around each of its parts. */
  datatype Json =
    | Atom(text: Text)
    | Str(pieces: seq<Piece>)
    | Arr(inner: Text, items: Items)
    | Obj(inner: Text, members: Members)

  datatype Items = NoItems | Item(before: Text, value: Json, after: Text, rest: Items)

  datatype Members =
    | NoMembers
    | Member(before: Text, name: seq<Piece>, beforeColon: Text, afterColon: Text, value: Json, after: Text,
             rest: Members)

  predicate Blank(t: Text) { forall i :: 0 <= i < |t| ==> IsBlank(t[i]) }

  predicate JsonOk(v: Json) {
    match v
    case Atom(text) => text != [] && forall i :: 0 <= i < |text| ==> IsAtomic(text[i])
    case Str(pieces) => PiecesOk(pieces)
    case Arr(inner, items) => Blank(inner) && ItemsOk(items)
    case Obj(inner, members) => Blank(inner) && MembersOk(members)
  }

  predicate ItemsOk(items: Items) {
    match items
    case NoItems => true
    case Item(before, value, after, rest) => Blank(before) && JsonOk(value) && Blank(after) && ItemsOk(rest)
  }

  predicate MembersOk(members: Members) {
    match members
    case NoMembers => true
    case Member(before, name, beforeColon, afterColon, value, after, rest) =>
      && Blank(before) && PiecesOk(name) && Blank(beforeColon) && Blank(afterColon)
      && JsonOk(value) && Blank(after) && MembersOk(rest)
  }

  function Print(v: Json): Text {
    match v
    case Atom(text) => text
    case Str(pieces) => PrintString(pieces)
    case Arr(inner, items) => [LEFT] + inner + PrintItems(items) + [RIGHT]
    case Obj(inner, members) => [OPEN] + inner + PrintMembers(members) + [CLOSE]
  }

  function PrintItems(items: Items): Text {
    match items
    case NoItems => []
    case Item(before, value, after, rest) =>
      before + Print(value) + after + (if rest.NoItems? then [] else [COMMA]) + PrintItems(rest)
  }

  function PrintMembers(members: Members): Text {
    match members
    case NoMembers => []
    case Member(before, name, beforeColon, afterColon, value, after, rest) =>
      before + PrintString(name) + beforeColon + [COLON] + afterColon + Print(value) + after
      + (if rest.NoMembers? then [] else [COMMA]) + PrintMembers(rest)
  }
}
