/** Blanking the inside of nested braces, so that only a class's own declarations are read. */
module MemberCode {
  import opened Common

  const OPEN := '{'
  const CLOSE := '}'

  /** Brace depth after a text, started at depth zero. */
  function Depth(t: string): int {
    if t == [] then 0
    else Depth(t[..|t| - 1]) + (if t[|t| - 1] == OPEN then 1 else 0) - (if t[|t| - 1] == CLOSE then 1 else 0)
  }

  /** No prefix closes a brace that it did not open. */
  ghost predicate NeverDips(t: string) { forall i :: 0 <= i <= |t| ==> Depth(t[..i]) >= 0 }

  ghost predicate Balanced(t: string) { NeverDips(t) && Depth(t) == 0 }

  lemma {:induction false} DepthConcat(a: string, b: string)
    ensures Depth(a + b) == Depth(a) + Depth(b)
  {
    if b == [] {
      assert a + b == a;
    } else {
      assert (a + b)[..|a + b| - 1] == a + b[..|b| - 1];
      DepthConcat(a, b[..|b| - 1]);
    }
  }

  lemma DepthAt(t: string, i: nat)
    requires i < |t|
    ensures Depth(t[..i + 1]) == Depth(t[..i]) + (if t[i] == OPEN then 1 else 0) - (if t[i] == CLOSE then 1 else 0)
  {
    assert t[..i + 1][..i] == t[..i];
  }

  /** A body ends at the first brace that closes the one before it; without such a brace there is no body. */
  ghost predicate IsBody(code: string, start: nat, body: Option<string>)
    requires start <= |code|
  {
    match body
    case Some(b) => start + |b| < |code| && b == code[start..start + |b|] && code[start + |b|] == CLOSE && Balanced(b)
    case None => NeverDips(code[start..])
  }

  method ClassBody(code: string, start: nat) returns (body: Option<string>)
    requires start <= |code|
    ensures IsBody(code, start, body)
  {
    var depth := 1;
    ghost var rest := code[start..];
    for index := start to |code|
      invariant depth == 1 + Depth(rest[..index - start])
      invariant forall n :: 0 <= n <= index - start ==> Depth(rest[..n]) >= 0
    {
      DepthAt(rest, index - start);
      if code[index] == OPEN {
        depth := depth + 1;
      }
      if code[index] == CLOSE {
        depth := depth - 1;
      }
      if depth == 0 {
        PrefixIsBody(code, start, rest, index - start);
        return Some(code[start..index]);
      }
    }
    assert rest[..|rest|] == rest;
    body := None;
  }

  lemma PrefixIsBody(code: string, start: nat, rest: string, n: nat)
    requires start <= |code| && rest == code[start..] && n < |rest| && rest[n] == CLOSE && Depth(rest[..n]) == 0
    requires forall m :: 0 <= m <= n ==> Depth(rest[..m]) >= 0
    ensures IsBody(code, start, Some(code[start..start + n]))
  {
    var b := code[start..start + n];
    assert b == rest[..n];
    forall m | 0 <= m <= |b| ensures Depth(b[..m]) >= 0 {
      assert b[..m] == rest[..m];
    }
  }

  /** The matching brace is unique: no other text from the same start is a body. */
  lemma BodyIsUnique(code: string, start: nat, a: Option<string>, b: Option<string>)
    requires start <= |code| && IsBody(code, start, a) && IsBody(code, start, b)
    ensures a == b
  {
    if a.Some? {
      AfterBodyDips(code, start, a.value, b);
    }
    if b.Some? {
      AfterBodyDips(code, start, b.value, a);
    }
  }

  lemma AfterBodyDips(code: string, start: nat, a: string, b: Option<string>)
    requires start <= |code| && IsBody(code, start, Some(a)) && IsBody(code, start, b)
    ensures b.Some? && |b.value| <= |a| && (|b.value| == |a| ==> b.value == a)
  {
    var rest := code[start..];
    BodyIsPrefix(code, start, a, rest);
    if b.Some? {
      BodyIsPrefix(code, start, b.value, rest);
      if |b.value| > |a| {
        LongerDips(a, b.value, rest);
      }
    } else {
      assert rest[..|rest|] == rest;
      LongerDips(a, rest, rest);
    }
  }

  lemma BodyIsPrefix(code: string, start: nat, a: string, rest: string)
    requires start <= |code| && IsBody(code, start, Some(a)) && rest == code[start..]
    ensures |a| < |rest| && a == rest[..|a|] && rest[|a|] == CLOSE && Depth(a) == 0 && NeverDips(a)
  {
  }

  lemma LongerDips(a: string, longer: string, rest: string)
    requires |a| < |longer| <= |rest| && longer == rest[..|longer|] && a == rest[..|a|] && rest[|a|] == CLOSE
             && Depth(a) == 0
    ensures !NeverDips(longer)
  {
    DepthAt(longer, |a|);
    assert longer[..|a|] == a;
    assert Depth(longer[..|a| + 1]) < 0;
  }

  /** `_member_code`: braces at depth zero survive, text inside nested braces turns into spaces, lines stay lines. */
  method MemberCode(body: string) returns (output: string)
    ensures |output| == |body|
    ensures forall i :: 0 <= i < |body| ==> output[i] == Shown(body, i)
  {
    var depth := 0;
    output := [];
    for i := 0 to |body|
      invariant depth == Depth(body[..i]) && |output| == i
      invariant forall j :: 0 <= j < i ==> output[j] == Shown(body, j)
    {
      DepthAt(body, i);
      var c := body[i];
      if c == OPEN {
        output := output + [if depth == 0 then OPEN else ' '];
        depth := depth + 1;
      } else if c == CLOSE {
        depth := depth - 1;
        output := output + [if depth == 0 then CLOSE else ' '];
      } else {
        output := output + [if depth == 0 || c == '\n' then c else ' '];
      }
    }
    assert body[..|body|] == body;
  }

  /** The character shown for position `i`: an opening brace counts from outside, a closing brace to outside. */
  function Shown(body: string, i: nat): char
    requires i < |body|
  {
    var outside := if body[i] == CLOSE then Depth(body[..i + 1]) == 0 else Depth(body[..i]) == 0;
    if outside || (body[i] == '\n') then body[i] else ' '
  }

  ghost predicate IsMemberCode(body: string, output: string) {
    |output| == |body| && forall i :: 0 <= i < |body| ==> output[i] == Shown(body, i)
  }

  /** Length, line breaks and everything at depth zero are kept; everything nested is blank. */
  lemma MemberCodeKeepsOutside(body: string, output: string)
    requires IsMemberCode(body, output) && NeverDips(body)
    ensures |output| == |body|
    ensures forall i :: 0 <= i < |body| ==> (output[i] == '\n' <==> body[i] == '\n')
    ensures forall i :: 0 <= i < |body| && Depth(body[..i]) == 0 ==> output[i] == body[i]
    ensures forall i :: 0 <= i < |body| && Depth(body[..i]) >= 1 && Depth(body[..i + 1]) >= 1 && body[i] != '\n' ==>
              output[i] == ' '
  {
    forall i | 0 <= i < |body| && Depth(body[..i]) == 0 ensures output[i] == body[i] {
      DepthAt(body, i);
      assert Depth(body[..i + 1]) >= 0;
    }
  }

  /** On such a body the output's depth is one exactly where the body is nested. */
  lemma {:induction false} OutputDepth(body: string, output: string, i: nat)
    requires IsMemberCode(body, output) && NeverDips(body) && i <= |body|
    ensures Depth(output[..i]) == if Depth(body[..i]) == 0 then 0 else 1
  {
    if i > 0 {
      OutputDepth(body, output, i - 1);
      DepthAt(body, i - 1);
      DepthAt(output, i - 1);
      assert Depth(body[..i]) >= 0 && Depth(body[..i - 1]) >= 0;
    }
  }

  /** The braces that are left alternate strictly, beginning with an opening one. */
  lemma BracesAlternate(body: string, output: string, i: nat)
    requires IsMemberCode(body, output) && NeverDips(body) && i < |body|
    ensures output[i] == OPEN ==> Depth(output[..i]) == 0 && Depth(output[..i + 1]) == 1
    ensures output[i] == CLOSE ==> Depth(output[..i]) == 1 && Depth(output[..i + 1]) == 0
  {
    OutputDepth(body, output, i);
    OutputDepth(body, output, i + 1);
    DepthAt(output, i);
  }

  /** A balanced body stays balanced. */
  lemma OutputIsBalanced(body: string, output: string)
    requires IsMemberCode(body, output) && Balanced(body)
    ensures Balanced(output)
  {
    forall i | 0 <= i <= |output| ensures Depth(output[..i]) >= 0 {
      OutputDepth(body, output, i);
    }
    OutputDepth(body, output, |body|);
    assert output[..|output|] == output && body[..|body|] == body;
  }

  /** Doing it twice changes nothing more. */
  lemma MemberCodeIsIdempotent(body: string, output: string)
    requires IsMemberCode(body, output) && NeverDips(body)
    ensures IsMemberCode(output, output)
  {
    forall i | 0 <= i < |output| ensures output[i] == Shown(output, i) {
      OutputDepth(body, output, i);
      OutputDepth(body, output, i + 1);
      DepthAt(body, i);
      DepthAt(output, i);
    }
  }
}
