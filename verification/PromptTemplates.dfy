/** Prompt bodies: finding the placeholders, checking them, and filling them in once. */
module PromptTemplates {
  import opened Graphs
  import opened Wrappers

  const VARIABLES := ["task.title", "task.description", "task.objective", "task.acceptanceCriteria",
                      "project.name", "project.objective", "phase.objective", "role"]

  const MAX_BODY := 20000
  const MAX_RENDERED := 100000

  /** White space as regular expressions and `trim` see it. */
  predicate Space(c: char) {
    || c == ' ' || c == '\t' || c == '\n' || c == '\r' || c == '\U{000B}' || c == '\U{000C}'
    || c == '\U{00A0}' || c == '\U{1680}' || '\U{2000}' <= c <= '\U{200A}' || c == '\U{2028}' || c == '\U{2029}'
    || c == '\U{202F}' || c == '\U{205F}' || c == '\U{3000}' || c == '\U{FEFF}'
  }

  predicate Letter(c: char) {
    'a' <= c <= 'z' || 'A' <= c <= 'Z'
  }

  predicate NameChar(c: char) {
    Letter(c) || c == '.'
  }

  // -- what a placeholder is ----------------------------------------------------------------

  /** t is two braces, white space, a name from a to b, white space, two braces from c. */
  predicate Parts(t: string, a: nat, b: nat, c: nat) {
    && 2 <= a < b <= c && |t| == c + 2
    && t[0] == '{' && t[1] == '{' && t[c] == '}' && t[c + 1] == '}'
    && (forall i :: 2 <= i < a ==> Space(t[i]))
    && Letter(t[a]) && (forall i :: a <= i < b ==> NameChar(t[i]))
    && (forall i :: b <= i < c ==> Space(t[i]))
  }

  ghost predicate IsPlaceholder(t: string, name: string) {
    exists a: nat, b: nat, c: nat :: Parts(t, a, b, c) && name == t[a..b]
  }

  // -- the scanner ------------------------------------------------------------------------------

  datatype Token = Token(length: nat, name: string)

  function SkipSpaces(s: string, i: nat): (j: nat)
    requires i <= |s|
    ensures i <= j <= |s| && (forall k :: i <= k < j ==> Space(s[k])) && (j < |s| ==> !Space(s[j]))
    decreases |s| - i
  {
    if i < |s| && Space(s[i]) then SkipSpaces(s, i + 1) else i
  }

  function SkipName(s: string, i: nat): (j: nat)
    requires i <= |s|
    ensures i <= j <= |s| && (forall k :: i <= k < j ==> NameChar(s[k])) && (j < |s| ==> !NameChar(s[j]))
    decreases |s| - i
  {
    if i < |s| && NameChar(s[i]) then SkipName(s, i + 1) else i
  }

  /** The placeholder at the front of s, if there is one. */
  function MatchAt(s: string): (m: Option<Token>)
    ensures m.Some? ==> 0 < m.value.length <= |s|
  {
    if |s| < 2 || s[0] != '{' || s[1] != '{' then None
    else
      var a := SkipSpaces(s, 2);
      if a == |s| || !Letter(s[a]) then None
      else
        var b := SkipName(s, a);
        var c := SkipSpaces(s, b);
        if c + 1 < |s| && s[c] == '}' && s[c + 1] == '}' then Some(Token(c + 2, s[a..b])) else None
  }

  /** The scanner finds a placeholder exactly when one begins here, and there is never a choice of length. */
  lemma MatchIsExact(s: string, n: nat, name: string)
    requires n <= |s|
    ensures MatchAt(s) == Some(Token(n, name)) <==> IsPlaceholder(s[..n], name)
  {
    hide Space, Letter;
    if MatchAt(s) == Some(Token(n, name)) {
      var a := SkipSpaces(s, 2);
      var b := SkipName(s, a);
      var c := SkipSpaces(s, b);
      FoundIsPlaceholder(s, a, b, c);
      assert s[..n][a..b] == s[a..b];
    }
    if IsPlaceholder(s[..n], name) {
      hide MatchAt;
      var t := s[..n];
      var a: nat, b: nat, c: nat :| Parts(t, a, b, c) && name == t[a..b];
      PlaceholderIsFound(s, n, a, b, c);
      assert t[a..b] == s[a..b];
    }
  }

  lemma FoundIsPlaceholder(s: string, a: nat, b: nat, c: nat)
    requires 2 <= a < b <= c && c + 2 <= |s| && s[0] == '{' && s[1] == '{' && s[c] == '}' && s[c + 1] == '}'
    requires a == SkipSpaces(s, 2) && b == SkipName(s, a) && c == SkipSpaces(s, b) && Letter(s[a])
    ensures Parts(s[..c + 2], a, b, c)
  {
    hide Space, NameChar, Letter;
    var t := s[..c + 2];
    assert forall i :: 0 <= i < c + 2 ==> t[i] == s[i];
  }

  lemma PlaceholderIsFound(s: string, n: nat, a: nat, b: nat, c: nat)
    requires n <= |s| && Parts(s[..n], a, b, c)
    ensures MatchAt(s) == Some(Token(n, s[a..b]))
  {
    hide Space, NameChar, Letter;
    BoundariesAreForced(s, n, a, b, c);
    var t := s[..n];
    assert t[0] == s[0] && t[1] == s[1] && t[a] == s[a] && t[c] == s[c] && t[c + 1] == s[c + 1];
  }

  lemma {:induction false} SpacesStopAt(s: string, i: nat, j: nat)
    requires i <= j < |s| && !Space(s[j]) && forall k :: i <= k < j ==> Space(s[k])
    ensures SkipSpaces(s, i) == j
    decreases j - i
  {
    if i < j {
      SpacesStopAt(s, i + 1, j);
    }
  }

  lemma {:induction false} NameStopsAt(s: string, i: nat, j: nat)
    requires i <= j < |s| && !NameChar(s[j]) && forall k :: i <= k < j ==> NameChar(s[k])
    ensures SkipName(s, i) == j
    decreases j - i
  {
    if i < j {
      NameStopsAt(s, i + 1, j);
    }
  }

  lemma BoundariesAreForced(s: string, n: nat, a: nat, b: nat, c: nat)
    requires n <= |s| && Parts(s[..n], a, b, c)
    ensures a == SkipSpaces(s, 2) && b == SkipName(s, a) && c == SkipSpaces(s, b)
  {
    var t := s[..n];
    assert forall i :: 0 <= i < n ==> t[i] == s[i];
    SpacesStopAt(s, 2, a);
    assert b < c ==> Space(t[b]);
    NameStopsAt(s, a, b);
    SpacesStopAt(s, b, c);
  }

  /** A name is found between its braces, whatever white space there is around it. */
  lemma NameIsFound(left: string, name: string, right: string)
    requires name != "" && Letter(name[0]) && (forall c :: c in name ==> NameChar(c))
    requires (forall c :: c in left ==> Space(c)) && (forall c :: c in right ==> Space(c))
    ensures var t := "{{" + left + name + right + "}}"; MatchAt(t) == Some(Token(|t|, name))
  {
    hide MatchAt, Letter, NameChar, Space;
    var t, a, b := "{{" + left + name + right + "}}", 2 + |left|, 2 + |left| + |name|;
    var c := b + |right|;
    assert forall i :: 2 <= i < a ==> t[i] == left[i - 2] && left[i - 2] in left;
    assert forall i :: a <= i < b ==> t[i] == name[i - a] && name[i - a] in name;
    assert forall i :: b <= i < c ==> t[i] == right[i - b] && right[i - b] in right;
    assert Parts(t, a, b, c) && t[a..b] == name && t[..|t|] == t;
    MatchIsExact(t, |t|, name);
  }

  /** Every supported variable is found in its own placeholder. */
  lemma EveryVariableIsFound(name: string, left: string, right: string)
    requires name in VARIABLES && (forall c :: c in left ==> Space(c)) && (forall c :: c in right ==> Space(c))
    ensures var t := "{{" + left + name + right + "}}"; MatchAt(t) == Some(Token(|t|, name))
  {
    hide MatchAt, Space;
    VariablesAreNames(name);
    NameIsFound(left, name, right);
  }

  lemma VariablesAreNames(name: string)
    requires name in VARIABLES
    ensures name != "" && Letter(name[0]) && forall c :: c in name ==> NameChar(c)
  {
    forall c | c in name ensures NameChar(c) {
      var k :| 0 <= k < |VARIABLES| && VARIABLES[k] == name;
      assert c in VARIABLES[k];
    }
  }

  // -- pieces -----------------------------------------------------------------------------------------

  datatype Piece = Literal(c: char) | Placeholder(text: string, name: string)

  /** The body cut at its placeholders, leftmost first and without overlap. */
  function Pieces(body: string): seq<Piece> {
    if body == "" then []
    else
      var m := MatchAt(body);
      if m.Some? then [Placeholder(body[..m.value.length], m.value.name)] + Pieces(body[m.value.length..])
      else [Literal(body[0])] + Pieces(body[1..])
  }

  /** The piece at the front of the body. */
  function FirstPiece(body: string): (p: Piece)
    requires body != ""
  {
    var m := MatchAt(body);
    if m.Some? then Placeholder(body[..m.value.length], m.value.name) else Literal(body[0])
  }

  function FirstWidth(body: string): (n: nat)
    requires body != ""
    ensures 0 < n <= |body|
  {
    var m := MatchAt(body);
    if m.Some? then m.value.length else 1
  }

  lemma PiecesHead(body: string)
    requires body != ""
    ensures Pieces(body) == [FirstPiece(body)] + Pieces(body[FirstWidth(body)..])
    ensures Text(FirstPiece(body)) == body[..FirstWidth(body)]
  {
    hide MatchAt;
    assert body[..1] == [body[0]];
  }

  /** What a replacement makes of the pieces. */
  function Replace(pieces: seq<Piece>, fill: Piece -> string): string {
    if pieces == [] then ""
    else (if pieces[0].Literal? then [pieces[0].c] else fill(pieces[0])) + Replace(pieces[1..], fill)
  }

  lemma ReplaceHead(head: Piece, rest: seq<Piece>, fill: Piece -> string)
    ensures Replace([head] + rest, fill) == (if head.Literal? then [head.c] else fill(head)) + Replace(rest, fill)
  {
    assert ([head] + rest)[1..] == rest;
  }

  function Text(p: Piece): string {
    if p.Literal? then [p.c] else p.text
  }

  function Nothing(p: Piece): string {
    ""
  }

  /** The placeholder without the white space inside its braces. */
  function Tight(p: Piece): string {
    if p.Literal? then [p.c] else "{{" + p.name + "}}"
  }

  function Filled(context: map<string, string>): Piece -> string {
    (p: Piece) => if p.Placeholder? && p.name in context then context[p.name] else ""
  }

  function Names(pieces: seq<Piece>): (names: seq<string>)
    ensures forall n :: n in names <==> exists k :: 0 <= k < |pieces| && pieces[k].Placeholder? && pieces[k].name == n
  {
    if pieces == [] then []
    else
      var rest := Names(pieces[1..]);
      assert forall k :: 0 < k < |pieces| ==> pieces[k] == pieces[1..][k - 1];
      assert forall k :: 0 <= k < |pieces[1..]| ==> pieces[1..][k] == pieces[k + 1];
      if pieces[0].Placeholder? then [pieces[0].name] + rest else rest
  }

  /** Cutting loses nothing: the texts of the pieces are the body again. */
  lemma {:induction false} PiecesRebuildTheBody(body: string)
    ensures Replace(Pieces(body), Text) == body
  {
    if body != "" {
      hide Pieces, FirstPiece, FirstWidth;
      PiecesHead(body);
      var n := FirstWidth(body);
      PiecesRebuildTheBody(body[n..]);
      PieceText(FirstPiece(body), Pieces(body[n..]));
      assert body[..n] + body[n..] == body;
    }
  }

  lemma PieceText(head: Piece, rest: seq<Piece>)
    ensures Replace([head] + rest, Text) == Text(head) + Replace(rest, Text)
  {
    ReplaceHead(head, rest, Text);
  }

  ghost predicate PieceOk(p: Piece) {
    p.Placeholder? ==> IsPlaceholder(p.text, p.name)
  }

  lemma {:induction false} PiecesAreOk(body: string)
    ensures forall p :: p in Pieces(body) ==> PieceOk(p)
  {
    if body != "" {
      var m := MatchAt(body);
      if m.Some? {
        MatchIsExact(body, m.value.length, m.value.name);
        PiecesAreOk(body[m.value.length..]);
      } else {
        PiecesAreOk(body[1..]);
      }
    }
  }

  // -- white space in the braces -------------------------------------------------------------------------

  /** Text without an opening brace that begins the tightened pieces begins the original text. */
  lemma {:induction false} TightPrefixIsLiteral(pieces: seq<Piece>, q: string)
    requires q <= Replace(pieces, Tight) && '{' !in q
    ensures q <= Replace(pieces, Text)
  {
    if q != "" {
      assert q[0] in q && q[0] == Replace(pieces, Tight)[0];
      var head, rest := pieces[0], pieces[1..];
      assert pieces == [head] + rest;
      ReplaceHead(head, rest, Tight);
      ReplaceHead(head, rest, Text);
      if head.Literal? {
        hide Replace;
        assert q == [head.c] + q[1..];
        assert q[1..] <= Replace(rest, Tight) by { PrefixOfTail(head.c, q[1..], Replace(rest, Tight)); }
        forall c | c in q[1..] ensures c in q {}
        TightPrefixIsLiteral(rest, q[1..]);
      }
    }
  }

  lemma PrefixOfTail(c: char, q: string, tail: string)
    requires [c] + q <= [c] + tail
    ensures q <= tail
  {
    assert ([c] + tail)[1..] == tail && ([c] + q)[1..] == q;
    forall i | 0 <= i < |q| ensures q[i] == tail[i] {
      assert ([c] + q)[i + 1] == ([c] + tail)[i + 1];
    }
  }

  /** A placeholder that begins with a literal brace of the tightened text began there before. */
  lemma TightMatchIsOld(c: char, rest: seq<Piece>, t: string, name: string)
    requires t <= [c] + Replace(rest, Tight) && IsPlaceholder(t, name)
    ensures t <= [c] + Replace(rest, Text)
  {
    SecondBrace(t, name);
    var tail := t[1..];
    assert t == [c] + tail;
    PrefixOfTail(c, tail, Replace(rest, Tight));
    assert tail[1] == Replace(rest, Tight)[1];
    var head, later := rest[0], rest[1..];
    assert rest == [head] + later;
    ReplaceHead(head, later, Tight);
    ReplaceHead(head, later, Text);
    hide Replace;
    if head.Literal? {
      assert tail == [head.c] + t[2..];
      PrefixOfTail(head.c, t[2..], Replace(later, Tight));
      TightPrefixIsLiteral(later, t[2..]);
    }
  }

  /** A placeholder has its opening braces in front and nowhere else. */
  lemma SecondBrace(t: string, name: string)
    requires IsPlaceholder(t, name)
    ensures |t| > 3 && t[0] == '{' && t[1] == '{' && t[2] != '{' && '{' !in t[2..]
  {
    var a: nat, b: nat, c: nat :| Parts(t, a, b, c) && name == t[a..b];
    forall i | 2 <= i < |t| ensures t[i] != '{' {
      if i < a {
      } else if i < b {
        assert NameChar(t[i]);
      }
    }
  }

  /** Where no placeholder began, tightening what follows makes none. */
  lemma NoNewMatch(c: char, rest: seq<Piece>)
    requires MatchAt([c] + Replace(rest, Text)) == None
    ensures MatchAt([c] + Replace(rest, Tight)) == None
  {
    hide MatchAt, IsPlaceholder, Replace;
    var s, whole := [c] + Replace(rest, Tight), [c] + Replace(rest, Text);
    forall n: nat, name | n <= |s| ensures MatchAt(s) != Some(Token(n, name)) {
      MatchIsExact(s, n, name);
      if IsPlaceholder(s[..n], name) {
        TightMatchIsOld(c, rest, s[..n], name);
        assert whole[..n] == s[..n];
        MatchIsExact(whole, n, name);
      }
    }
  }

  lemma TightIsPlaceholder(p: Piece)
    requires p.Placeholder? && PieceOk(p)
    ensures IsPlaceholder(Tight(p), p.name)
  {
    var a: nat, b: nat, c: nat :| Parts(p.text, a, b, c) && p.name == p.text[a..b];
    var t, n := Tight(p), |p.name|;
    assert forall i :: 2 <= i < 2 + n ==> t[i] == p.text[a + i - 2];
    assert Parts(t, 2, 2 + n, 2 + n);
    assert t[2..2 + n] == p.name;
  }

  function Tightened(pieces: seq<Piece>): (r: seq<Piece>)
    ensures |r| == |pieces|
    ensures forall k :: 0 <= k < |r| ==> r[k] == if pieces[k].Literal? then pieces[k] else Placeholder(Tight(pieces[k]), pieces[k].name)
  {
    seq(|pieces|, k requires 0 <= k < |pieces| => if pieces[k].Literal? then pieces[k] else Placeholder(Tight(pieces[k]), pieces[k].name))
  }

  lemma CutsToPlaceholder(front: string, rest: string, name: string)
    requires IsPlaceholder(front, name)
    ensures Pieces(front + rest) == [Placeholder(front, name)] + Pieces(rest)
  {
    hide MatchAt;
    SecondBrace(front, name);
    var s, n := front + rest, |front|;
    assert s[..n] == front && s[n..] == rest;
    MatchIsExact(s, n, name);
  }

  lemma CutsToLiteral(c: char, rest: string)
    requires MatchAt([c] + rest) == None
    ensures Pieces([c] + rest) == [Literal(c)] + Pieces(rest)
  {
    hide MatchAt;
    assert ([c] + rest)[1..] == rest;
  }

  lemma TightenedHead(head: Piece, rest: seq<Piece>)
    ensures Tightened([head] + rest) ==
      [if head.Literal? then head else Placeholder(Tight(head), head.name)] + Tightened(rest)
  {}

  /** One step of the argument: a body that begins with a placeholder. */
  lemma TightensPlaceholder(head: Piece, rest: seq<Piece>)
    requires head.Placeholder? && PieceOk(head) && Pieces(Replace(rest, Tight)) == Tightened(rest)
    ensures Pieces(Replace([head] + rest, Tight)) == Tightened([head] + rest)
  {
    hide Pieces, Replace, Tightened, IsPlaceholder;
    ReplaceHead(head, rest, Tight);
    TightenedHead(head, rest);
    TightIsPlaceholder(head);
    CutsToPlaceholder(Tight(head), Replace(rest, Tight), head.name);
  }

  /** The other step: a body that begins with a character of its own. */
  lemma TightensLiteral(c: char, rest: seq<Piece>)
    requires MatchAt([c] + Replace(rest, Text)) == None && Pieces(Replace(rest, Tight)) == Tightened(rest)
    ensures Pieces(Replace([Literal(c)] + rest, Tight)) == Tightened([Literal(c)] + rest)
  {
    hide Pieces, Replace, Tightened, MatchAt;
    ReplaceHead(Literal(c), rest, Tight);
    TightenedHead(Literal(c), rest);
    NoNewMatch(c, rest);
    CutsToLiteral(c, Replace(rest, Tight));
  }

  /** Cutting the tightened body finds the same pieces, each with its white space gone. */
  lemma {:induction false} TighteningKeepsPieces(body: string)
    ensures Pieces(Replace(Pieces(body), Tight)) == Tightened(Pieces(body))
  {
    if body == "" {
      assert Tightened([]) == [];
    } else {
      var n, head := FirstWidth(body), FirstPiece(body);
      PiecesHead(body);
      TighteningKeepsPieces(body[n..]);
      PiecesRebuildTheBody(body[n..]);
      FirstPieceOk(body);
      hide Pieces, Tightened, Replace;
      if head.Placeholder? {
        TightensPlaceholder(head, Pieces(body[n..]));
      } else {
        TightensLiteral(body[0], Pieces(body[n..]));
      }
    }
  }

  lemma FirstPieceOk(body: string)
    requires body != ""
    ensures PieceOk(FirstPiece(body))
    ensures FirstPiece(body).Literal? ==> FirstWidth(body) == 1 && MatchAt([body[0]] + body[1..]) == None
  {
    var m := MatchAt(body);
    assert [body[0]] + body[1..] == body;
    hide MatchAt;
    if m.Some? {
      assert m == Some(Token(m.value.length, m.value.name));
      MatchIsExact(body, m.value.length, m.value.name);
    }
  }

  // -- checking a body ---------------------------------------------------------------------------------

  datatype PromptError = Unsupported(name: string) | Malformed | BadLength | Unresolved(name: string) | TooLong

  predicate Contains(s: string, c: char, d: char) {
    exists i :: 0 <= i < |s| - 1 && s[i] == c && s[i + 1] == d
  }

  /** Double braces left over once the placeholders are gone. */
  predicate HasStrayBraces(body: string) {
    var remaining := Replace(Pieces(body), Nothing);
    Contains(remaining, '{', '{') || Contains(remaining, '}', '}')
  }

  /** Two such braces of the text itself, with nothing but placeholders between them. */
  ghost predicate BracesMeet(pieces: seq<Piece>, d: char) {
    exists i: nat, j: nat :: Meet(pieces, d, i, j)
  }

  predicate Meet(pieces: seq<Piece>, d: char, i: nat, j: nat) {
    i < j < |pieces| && pieces[i] == Literal(d) && Leads(pieces[i + 1..], d, j - i - 1)
  }

  /** The first piece that is not a placeholder is this brace, at position j. */
  predicate Leads(pieces: seq<Piece>, d: char, j: nat) {
    j < |pieces| && pieces[j] == Literal(d) && forall k :: 0 <= k < j ==> pieces[k].Placeholder?
  }

  /** What is filled in for the placeholders has no such character. */
  predicate FillsWithout(pieces: seq<Piece>, fill: Piece -> string, d: char) {
    forall p :: p in pieces && p.Placeholder? ==> d !in fill(p)
  }

  lemma FirstIsIn(a: string, b: string)
    ensures a != "" ==> (a + b)[0] in a
  {}

  lemma FrontIsIn(a: string, b: string, i: nat)
    ensures i < |a| ==> (a + b)[i] in a
  {}

  lemma {:induction false} BraceInFront(pieces: seq<Piece>, fill: Piece -> string, d: char) returns (j: nat)
    requires FillsWithout(pieces, fill, d) && Replace(pieces, fill) != "" && Replace(pieces, fill)[0] == d
    ensures Leads(pieces, d, j)
  {
    var head, rest := pieces[0], pieces[1..];
    assert pieces == [head] + rest;
    ReplaceHead(head, rest, fill);
    if head.Literal? {
      j := 0;
    } else {
      assert head in pieces;
      FirstIsIn(fill(head), Replace(rest, fill));
      assert forall p :: p in rest ==> p in pieces;
      j := BraceInFront(rest, fill, d);
      j := j + 1;
    }
  }

  lemma ContainsInSecond(a: string, b: string, d: char)
    requires Contains(a + b, d, d) && d !in a
    ensures Contains(b, d, d)
  {
    var i :| 0 <= i < |a + b| - 1 && (a + b)[i] == d && (a + b)[i + 1] == d;
    FrontIsIn(a, b, i);
    assert b[i - |a|] == d && b[i - |a| + 1] == d;
  }

  lemma ContainsAfterFirst(c: char, b: string, d: char)
    requires Contains([c] + b, d, d)
    ensures Contains(b, d, d) || (c == d && b != "" && b[0] == d)
  {
    var i :| 0 <= i < |b| && ([c] + b)[i] == d && ([c] + b)[i + 1] == d;
    assert i > 0 ==> b[i - 1] == d && b[i - 1 + 1] == d;
  }

  lemma MeetsLater(head: Piece, rest: seq<Piece>, d: char)
    requires BracesMeet(rest, d)
    ensures BracesMeet([head] + rest, d)
  {
    var i: nat, j: nat :| Meet(rest, d, i, j);
    assert ([head] + rest)[i + 1 + 1..] == rest[i + 1..];
    assert Meet([head] + rest, d, i + 1, j + 1);
  }

  /** Two braces in a row in a filled text, none of them filled in, meet in the body. */
  lemma {:induction false} FilledBracesMeet(pieces: seq<Piece>, fill: Piece -> string, d: char)
    requires FillsWithout(pieces, fill, d) && Contains(Replace(pieces, fill), d, d)
    ensures BracesMeet(pieces, d)
  {
    var head, rest := pieces[0], pieces[1..];
    assert pieces == [head] + rest;
    ReplaceHead(head, rest, fill);
    assert forall p :: p in rest ==> p in pieces;
    if head.Placeholder? {
      assert head in pieces;
      ContainsInSecond(fill(head), Replace(rest, fill), d);
    } else {
      ContainsAfterFirst(head.c, Replace(rest, fill), d);
    }
    if Contains(Replace(rest, fill), d, d) {
      FilledBracesMeet(rest, fill, d);
      MeetsLater(head, rest, d);
    } else {
      var j := BraceInFront(rest, fill, d);
      assert Meet(pieces, d, 0, j + 1);
    }
  }

  lemma {:induction false} LeadingBraceIsFirst(pieces: seq<Piece>, d: char, j: nat)
    requires Leads(pieces, d, j)
    ensures Replace(pieces, Nothing) != "" && Replace(pieces, Nothing)[0] == d
    decreases j
  {
    assert pieces == [pieces[0]] + pieces[1..];
    ReplaceHead(pieces[0], pieces[1..], Nothing);
    if j > 0 {
      LeadingBraceIsFirst(pieces[1..], d, j - 1);
    }
  }

  lemma {:induction false} MeetingBracesRemain(pieces: seq<Piece>, d: char, i: nat, j: nat)
    requires Meet(pieces, d, i, j)
    ensures Contains(Replace(pieces, Nothing), d, d)
    decreases i
  {
    var head, rest := pieces[0], pieces[1..];
    assert pieces == [head] + rest;
    ReplaceHead(head, rest, Nothing);
    var tail := Replace(rest, Nothing);
    if i == 0 {
      LeadingBraceIsFirst(rest, d, j - 1);
      assert Replace(pieces, Nothing) == [d] + tail && ([d] + tail)[0] == d && ([d] + tail)[0 + 1] == d;
    } else {
      assert rest[i - 1 + 1..] == pieces[i + 1..];
      MeetingBracesRemain(rest, d, i - 1, j - 1);
      var k :| 0 <= k < |tail| - 1 && tail[k] == d && tail[k + 1] == d;
      var n := if head.Literal? then 1 else 0;
      assert Replace(pieces, Nothing)[n + k] == d && Replace(pieces, Nothing)[n + k + 1] == d;
    }
  }

  /** A body has stray braces exactly when two of one kind meet in its own text. */
  lemma StrayBracesMeet(body: string)
    ensures HasStrayBraces(body) <==> BracesMeet(Pieces(body), '{') || BracesMeet(Pieces(body), '}')
  {
    hide Pieces;
    var pieces := Pieces(body);
    forall d ensures Contains(Replace(pieces, Nothing), d, d) <==> BracesMeet(pieces, d) {
      if Contains(Replace(pieces, Nothing), d, d) {
        FilledBracesMeet(pieces, Nothing, d);
      }
      if BracesMeet(pieces, d) {
        var i: nat, j: nat :| Meet(pieces, d, i, j);
        MeetingBracesRemain(pieces, d, i, j);
      }
    }
  }

  /** Each name once, where it first occurs. */
  function Unique(names: seq<string>): (r: seq<string>)
    ensures Distinct(r) && forall n :: n in r <==> n in names
  {
    if names == [] then []
    else
      var last := names[|names| - 1];
      assert names == names[..|names| - 1] + [last];
      var r := Unique(names[..|names| - 1]);
      if last in r then r else r + [last]
  }

  lemma FirstUseStays(names: seq<string>, last: string, n: string)
    requires n in names
    ensures n in names + [last] && IndexOf(names + [last], n) == IndexOf(names, n)
  {
    var i := IndexOf(names, n);
    assert (names + [last])[i] == n && (names + [last])[..i] == names[..i];
    FirstIndex(names + [last], n, i);
  }

  /** The names come in the order of their first use. */
  lemma {:induction false} NamesComeInOrderOfUse(names: seq<string>, i: nat, j: nat)
    requires i < j < |Unique(names)|
    ensures IndexOf(names, Unique(names)[i]) < IndexOf(names, Unique(names)[j])
  {
    var init, last := names[..|names| - 1], names[|names| - 1];
    var r := Unique(init);
    assert names == init + [last];
    assert Unique(names) == if last in r then r else r + [last];
    FirstUseStays(init, last, r[i]);
    if j < |r| {
      NamesComeInOrderOfUse(init, i, j);
      FirstUseStays(init, last, r[j]);
    } else {
      FirstIndex(names, last, |init|);
    }
  }

  predicate AllSupported(names: seq<string>) {
    forall n :: n in names ==> n in VARIABLES
  }

  /** The first name outside the allowlist. */
  function FirstUnsupported(names: seq<string>): (n: string)
    requires !AllSupported(names)
    ensures n in names && n !in VARIABLES
    ensures exists i :: 0 <= i < |names| && names[i] == n && forall j :: 0 <= j < i ==> names[j] in VARIABLES
  {
    if names[0] !in VARIABLES then names[0] else FirstUnsupported(names[1..])
  }

  /** What checking a body answers. */
  function Checked(body: string): Result<seq<string>, PromptError> {
    var names := Names(Pieces(body));
    if !AllSupported(names) then Err(Unsupported(FirstUnsupported(names)))
    else if HasStrayBraces(body) then Err(Malformed)
    else Ok(Unique(names))
  }

  lemma NamesHead(head: Piece, rest: seq<Piece>)
    ensures Names([head] + rest) == (if head.Placeholder? then [head.name] else []) + Names(rest)
  {
    assert ([head] + rest)[1..] == rest;
  }

  lemma {:induction false} NamesConcat(a: seq<Piece>, b: seq<Piece>)
    ensures Names(a + b) == Names(a) + Names(b)
  {
    if a == [] {
      assert a + b == b;
    } else {
      assert a + b == [a[0]] + (a[1..] + b) && a == [a[0]] + a[1..];
      NamesHead(a[0], a[1..] + b);
      NamesHead(a[0], a[1..]);
      NamesConcat(a[1..], b);
    }
  }

  lemma {:induction false} ReplaceConcat(a: seq<Piece>, b: seq<Piece>, fill: Piece -> string)
    ensures Replace(a + b, fill) == Replace(a, fill) + Replace(b, fill)
  {
    if a == [] {
      assert a + b == b;
    } else {
      assert a + b == [a[0]] + (a[1..] + b) && a == [a[0]] + a[1..];
      ReplaceHead(a[0], a[1..] + b, fill);
      ReplaceHead(a[0], a[1..], fill);
      ReplaceConcat(a[1..], b, fill);
    }
  }

  /** Piece k is the first placeholder with a name outside the allowlist. */
  predicate FirstForeign(pieces: seq<Piece>, k: nat) {
    && k < |pieces| && pieces[k].Placeholder? && pieces[k].name !in VARIABLES
    && forall j :: 0 <= j < k && pieces[j].Placeholder? ==> pieces[j].name in VARIABLES
  }

  /** The piece the scanner finds at position i. */
  function PieceAt(body: string, i: nat): (p: Piece)
    requires i < |body|
  {
    FirstPiece(body[i..])
  }

  function Width(body: string, i: nat): (n: nat)
    requires i < |body|
    ensures 0 < n <= |body| - i
  {
    FirstWidth(body[i..])
  }

  lemma ScanStep(body: string, i: nat, seen: seq<Piece>)
    requires i < |body| && Pieces(body) == seen + Pieces(body[i..])
    ensures Pieces(body[i..]) == [PieceAt(body, i)] + Pieces(body[i + Width(body, i)..])
    ensures Pieces(body) == (seen + [PieceAt(body, i)]) + Pieces(body[i + Width(body, i)..])
  {
    hide FirstPiece, FirstWidth, Pieces;
    PiecesHead(body[i..]);
    var n := Width(body, i);
    assert body[i..][n..] == body[i + n..];
    assert seen + ([PieceAt(body, i)] + Pieces(body[i + n..])) == (seen + [PieceAt(body, i)]) + Pieces(body[i + n..]);
  }

  lemma ForeignPiece(body: string, i: nat, seen: seq<Piece>)
    requires i < |body| && Pieces(body) == seen + Pieces(body[i..]) && AllSupported(Names(seen))
    requires PieceAt(body, i).Placeholder? && PieceAt(body, i).name !in VARIABLES
    ensures Checked(body) == Err(Unsupported(PieceAt(body, i).name))
    ensures |seen| < |Pieces(body)| && Pieces(body)[|seen|] == PieceAt(body, i) && FirstForeign(Pieces(body), |seen|)
  {
    hide MatchAt, Pieces;
    ScanStep(body, i, seen);
    var head, rest := PieceAt(body, i), Pieces(body[i + Width(body, i)..]);
    NamesConcat(seen, [head] + rest);
    NamesHead(head, rest);
    ForeignNameIsFirst(Names(seen), head.name, Names(rest));
    assert Pieces(body) == (seen + [head]) + rest;
    forall j | 0 <= j < |seen| && seen[j].Placeholder? ensures seen[j].name in VARIABLES {
      assert seen[j].name in Names(seen);
    }
  }

  /** The scan of the whole body: names into a set, everything else kept, stopping at a foreign name. */
  method PromptVariables(body: string) returns (r: Result<seq<string>, PromptError>)
    ensures r == Checked(body)
    ensures r == Err(Malformed) <==>
      && (forall p :: p in Pieces(body) && p.Placeholder? ==> p.name in VARIABLES)
      && (BracesMeet(Pieces(body), '{') || BracesMeet(Pieces(body), '}'))
    ensures r.Err? && r != Err(Malformed) ==>
      r.error.Unsupported? && exists k: nat :: FirstForeign(Pieces(body), k) && Pieces(body)[k].name == r.error.name
  {
    hide MatchAt, Pieces, Names, Replace, Unique;
    var variables: seq<string> := [];
    var remaining, i := "", 0;
    ghost var seen: seq<Piece> := [];
    NothingSeen(body);
    while i < |body|
      invariant 0 <= i <= |body| && Pieces(body) == seen + Pieces(body[i..])
      invariant AllSupported(Names(seen)) && variables == Unique(Names(seen)) && remaining == Replace(seen, Nothing)
    {
      var m := MatchAt(body[i..]);
      ghost var head := PieceAt(body, i);
      ScanStep(body, i, seen);
      AppendPiece(seen, head);
      if m.Some? {
        if m.value.name !in VARIABLES {
          ForeignPiece(body, i, seen);
          return Err(Unsupported(m.value.name));
        }
        if m.value.name !in variables {
          variables := variables + [m.value.name];
        }
        i := i + m.value.length;
      } else {
        remaining := remaining + [body[i]];
        i := i + 1;
      }
      seen := seen + [head];
    }
    assert body[i..] == "";
    NothingLeft(seen);
    SupportedPieces(seen);
    StrayBracesMeet(body);
    if Contains(remaining, '{', '{') || Contains(remaining, '}', '}') {
      return Err(Malformed);
    }
    return Ok(variables);
  }

  lemma SupportedPieces(pieces: seq<Piece>)
    requires AllSupported(Names(pieces))
    ensures forall p :: p in pieces && p.Placeholder? ==> p.name in VARIABLES
  {
    forall p | p in pieces && p.Placeholder? ensures p.name in VARIABLES {
      var k :| 0 <= k < |pieces| && pieces[k] == p;
      assert p.name in Names(pieces);
    }
  }

  lemma NothingSeen(body: string)
    ensures Pieces(body) == [] + Pieces(body[0..]) && Names([]) == [] && Unique([]) == [] && Replace([], Nothing) == ""
  {
    hide MatchAt;
    assert body[0..] == body;
  }

  lemma NothingLeft(seen: seq<Piece>)
    ensures seen + Pieces("") == seen
  {}

  lemma AppendPiece(seen: seq<Piece>, head: Piece)
    ensures Names(seen + [head]) == Names(seen) + (if head.Placeholder? then [head.name] else [])
    ensures Replace(seen + [head], Nothing) == Replace(seen, Nothing) + (if head.Literal? then [head.c] else "")
    ensures Unique(Names(seen + [head])) ==
      if head.Literal? || head.name in Unique(Names(seen)) then Unique(Names(seen)) else Unique(Names(seen)) + [head.name]
  {
    NamesConcat(seen, [head]);
    ReplaceConcat(seen, [head], Nothing);
    assert [head] == [head] + [];
    NamesHead(head, []);
    ReplaceHead(head, [], Nothing);
    if head.Placeholder? {
      UniqueLast(Names(seen), head.name);
    } else {
      assert Names(seen) + [] == Names(seen);
    }
  }

  lemma UniqueLast(names: seq<string>, name: string)
    ensures Unique(names + [name]) == if name in Unique(names) then Unique(names) else Unique(names) + [name]
  {
    assert (names + [name])[..|names|] == names;
  }

  lemma {:induction false} ForeignNameIsFirst(good: seq<string>, name: string, rest: seq<string>)
    requires AllSupported(good) && name !in VARIABLES
    ensures !AllSupported(good + ([name] + rest)) && FirstUnsupported(good + ([name] + rest)) == name
  {
    var all := good + ([name] + rest);
    assert all[|good|] == name;
    if good != [] {
      assert all[0] == good[0] && all[1..] == good[1..] + ([name] + rest);
      forall n | n in good[1..] ensures n in VARIABLES {
        assert n in good;
      }
      ForeignNameIsFirst(good[1..], name, rest);
    }
  }

  // -- trimming ---------------------------------------------------------------------------------------

  function TrimEnd(s: string): (r: string)
    ensures r <= s && (forall i :: |r| <= i < |s| ==> Space(s[i])) && (r != "" ==> !Space(r[|r| - 1]))
  {
    if s != "" && Space(s[|s| - 1]) then TrimEnd(s[..|s| - 1]) else s
  }

  function TrimStart(s: string): (r: string)
    ensures |r| <= |s| && r == s[|s| - |r|..] && (forall i :: 0 <= i < |s| - |r| ==> Space(s[i])) && (r != "" ==> !Space(r[0]))
  {
    if s != "" && Space(s[0]) then TrimStart(s[1..]) else s
  }

  function Trim(s: string): (r: string)
    ensures |r| <= |s| && (r != "" ==> !Space(r[0]) && !Space(r[|r| - 1])) && (r == "" <==> forall i :: 0 <= i < |s| ==> Space(s[i]))
  {
    TrimEnd(TrimStart(s))
  }

  lemma LeadingSpaceIsLiteral(c: char, rest: string)
    requires Space(c)
    ensures Pieces([c] + rest) == [Literal(c)] + Pieces(rest)
  {
    CutsToLiteral(c, rest);
  }

  lemma MatchIgnoresTrailingSpace(s: string, c: char)
    requires s != "" && Space(c)
    ensures MatchAt(s + [c]) == MatchAt(s)
  {
    forall n: nat, name | n <= |s| + 1 ensures MatchAt(s + [c]) == Some(Token(n, name)) <==> MatchAt(s) == Some(Token(n, name)) {
      MatchIsExact(s + [c], n, name);
      if n <= |s| {
        MatchIsExact(s, n, name);
        assert (s + [c])[..n] == s[..n];
      } else {
        EndsInBrace((s + [c])[..n], name);
        assert (s + [c])[..n] == s + [c];
      }
    }
    hide MatchAt, IsPlaceholder;
    var m, k := MatchAt(s + [c]), MatchAt(s);
    if m.Some? {
      assert m == Some(Token(m.value.length, m.value.name));
    }
    if k.Some? {
      assert k == Some(Token(k.value.length, k.value.name));
    }
  }

  lemma EndsInBrace(t: string, name: string)
    ensures IsPlaceholder(t, name) ==> |t| > 0 && t[|t| - 1] == '}'
  {}

  lemma {:induction false} TrailingSpaceIsLiteral(s: string, c: char)
    requires Space(c)
    ensures Pieces(s + [c]) == Pieces(s) + [Literal(c)]
  {
    if s == "" {
      LeadingSpaceIsLiteral(c, "");
      assert s + [c] == [c] + "";
    } else {
      MatchIgnoresTrailingSpace(s, c);
      hide MatchAt, Pieces;
      var n := FirstWidth(s);
      assert (s + [c])[..n] == s[..n] && (s + [c])[n..] == s[n..] + [c] && (s + [c])[0] == s[0];
      PiecesHead(s);
      PiecesHead(s + [c]);
      TrailingSpaceIsLiteral(s[n..], c);
    }
  }

  lemma ContainsAround(s: string, c: char, d: char)
    requires c != d
    ensures Contains([c] + s, d, d) == Contains(s, d, d) && Contains(s + [c], d, d) == Contains(s, d, d)
  {
    if Contains(s, d, d) {
      var i :| 0 <= i < |s| - 1 && s[i] == d && s[i + 1] == d;
      assert ([c] + s)[i + 1] == d && ([c] + s)[i + 1 + 1] == d;
      assert (s + [c])[i] == d && (s + [c])[i + 1] == d;
    }
    if Contains([c] + s, d, d) {
      var i :| 0 <= i < |s| && ([c] + s)[i] == d && ([c] + s)[i + 1] == d;
      assert s[i - 1] == d && s[i - 1 + 1] == d;
    }
    if Contains(s + [c], d, d) {
      var i :| 0 <= i < |s| && (s + [c])[i] == d && (s + [c])[i + 1] == d;
      assert s[i] == d && s[i + 1] == d;
    }
  }

  lemma OuterSpaceIsHarmless(s: string, c: char)
    requires Space(c)
    ensures Checked([c] + s) == Checked(s) && Checked(s + [c]) == Checked(s)
  {
    var pieces := Pieces(s);
    LeadingSpaceIsLiteral(c, s);
    TrailingSpaceIsLiteral(s, c);
    NamesHead(Literal(c), pieces);
    AppendPiece(pieces, Literal(c));
    ReplaceHead(Literal(c), pieces, Nothing);
    var remaining := Replace(pieces, Nothing);
    ContainsAround(remaining, c, '{');
    ContainsAround(remaining, c, '}');
    hide Pieces, Names, Replace, Contains, Unique;
    assert [] + Names(pieces) == Names(pieces) && Names(pieces) + [] == Names(pieces);
  }

  /** Checking the trimmed body and checking the body itself never differ. */
  lemma TrimKeepsVerdict(body: string)
    ensures Checked(Trim(body)) == Checked(body)
  {
    TrimStartKeepsVerdict(body);
    TrimEndKeepsVerdict(TrimStart(body));
  }

  lemma {:induction false} TrimStartKeepsVerdict(s: string)
    ensures Checked(TrimStart(s)) == Checked(s)
  {
    hide Checked, Space;
    if s != "" && Space(s[0]) {
      TrimStartKeepsVerdict(s[1..]);
      OuterSpaceIsHarmless(s[1..], s[0]);
      assert s == [s[0]] + s[1..];
    }
  }

  lemma {:induction false} TrimEndKeepsVerdict(s: string)
    ensures Checked(TrimEnd(s)) == Checked(s)
  {
    hide Checked, Space;
    if s != "" && Space(s[|s| - 1]) {
      var init := s[..|s| - 1];
      TrimEndKeepsVerdict(init);
      OuterSpaceIsHarmless(init, s[|s| - 1]);
      assert s == init + [s[|s| - 1]];
    }
  }

  // -- rendering --------------------------------------------------------------------------------------------

  predicate Bound(context: map<string, string>, name: string) {
    name in context && Trim(context[name]) != ""
  }

  /** There is a value, and not only white space. */
  predicate HasValue(context: map<string, string>, name: string) {
    name in context && exists c :: c in context[name] && !Space(c)
  }

  lemma BoundHasValue(context: map<string, string>, name: string)
    ensures Bound(context, name) <==> HasValue(context, name)
  {
    if name in context {
      var value := context[name];
      if i :| 0 <= i < |value| && !Space(value[i]) {
        assert value[i] in value;
      }
    }
  }

  /** The first placeholder without a value. */
  predicate FirstMissing(pieces: seq<Piece>, context: map<string, string>, k: nat) {
    && k < |pieces| && pieces[k].Placeholder? && !HasValue(context, pieces[k].name)
    && forall j :: 0 <= j < k && pieces[j].Placeholder? ==> HasValue(context, pieces[j].name)
  }

  /** The first name without a value, or with a blank one. */
  function FirstUnbound(names: seq<string>, context: map<string, string>): (r: Option<string>)
    ensures r == None <==> forall n :: n in names ==> Bound(context, n)
    ensures r.Some? ==> r.value in names && !Bound(context, r.value)
  {
    if names == [] then None
    else if !Bound(context, names[0]) then Some(names[0])
    else
      assert names == [names[0]] + names[1..];
      FirstUnbound(names[1..], context)
  }

  /** The body's literals interleaved with the values, as they are. */
  function Expanded(body: string, context: map<string, string>): string {
    Replace(Pieces(body), Filled(context))
  }

  /** When a body renders, and to what. */
  ghost predicate RendersTo(body: string, context: map<string, string>, r: Result<string, PromptError>) {
    if !(1 <= |Trim(body)| <= MAX_BODY) then r == Err(BadLength)
    else
      match Checked(body)
      case Err(e) => r == Err(e)
      case Ok(names) =>
        if FirstUnbound(names, context).Some? then r == Err(Unresolved(FirstUnbound(names, context).value))
        else if |Expanded(body, context)| > MAX_RENDERED then r == Err(TooLong)
        else r == Ok(Expanded(body, context))
  }

  /** The schema check of the trimmed body, the check of the body, the values, then one replacement. */
  method RenderPrompt(body: string, context: map<string, string>) returns (r: Result<string, PromptError>)
    ensures RendersTo(body, context, r)
    ensures r == Err(BadLength) <==> !(1 <= |Trim(body)| <= 20000)
    ensures r.Ok? ==> |r.value| <= 100000
    ensures r == Err(TooLong) ==> |Expanded(body, context)| > 100000
    ensures r.Ok? || r == Err(TooLong) ==> forall p :: p in Pieces(body) && p.Placeholder? ==> HasValue(context, p.name)
    ensures r.Err? && r.error.Unresolved? ==>
      exists k: nat :: FirstMissing(Pieces(body), context, k) && Pieces(body)[k].name == r.error.name
    ensures r.Ok? && (forall n :: n in context ==> '{' !in context[n] && '}' !in context[n]) ==>
      !Contains(r.value, '{', '{') && !Contains(r.value, '}', '}')
  {
    hide Pieces, Trim;
    var trimmed := Trim(body);
    if |trimmed| < 1 || |trimmed| > MAX_BODY {
      return Err(BadLength);
    }
    TrimKeepsVerdict(body);
    var parsed := PromptVariables(trimmed);
    if parsed.Err? {
      return Err(parsed.error);
    }
    var variables := PromptVariables(body);
    var k := 0;
    while k < |variables.value|
      invariant 0 <= k <= |variables.value|
      invariant forall n :: n in variables.value[..k] ==> Bound(context, n)
    {
      var name := variables.value[k];
      if name !in context || Trim(context[name]) == "" {
        FirstUnboundIs(variables.value, context, k);
        UnboundIsFirstMissing(Pieces(body), context, k);
        return Err(Unresolved(name));
      }
      assert variables.value[..k + 1] == variables.value[..k] + [name];
      k := k + 1;
    }
    assert variables.value[..k] == variables.value;
    AllBound(Pieces(body), context);
    var rendered := Expanded(body, context);
    if |rendered| > MAX_RENDERED {
      return Err(TooLong);
    }
    if forall n :: n in context ==> '{' !in context[n] && '}' !in context[n] {
      CleanValuesRenderClean(body, context);
    }
    return Ok(rendered);
  }

  /** A checked body filled with values that hold no braces shows no double brace. */
  lemma CleanValuesRenderClean(body: string, context: map<string, string>)
    requires Checked(body).Ok? && forall n :: n in context ==> '{' !in context[n] && '}' !in context[n]
    ensures !Contains(Expanded(body, context), '{', '{') && !Contains(Expanded(body, context), '}', '}')
  {
    hide Pieces, Contains, Names;
    StrayBracesMeet(body);
    forall d | (d == '{' || d == '}') && Contains(Expanded(body, context), d, d) ensures false {
      FilledBracesMeet(Pieces(body), Filled(context), d);
    }
  }

  lemma {:induction false} FirstUnboundIs(names: seq<string>, context: map<string, string>, k: nat)
    requires k < |names| && !Bound(context, names[k]) && forall n :: n in names[..k] ==> Bound(context, n)
    ensures FirstUnbound(names, context) == Some(names[k])
  {
    hide Bound;
    if k > 0 {
      assert names[..k][0] == names[0] && names[0] in names[..k];
      forall n | n in names[1..][..k - 1] ensures Bound(context, n) {
        assert names[1..][..k - 1] == names[..k][1..];
        assert n in names[..k];
      }
      FirstUnboundIs(names[1..], context, k - 1);
    }
  }

  /** The first unbound name belongs to the first placeholder without a value. */
  lemma UnboundIsFirstMissing(pieces: seq<Piece>, context: map<string, string>, i: nat)
    requires i < |Unique(Names(pieces))| && !Bound(context, Unique(Names(pieces))[i])
    requires forall n :: n in Unique(Names(pieces))[..i] ==> Bound(context, n)
    ensures exists k: nat :: FirstMissing(pieces, context, k) && pieces[k].name == Unique(Names(pieces))[i]
  {
    hide Bound, HasValue, Unique, Names;
    var name := Unique(Names(pieces))[i];
    assert name in Unique(Names(pieces));
    var k := FirstPieceOf(pieces, name);
    BoundHasValue(context, name);
    forall j | 0 <= j < k && pieces[j].Placeholder? ensures HasValue(context, pieces[j].name) {
      EarlierPieceIsBound(pieces, context, i, j, k);
      BoundHasValue(context, pieces[j].name);
    }
    assert FirstMissing(pieces, context, k);
  }

  lemma FirstPieceOf(pieces: seq<Piece>, name: string) returns (k: nat)
    requires name in Names(pieces)
    ensures k < |pieces| && pieces[k].Placeholder? && pieces[k].name == name && name !in Names(pieces[..k])
  {
    k := 0;
    while !(pieces[k].Placeholder? && pieces[k].name == name)
      invariant 0 <= k < |pieces| && forall j :: 0 <= j < k ==> !(pieces[j].Placeholder? && pieces[j].name == name)
      decreases |pieces| - k
    {
      k := k + 1;
    }
  }

  lemma EarlierPieceIsBound(pieces: seq<Piece>, context: map<string, string>, i: nat, j: nat, k: nat)
    requires i < |Unique(Names(pieces))| && forall n :: n in Unique(Names(pieces))[..i] ==> Bound(context, n)
    requires j < k < |pieces| && pieces[j].Placeholder? && Unique(Names(pieces))[i] !in Names(pieces[..k])
    ensures Bound(context, pieces[j].name)
  {
    hide Bound, Unique;
    var names, r, name := Names(pieces), Unique(Names(pieces)), pieces[j].name;
    assert pieces[..k][j] == pieces[j];
    assert name in Names(pieces[..k]) && name in names;
    assert name in r;
    var m :| 0 <= m < |r| && r[m] == name;
    if m < i {
      assert r[..i][m] == name;
    } else {
      assert r[i] in r;
      NamesOfPrefix(pieces, k);
      EarlierName(Names(pieces[..k]), Names(pieces[k..]), name, r[i]);
      NamesComeInOrderOfUse(names, i, m);
      assert false;
    }
  }

  lemma NamesOfPrefix(pieces: seq<Piece>, k: nat)
    requires k <= |pieces|
    ensures Names(pieces) == Names(pieces[..k]) + Names(pieces[k..])
  {
    NamesConcat(pieces[..k], pieces[k..]);
    assert pieces[..k] + pieces[k..] == pieces;
  }

  lemma EarlierName(front: seq<string>, back: seq<string>, a: string, b: string)
    requires a in front && b !in front && b in front + back
    ensures a in front + back && IndexOf(front + back, a) < IndexOf(front + back, b)
  {
    FirstUseStays(front, a, a);
    var i, names := IndexOf(front, a), front + back;
    assert names[i] == a && names[..i] == front[..i];
    FirstIndex(names, a, i);
    assert names[IndexOf(names, b)] == b && forall j :: 0 <= j < |front| ==> names[j] in front;
  }

  lemma AllBound(pieces: seq<Piece>, context: map<string, string>)
    requires forall n :: n in Unique(Names(pieces)) ==> Bound(context, n)
    ensures forall p :: p in pieces && p.Placeholder? ==> Bound(context, p.name) && HasValue(context, p.name)
  {
    hide Bound, HasValue;
    forall p | p in pieces && p.Placeholder? ensures Bound(context, p.name) && HasValue(context, p.name) {
      var k :| 0 <= k < |pieces| && pieces[k] == p;
      assert p.name in Names(pieces);
      BoundHasValue(context, p.name);
    }
  }

  // -- single pass -----------------------------------------------------------------------------------------

  /** Where the text of piece k begins in the result. */
  function Offset(pieces: seq<Piece>, fill: Piece -> string, k: nat): nat
    requires k <= |pieces|
  {
    |Replace(pieces[..k], fill)|
  }

  /**
   The slots of the pieces tile the result, and each holds its literal or its value character for
   character, whatever braces the value contains.
   */
  lemma SlotHoldsValue(body: string, context: map<string, string>, k: nat)
    requires k < |Pieces(body)|
    requires Pieces(body)[k].Placeholder? ==> Bound(context, Pieces(body)[k].name)
    ensures var pieces, result := Pieces(body), Expanded(body, context);
      && Offset(pieces, Filled(context), 0) == 0 && Offset(pieces, Filled(context), |pieces|) == |result|
      && Offset(pieces, Filled(context), k) <= Offset(pieces, Filled(context), k + 1) <= |result|
      && result[Offset(pieces, Filled(context), k)..Offset(pieces, Filled(context), k + 1)] ==
         if pieces[k].Literal? then [pieces[k].c] else context[pieces[k].name]
  {
    hide Pieces, Bound, Replace;
    var pieces, fill := Pieces(body), Filled(context);
    var before, after := pieces[..k], pieces[k + 1..];
    assert pieces == before + ([pieces[k]] + after);
    assert pieces[..k + 1] == before + ([pieces[k]] + []);
    ReplaceConcat(before, [pieces[k]] + after, fill);
    ReplaceConcat(before, [pieces[k]] + [], fill);
    ReplaceHead(pieces[k], after, fill);
    ReplaceHead(pieces[k], [], fill);
    EmptyReplaces(fill);
    assert pieces[..|pieces|] == pieces && pieces[..0] == [];
    BoundMeansPresent(context, pieces[k]);
  }

  lemma EmptyReplaces(fill: Piece -> string)
    ensures Replace([], fill) == ""
  {}

  lemma BoundMeansPresent(context: map<string, string>, p: Piece)
    ensures p.Placeholder? && Bound(context, p.name) ==> p.name in context && Filled(context)(p) == context[p.name]
  {}

  // -- binding a variable to its own placeholder --------------------------------------------------------------

  function SelfBinding(): map<string, string> {
    map n | n in VARIABLES :: "{{" + n + "}}"
  }

  /** The body with only the white space inside its placeholders removed. */
  function TightBody(body: string): string {
    Replace(Pieces(body), Tight)
  }

  lemma {:induction false} SelfFilledIsTight(pieces: seq<Piece>)
    requires AllSupported(Names(pieces))
    ensures Replace(pieces, Filled(SelfBinding())) == Replace(pieces, Tight)
  {
    if pieces != [] {
      var head, rest := pieces[0], pieces[1..];
      assert pieces == [head] + rest;
      NamesHead(head, rest);
      if head.Placeholder? {
        assert Names(pieces)[0] == head.name && head.name in Names(pieces);
      }
      forall n | n in Names(rest) ensures n in VARIABLES {
        assert n in Names(pieces);
      }
      SelfFilledIsTight(rest);
      ReplaceHead(head, rest, Tight);
      ReplaceHead(head, rest, Filled(SelfBinding()));
    }
  }

  /**
   Binding every variable to its own placeholder gives the body back without the white space in
   its braces, and doing so again changes nothing more.
   */
  lemma SelfBindingOnlyTightens(body: string)
    requires Checked(body).Ok?
    ensures Expanded(body, SelfBinding()) == TightBody(body)
    ensures Checked(TightBody(body)) == Checked(body) && TightBody(TightBody(body)) == TightBody(body)
  {
    hide Pieces, Replace, Names, MatchAt;
    SelfFilledIsTight(Pieces(body));
    TighteningKeepsPieces(body);
    TightenedIsTheSame(Pieces(body));
  }

  lemma {:induction false} TightenedIsTheSame(pieces: seq<Piece>)
    ensures Names(Tightened(pieces)) == Names(pieces)
    ensures Replace(Tightened(pieces), Nothing) == Replace(pieces, Nothing)
    ensures Replace(Tightened(pieces), Tight) == Replace(pieces, Tight)
  {
    if pieces == [] {
      assert Tightened(pieces) == [];
    } else {
      var head, rest := pieces[0], pieces[1..];
      var tight := if head.Literal? then head else Placeholder(Tight(head), head.name);
      assert pieces == [head] + rest;
      TightenedHead(head, rest);
      TightenedIsTheSame(rest);
      NamesHead(head, rest);
      NamesHead(tight, Tightened(rest));
      ReplaceHead(head, rest, Nothing);
      ReplaceHead(tight, Tightened(rest), Nothing);
      ReplaceHead(head, rest, Tight);
      ReplaceHead(tight, Tightened(rest), Tight);
    }
  }
}
