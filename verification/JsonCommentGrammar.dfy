/**
 * What stripping comments does to a text, by a grammar of texts with string literals and comments: comments
 * disappear, nothing else does, and what is left reads as it did before.
 */
module JsonCommentGrammar {
  import opened Options
  import opened StringLiterals
  import opened JsonComments

  // ------------------------------------------------------------------ grammar

  /** A character of code, a string literal, or a comment. */
  datatype Part = Plain(c: char) | Quoted(body: seq<Unit>) | LineNote(text: string) | BlockNote(text: string)

  /** How a text may break off: in a literal, perhaps right behind a backslash, or in a block comment. */
  datatype Tail = Complete | OpenQuote(body: seq<Unit>, dangling: bool) | OpenBlock(text: string)

  function Spelled(p: Part): string {
    match p
    case Plain(c) => [c]
    case Quoted(body) => "\"" + (Body(body) + "\"")
    case LineNote(text) => "//" + text
    case BlockNote(text) => "/*" + (text + "*/")
  }

  function TailSpelled(tail: Tail): string {
    match tail
    case Complete => ""
    case OpenQuote(body, dangling) => "\"" + (Body(body) + if dangling then "\\" else "")
    case OpenBlock(text) => "/*" + text
  }

  function Render(parts: seq<Part>, tail: Tail): string {
    if parts == [] then TailSpelled(tail) else Spelled(parts[0]) + Render(parts[1..], tail)
  }

  /** Without the two characters that close a block comment. */
  predicate NoClose(text: string) {
    forall i | 0 <= i < |text| - 1 :: !(text[i] == '*' && text[i + 1] == '/')
  }

  /** The part is what it says it is, given the text that follows it. */
  predicate PartOk(p: Part, rest: string) {
    match p
    case Plain(c) => c != '"' && (c == '/' ==> rest == [] || (rest[0] != '/' && rest[0] != '*'))
    case Quoted(body) => BodyOk(body)
    case LineNote(text) => '\n' !in text && (rest == [] || rest[0] == '\n')
    case BlockNote(text) => NoClose(text)
  }

  predicate TailOk(tail: Tail) {
    match tail
    case Complete => true
    case OpenQuote(body, _) => BodyOk(body)
    case OpenBlock(text) => NoClose(text)
  }

  predicate Valid(parts: seq<Part>, tail: Tail) {
    if parts == [] then TailOk(tail)
    else PartOk(parts[0], Render(parts[1..], tail)) && Valid(parts[1..], tail)
  }

  predicate IsNote(p: Part) {
    p.LineNote? || p.BlockNote?
  }

  /** The same text without its comments. */
  function Kept(parts: seq<Part>): seq<Part> {
    if parts == [] then [] else (if IsNote(parts[0]) then [] else [parts[0]]) + Kept(parts[1..])
  }

  function KeptTail(tail: Tail): Tail {
    if tail.OpenBlock? then Complete else tail
  }

  predicate NoComment(parts: seq<Part>, tail: Tail) {
    (forall p | p in parts :: !IsNote(p)) && !tail.OpenBlock?
  }

  /** The string literals in order, quotes and escapes included, the one that breaks off last. */
  function Literals(parts: seq<Part>, tail: Tail): seq<string> {
    if parts == [] then (if tail.OpenQuote? then [TailSpelled(tail)] else [])
    else (if parts[0].Quoted? then [Spelled(parts[0])] else []) + Literals(parts[1..], tail)
  }

  // --------------------------------------------------------- one part at a time

  lemma StripTurn(m: Mode, s: string, t: Turn, rest: string)
    requires s != [] && Move(m, s) == t && s[t.width..] == rest
    ensures StripFrom(m, s) == t.copied + StripFrom(t.mode, rest)
  {
  }

  lemma UnitTurn(u: Unit, tail: string)
    requires UnitOk(u)
    ensures var c := if u.Pair? then ['\\', u.c] else [u.c];
            StripFrom(InString, c + tail) == c + StripFrom(InString, tail)
  {
    hide StripFrom;
    if u.Pair? {
      var s := ['\\', u.c] + tail;
      assert s[2..] == tail;
      StripTurn(InString, s, Turn(['\\', u.c], 2, InString), tail);
    } else {
      var s := [u.c] + tail;
      assert s[1..] == tail;
      StripTurn(InString, s, Turn([u.c], 1, InString), tail);
    }
  }

  lemma {:induction false} StripBody(body: seq<Unit>, rest: string)
    requires BodyOk(body)
    ensures StripFrom(InString, Body(body) + rest) == Body(body) + StripFrom(InString, rest)
    decreases |body|
  {
    hide StripFrom;
    if body == [] {
      assert [] + rest == rest;
    } else {
      var u := body[0];
      assert u in body;
      var c := if u.Pair? then ['\\', u.c] else [u.c];
      StripBody(body[1..], rest);
      UnitTurn(u, Body(body[1..]) + rest);
      assert Body(body) + rest == c + (Body(body[1..]) + rest);
    }
  }

  lemma {:induction false} StripLine(text: string, rest: string)
    requires '\n' !in text && (rest == [] || rest[0] == '\n')
    ensures StripFrom(Line, text + rest) == StripFrom(Code, rest)
    decreases |text|
  {
    var s := text + rest;
    if text == [] {
      assert s == rest;
    } else {
      StripLine(text[1..], rest);
      assert s[0] in text && s[1..] == text[1..] + rest;
    }
  }

  lemma {:induction false} StripBlock(text: string, rest: string)
    requires NoClose(text)
    ensures StripFrom(Block, text + ("*/" + rest)) == StripFrom(Code, rest)
    ensures StripFrom(Block, text) == []
    decreases |text|
  {
    var s := text + ("*/" + rest);
    if text == [] {
      assert s == "*/" + rest && s[2..] == rest;
    } else {
      StripBlock(text[1..], rest);
      assert s[1..] == text[1..] + ("*/" + rest);
      assert At(s, 1) == Some('/') ==> |text| > 1 && text[1] == '/';
      assert Move(Block, s) == Turn([], 1, Block) && Move(Block, text) == Turn([], 1, Block);
    }
  }

  lemma StripPlain(c: char, rest: string)
    requires PartOk(Plain(c), rest)
    ensures StripFrom(Code, [c] + rest) == [c] + StripFrom(Code, rest)
  {
    hide StripFrom;
    var s := [c] + rest;
    assert s[1..] == rest;
    StripTurn(Code, s, Turn([c], 1, Code), rest);
  }

  lemma StripQuoted(body: seq<Unit>, rest: string)
    requires BodyOk(body)
    ensures StripFrom(Code, Spelled(Quoted(body)) + rest) == Spelled(Quoted(body)) + StripFrom(Code, rest)
  {
    hide StripFrom, Body;
    var s := Spelled(Quoted(body)) + rest;
    assert s == "\"" + (Body(body) + ("\"" + rest)) && s[1..] == Body(body) + ("\"" + rest);
    StripTurn(Code, s, Turn("\"", 1, InString), Body(body) + ("\"" + rest));
    StripBody(body, "\"" + rest);
    assert ("\"" + rest)[1..] == rest;
    StripTurn(InString, "\"" + rest, Turn("\"", 1, Code), rest);
  }

  lemma StripLineNote(text: string, rest: string)
    requires PartOk(LineNote(text), rest)
    ensures StripFrom(Code, Spelled(LineNote(text)) + rest) == StripFrom(Code, rest)
  {
    hide StripFrom;
    var s := Spelled(LineNote(text)) + rest;
    assert s[2..] == text + rest;
    StripTurn(Code, s, Turn([], 2, Line), text + rest);
    StripLine(text, rest);
  }

  lemma StripBlockNote(text: string, rest: string)
    requires PartOk(BlockNote(text), rest)
    ensures StripFrom(Code, Spelled(BlockNote(text)) + rest) == StripFrom(Code, rest)
  {
    hide StripFrom, NoClose;
    var s := Spelled(BlockNote(text)) + rest;
    assert s[2..] == text + ("*/" + rest);
    StripTurn(Code, s, Turn([], 2, Block), text + ("*/" + rest));
    StripBlock(text, rest);
  }

  /** One part: copied or dropped whole. */
  lemma StripPart(p: Part, rest: string)
    requires PartOk(p, rest)
    ensures StripFrom(Code, Spelled(p) + rest) == (if IsNote(p) then [] else Spelled(p)) + StripFrom(Code, rest)
  {
    hide StripFrom;
    match p {
      case Plain(c) => StripPlain(c, rest);
      case Quoted(body) => StripQuoted(body, rest);
      case LineNote(text) => StripLineNote(text, rest);
      case BlockNote(text) => StripBlockNote(text, rest);
    }
  }

  lemma StripTail(tail: Tail)
    requires TailOk(tail)
    ensures StripFrom(Code, TailSpelled(tail)) == TailSpelled(KeptTail(tail))
  {
    var s := TailSpelled(tail);
    match tail {
      case Complete =>
      case OpenQuote(body, dangling) =>
        var end := if dangling then "\\" else "";
        assert s[1..] == Body(body) + end;
        StripBody(body, end);
        assert StripFrom(InString, end) == end by {
          if dangling {
            assert end[1..] == [];
          }
        }
      case OpenBlock(text) =>
        assert s[2..] == text;
        StripBlock(text, []);
    }
  }

  /** Stripping a text drops its comments and copies everything else. */
  lemma {:induction false} StripDropsNotes(parts: seq<Part>, tail: Tail)
    requires Valid(parts, tail)
    ensures Strip(Render(parts, tail)) == Render(Kept(parts), KeptTail(tail))
    decreases |parts|
  {
    hide StripFrom, Spelled, TailSpelled, PartOk;
    if parts == [] {
      StripTail(tail);
    } else {
      StripDropsNotes(parts[1..], tail);
      StripPart(parts[0], Render(parts[1..], tail));
      KeepsFirst(parts, tail);
    }
  }

  lemma KeepsFirst(parts: seq<Part>, tail: Tail)
    requires parts != []
    ensures Render(Kept(parts), KeptTail(tail))
         == (if IsNote(parts[0]) then [] else Spelled(parts[0])) + Render(Kept(parts[1..]), KeptTail(tail))
  {
    if IsNote(parts[0]) {
      assert Kept(parts) == Kept(parts[1..]);
    } else {
      assert Kept(parts)[0] == parts[0] && Kept(parts)[1..] == Kept(parts[1..]);
    }
  }

  // ------------------------------------------------- every text has one reading

  lemma ReadsUnit(s: string, u: Unit, width: nat, more: seq<Unit>, dangling: bool, rest: Option<string>)
    requires s != [] && s[0] != '"' && (s[0] == '\\' ==> |s| > 1)
    requires u == (if s[0] == '\\' then Pair(s[1]) else Lone(s[0])) && width == (if s[0] == '\\' then 2 else 1)
    requires BodyOk(more)
    requires match rest
             case Some(after) => !dangling && s[width..] == Body(more) + ("\"" + after)
             case None => s[width..] == Body(more) + if dangling then "\\" else ""
    ensures BodyOk([u] + more)
    ensures match rest
            case Some(after) => s == Body([u] + more) + ("\"" + after)
            case None => s == Body([u] + more) + if dangling then "\\" else ""
  {
    assert ([u] + more)[1..] == more && s == s[..width] + s[width..];
    assert Body([u] + more) == s[..width] + Body(more);
  }

  /** A literal from behind its opening quote: its inside, whether it breaks off behind a backslash, and what follows
      its closing quote, if there is one. */
  function ReadBody(s: string): (r: (seq<Unit>, bool, Option<string>))
    ensures BodyOk(r.0)
    ensures match r.2
            case Some(after) => !r.1 && s == Body(r.0) + ("\"" + after)
            case None => s == Body(r.0) + if r.1 then "\\" else ""
    decreases |s|
  {
    if s == [] then ([], false, None)
    else if s[0] == '"' then ([], false, Some(s[1..]))
    else if s[0] == '\\' && |s| == 1 then ([], true, None)
    else
      var u := if s[0] == '\\' then Pair(s[1]) else Lone(s[0]);
      var width := if s[0] == '\\' then 2 else 1;
      var (more, dangling, rest) := ReadBody(s[width..]);
      ReadsUnit(s, u, width, more, dangling, rest);
      ([u] + more, dangling, rest)
  }

  function ReadLine(s: string): (r: (string, string))
    ensures s == r.0 + r.1 && '\n' !in r.0 && (r.1 == [] || r.1[0] == '\n')
    decreases |s|
  {
    if s == [] || s[0] == '\n' then ([], s)
    else
      var (text, rest) := ReadLine(s[1..]);
      ([s[0]] + text, rest)
  }

  function ReadBlock(s: string): (r: (string, Option<string>))
    ensures NoClose(r.0)
    ensures match r.1 case Some(after) => s == r.0 + ("*/" + after) case None => s == r.0
    decreases |s|
  {
    if s == [] then ([], None)
    else if s[0] == '*' && |s| > 1 && s[1] == '/' then
      assert s == "*/" + s[2..];
      ([], Some(s[2..]))
    else
      var (more, rest) := ReadBlock(s[1..]);
      assert ([s[0]] + more)[1..] == more;
      ([s[0]] + more, rest)
  }

  datatype First = First(p: Part, rest: string) | Last(tail: Tail)

  /** One part off the front of a text, or its tail. */
  function ReadPart(s: string): First
    requires s != []
  {
    if s[0] == '"' then
      var (body, dangling, after) := ReadBody(s[1..]);
      if after.Some? then First(Quoted(body), after.value) else Last(OpenQuote(body, dangling))
    else if s[0] == '/' && |s| > 1 && s[1] == '/' then
      var (text, rest) := ReadLine(s[2..]);
      First(LineNote(text), rest)
    else if s[0] == '/' && |s| > 1 && s[1] == '*' then
      var (text, after) := ReadBlock(s[2..]);
      if after.Some? then First(BlockNote(text), after.value) else Last(OpenBlock(text))
    else First(Plain(s[0]), s[1..])
  }

  lemma ReadsPart(s: string)
    requires s != []
    ensures match ReadPart(s)
            case First(p, rest) => s == Spelled(p) + rest && PartOk(p, rest) && |rest| < |s|
            case Last(tail) => s == TailSpelled(tail) && TailOk(tail) && tail != Complete
  {
    hide Body, ReadBody, ReadLine, ReadBlock, NoClose, BodyOk;
    if s[0] == '"' {
      var (body, dangling, after) := ReadBody(s[1..]);
      assert s == "\"" + s[1..];
      assert after.Some? ==> s == Spelled(Quoted(body)) + after.value;
    } else if s[0] == '/' && |s| > 1 && s[1] == '/' {
      assert s == "//" + s[2..];
    } else if s[0] == '/' && |s| > 1 && s[1] == '*' {
      var (text, after) := ReadBlock(s[2..]);
      assert s == "/*" + s[2..];
      assert after.Some? ==> s == Spelled(BlockNote(text)) + after.value;
    } else {
      assert s == [s[0]] + s[1..];
    }
  }

  function Reading(s: string): (seq<Part>, Tail)
    decreases |s|
  {
    if s == [] then ([], Complete)
    else
      ReadsPart(s);
      match ReadPart(s)
      case Last(tail) => ([], tail)
      case First(p, rest) =>
        var (parts, tail) := Reading(rest);
        ([p] + parts, tail)
  }

  /** Every text can be read by the grammar ... */
  lemma {:induction false} ReadingIsValid(s: string)
    ensures Valid(Reading(s).0, Reading(s).1) && Render(Reading(s).0, Reading(s).1) == s
    decreases |s|
  {
    hide PartOk, Spelled, ReadPart;
    if s != [] {
      ReadsPart(s);
      match ReadPart(s) {
        case Last(tail) =>
        case First(p, rest) =>
          ReadingIsValid(rest);
          assert ([p] + Reading(rest).0)[1..] == Reading(rest).0;
      }
    }
  }

  lemma {:induction false} ReadBodyBack(body: seq<Unit>, dangling: bool, rest: string)
    requires BodyOk(body)
    ensures ReadBody(Body(body) + ("\"" + rest)) == (body, false, Some(rest))
    ensures ReadBody(Body(body) + if dangling then "\\" else "") == (body, dangling, None)
    decreases |body|
  {
    if body == [] {
      assert [] + ("\"" + rest) == "\"" + rest && ("\"" + rest)[1..] == rest;
    } else {
      var u := body[0];
      assert u in body && body == [u] + body[1..];
      ReadBodyBack(body[1..], dangling, rest);
      ReadUnitBack(u, Body(body[1..]) + ("\"" + rest));
      ReadUnitBack(u, Body(body[1..]) + if dangling then "\\" else "");
      var c := if u.Pair? then ['\\', u.c] else [u.c];
      assert Body(body) + ("\"" + rest) == c + (Body(body[1..]) + ("\"" + rest));
      assert Body(body) + (if dangling then "\\" else "") == c + (Body(body[1..]) + if dangling then "\\" else "");
    }
  }

  lemma ReadUnitBack(u: Unit, tail: string)
    requires UnitOk(u)
    ensures var c := if u.Pair? then ['\\', u.c] else [u.c];
            ReadBody(c + tail) == ([u] + ReadBody(tail).0, ReadBody(tail).1, ReadBody(tail).2)
  {
    if u.Pair? {
      assert (['\\', u.c] + tail)[2..] == tail;
    } else {
      assert ([u.c] + tail)[1..] == tail;
    }
  }

  lemma {:induction false} ReadLineBack(text: string, rest: string)
    requires '\n' !in text && (rest == [] || rest[0] == '\n')
    ensures ReadLine(text + rest) == (text, rest)
    decreases |text|
  {
    if text == [] {
      assert [] + rest == rest;
    } else {
      ReadLineBack(text[1..], rest);
      assert text[0] in text && (text + rest)[1..] == text[1..] + rest && text == [text[0]] + text[1..];
    }
  }

  lemma ReadBlockTurn(s: string)
    requires |s| > 0 && !(s[0] == '*' && |s| > 1 && s[1] == '/')
    ensures ReadBlock(s) == ([s[0]] + ReadBlock(s[1..]).0, ReadBlock(s[1..]).1)
  {
  }

  lemma NoCloseTail(text: string)
    requires NoClose(text) && text != []
    ensures NoClose(text[1..]) && text == [text[0]] + text[1..]
    ensures |text| > 1 ==> !(text[0] == '*' && text[1] == '/')
  {
  }

  lemma {:induction false} ReadBlockBack(text: string, rest: string)
    requires NoClose(text)
    ensures ReadBlock(text + ("*/" + rest)) == (text, Some(rest))
    decreases |text|
  {
    var s := text + ("*/" + rest);
    if text == [] {
      assert s == "*/" + rest && s[2..] == rest;
    } else {
      hide ReadBlock;
      NoCloseTail(text);
      hide NoClose;
      assert s[1..] == text[1..] + ("*/" + rest);
      ReadBlockBack(text[1..], rest);
      ReadBlockTurn(s);
    }
  }

  lemma {:induction false} ReadOpenBlockBack(text: string)
    requires NoClose(text)
    ensures ReadBlock(text) == (text, None)
    decreases |text|
  {
    if text != [] {
      hide ReadBlock;
      NoCloseTail(text);
      hide NoClose;
      ReadOpenBlockBack(text[1..]);
      ReadBlockTurn(text);
    }
  }

  lemma ReadPartBack(p: Part, rest: string)
    requires PartOk(p, rest)
    ensures ReadPart(Spelled(p) + rest) == First(p, rest)
  {
    hide ReadBody, ReadLine, ReadBlock, Body, BodyOk, NoClose;
    var s := Spelled(p) + rest;
    match p {
      case Plain(c) =>
        assert s[1..] == rest;
      case Quoted(body) =>
        assert s[1..] == Body(body) + ("\"" + rest);
        ReadBodyBack(body, false, rest);
      case LineNote(text) =>
        assert s[2..] == text + rest;
        ReadLineBack(text, rest);
      case BlockNote(text) =>
        assert s[2..] == text + ("*/" + rest);
        ReadBlockBack(text, rest);
    }
  }

  lemma ReadTailBack(tail: Tail)
    requires TailOk(tail) && tail != Complete
    ensures TailSpelled(tail) != [] && ReadPart(TailSpelled(tail)) == Last(tail)
  {
    hide ReadBody, ReadLine, ReadBlock, Body, BodyOk, NoClose;
    var s := TailSpelled(tail);
    match tail {
      case OpenQuote(body, dangling) =>
        assert s[1..] == Body(body) + if dangling then "\\" else "";
        ReadBodyBack(body, dangling, []);
      case OpenBlock(text) =>
        assert s[2..] == text;
        ReadOpenBlockBack(text);
    }
  }

  lemma SpelledSome(p: Part, rest: string)
    ensures Spelled(p) + rest != []
  {
  }

  /** ... and in one way only. */
  lemma {:induction false} ReadingIsUnique(parts: seq<Part>, tail: Tail)
    requires Valid(parts, tail)
    ensures Reading(Render(parts, tail)) == (parts, tail)
    decreases |parts|
  {
    hide Spelled, PartOk, ReadPart, TailSpelled;
    if parts == [] {
      if tail == Complete {
        assert TailSpelled(Complete) == "" by { NothingSpelled(); }
      } else {
        ReadTailBack(tail);
      }
    } else {
      var rest := Render(parts[1..], tail);
      ReadPartBack(parts[0], rest);
      SpelledSome(parts[0], rest);
      ReadingIsUnique(parts[1..], tail);
      assert parts == [parts[0]] + parts[1..];
    }
  }

  lemma NothingSpelled()
    ensures TailSpelled(Complete) == ""
  {
  }

  // ---------------------------------------------------------------- main results

  /** The first character of what is kept is that of the text, unless the text begins with a comment. */
  lemma KeptBegins(parts: seq<Part>, tail: Tail)
    requires Render(parts, tail) == [] || Render(parts, tail)[0] != '/'
    ensures var o := Render(Kept(parts), KeptTail(tail));
            o == [] || (Render(parts, tail) != [] && o[0] == Render(parts, tail)[0])
  {
    hide Body;
    if parts != [] {
      KeepsFirst(parts, tail);
    }
  }

  /** Leaving the comments out joins nothing to a comment: what is kept is again a text of the grammar, part by
      part the same, with the same string literals and no comment. */
  lemma {:induction false} KeptIsValid(parts: seq<Part>, tail: Tail)
    requires Valid(parts, tail)
    ensures Valid(Kept(parts), KeptTail(tail)) && NoComment(Kept(parts), KeptTail(tail))
    ensures Literals(Kept(parts), KeptTail(tail)) == Literals(parts, tail)
    decreases |parts|
  {
    hide Spelled, TailSpelled, NoClose, BodyOk;
    if parts != [] {
      KeptIsValid(parts[1..], tail);
      if IsNote(parts[0]) {
        assert Kept(parts) == Kept(parts[1..]);
      } else {
        assert Kept(parts)[0] == parts[0] && Kept(parts)[1..] == Kept(parts[1..]);
        if parts[0].Plain? && parts[0].c == '/' {
          KeptBegins(parts[1..], tail);
        }
      }
    }
  }

  lemma {:induction false} NoCommentIsKept(parts: seq<Part>, tail: Tail)
    requires NoComment(parts, tail)
    ensures Kept(parts) == parts && KeptTail(tail) == tail
    decreases |parts|
  {
    if parts != [] {
      assert parts[0] in parts && forall p | p in parts[1..] :: p in parts;
      NoCommentIsKept(parts[1..], tail);
    }
  }

  /**
   * Stripping removes exactly the comments. Read a text by the grammar, in the one way there is: the result is the
   * same text without its comments; it is read as those parts and so has no comment; the text is left alone exactly
   * when it has none; and stripping twice is stripping once.
   */
  lemma StripRemovesExactlyComments(parts: seq<Part>, tail: Tail)
    requires Valid(parts, tail)
    ensures Strip(Render(parts, tail)) == Render(Kept(parts), KeptTail(tail))
    ensures Reading(Strip(Render(parts, tail))) == (Kept(parts), KeptTail(tail))
    ensures NoComment(Kept(parts), KeptTail(tail))
    ensures Strip(Render(parts, tail)) == Render(parts, tail) <==> NoComment(parts, tail)
    ensures Strip(Strip(Render(parts, tail))) == Strip(Render(parts, tail))
  {
    hide StripFrom, Render, Valid, Reading;
    StripDropsNotes(parts, tail);
    KeptIsValid(parts, tail);
    ReadingIsUnique(Kept(parts), KeptTail(tail));
    ReadingIsUnique(parts, tail);
    StripDropsNotes(Kept(parts), KeptTail(tail));
    NoCommentIsKept(Kept(parts), KeptTail(tail));
    if NoComment(parts, tail) {
      NoCommentIsKept(parts, tail);
    }
  }

  /** Every string literal of a text is in the output, unchanged and in order, escapes and comment look-alikes
      included, and no other one is. */
  lemma LiteralsAreKept(s: string)
    ensures Literals(Reading(Strip(s)).0, Reading(Strip(s)).1) == Literals(Reading(s).0, Reading(s).1)
  {
    hide StripFrom, Render, Valid, Literals, Reading, Strip;
    ReadingIsValid(s);
    StripRemovesExactlyComments(Reading(s).0, Reading(s).1);
    KeptIsValid(Reading(s).0, Reading(s).1);
  }
}
