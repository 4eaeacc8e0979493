/**
 * What the scanner of src/core/parse.ts returns for any text at all: balanced pieces are given by a grammar, and
 * the result by the pieces that parse and lie in no other.
 */
module EmbeddedJsonComplete {
  import opened Options
  import opened JsonValues
  import opened EmbeddedJson
  import opened StringLiterals

  // ------------------------------------------------------------------ grammar

  /** A character outside string literals, or a whole literal. */
  datatype Lex = Plain(c: char) | Literal(body: seq<Unit>)

  predicate LexOk(l: Lex) {
    match l
    case Plain(c) => c != '"'
    case Literal(body) => BodyOk(body)
  }

  function Render(l: Lex): string {
    match l
    case Plain(c) => [c]
    case Literal(body) => "\"" + (Body(body) + "\"")
  }

  function RenderAll(ls: seq<Lex>): string {
    if ls == [] then [] else Render(ls[0]) + RenderAll(ls[1..])
  }

  /** How much deeper in brackets of this kind the text ends than it began. */
  function Rise(b: Bracket, ls: seq<Lex>): int {
    if ls == [] then 0
    else
      (if ls[0] == Plain(Opener(b)) then 1 else if ls[0] == Plain(Closer(b)) then -1 else 0) + Rise(b, ls[1..])
  }

  /** The depth, counted from `depth`, stays above zero until the very end, and ends at zero. */
  predicate ClosesAtEnd(b: Bracket, depth: int, ls: seq<Lex>) {
    && depth + Rise(b, ls) == 0
    && forall k | 0 <= k < |ls| :: depth + Rise(b, ls[..k]) > 0
  }

  /** From an opening bracket to the one that closes it, outside string literals. */
  ghost predicate Balanced(text: string, start: nat, end: nat) {
    && start <= end < |text| && Opens(text[start])
    && exists ls: seq<Lex> ::
         && (forall l | l in ls :: LexOk(l))
         && text[start + 1..end + 1] == RenderAll(ls)
         && ClosesAtEnd(if text[start] == '{' then Curly else Square, 1, ls)
  }

  // -------------------------------------------- the inner loop finds just these

  lemma {:induction false} OverBody(b: Bracket, d: int, body: seq<Unit>, rest: string)
    requires BodyOk(body)
    ensures Over(b, Going(d, true, false), Body(body) + ("\"" + rest)) == Over(b, Going(d, false, false), rest)
    decreases |body|
  {
    var s := Body(body) + ("\"" + rest);
    if body == [] {
      assert s == "\"" + rest && s[1..] == rest;
    } else {
      var u := body[0];
      assert u in body;
      var tail := Body(body[1..]) + ("\"" + rest);
      OverBody(b, d, body[1..], rest);
      if u.Pair? {
        assert s == ['\\', u.c] + tail && s[1..] == [u.c] + tail && s[1..][1..] == tail;
      } else {
        assert s == [u.c] + tail && s[1..] == tail;
      }
    }
  }

  lemma LiteralOpens(body: seq<Unit>, rest: string)
    ensures var s := Render(Literal(body)) + rest;
            s != [] && s[0] == '"' && s[1..] == Body(body) + ("\"" + rest)
  {
    hide Body;
    assert ("\"" + (Body(body) + "\"")) + rest == "\"" + (Body(body) + ("\"" + rest));
  }

  lemma PlainOpens(c: char, rest: string)
    ensures var s := Render(Plain(c)) + rest; s != [] && s[0] == c && s[1..] == rest
  {
  }

  lemma OverLex(b: Bracket, d: int, l: Lex, rest: string)
    requires LexOk(l) && d + Rise(b, [l]) != 0
    ensures Over(b, Going(d, false, false), Render(l) + rest) == Over(b, Going(d + Rise(b, [l]), false, false), rest)
  {
    hide Over, Rise, Render, Body;
    match l {
      case Plain(c) =>
        RiseOne(b, c);
        PlainOpens(c, rest);
        StepsPlain(b, d, Render(l) + rest);
      case Literal(body) =>
        LiteralOpens(body, rest);
        StepsQuote(b, d, Render(l) + rest);
        OverBody(b, d, body, rest);
        LiteralIsLevel(b);
    }
  }

  lemma RiseHead(b: Bracket, ls: seq<Lex>)
    requires ls != []
    ensures Rise(b, ls) == Rise(b, [ls[0]]) + Rise(b, ls[1..])
    ensures forall k | 1 <= k <= |ls| :: Rise(b, ls[..k]) == Rise(b, [ls[0]]) + Rise(b, ls[1..][..k - 1])
  {
    forall k | 1 <= k <= |ls| ensures Rise(b, ls[..k]) == Rise(b, [ls[0]]) + Rise(b, ls[1..][..k - 1]) {
      assert ls[..k][1..] == ls[1..][..k - 1];
    }
  }

  lemma {:induction false} OverClosing(b: Bracket, d: int, ls: seq<Lex>, rest: string)
    requires (forall l | l in ls :: LexOk(l)) && ls != [] && ClosesAtEnd(b, d, ls)
    ensures Over(b, Going(d, false, false), RenderAll(ls) + rest) == Closed(|rest|)
    decreases |ls|
  {
    RiseHead(b, ls);
    var l := ls[0];
    assert l in ls && d + Rise(b, ls[..0]) > 0;
    assert RenderAll(ls) + rest == Render(l) + (RenderAll(ls[1..]) + rest);
    if |ls| == 1 {
      assert ls == [l] && Rise(b, [l]) == -d;
      assert l == Plain(Closer(b)) && d == 1;
      var s := RenderAll(ls) + rest;
      assert s == [Closer(b)] + rest && s[1..] == rest;
      assert Over(b, Closed(0), rest) == Closed(|rest|);
    } else {
      assert d + Rise(b, ls[..1]) > 0;
      OverLex(b, d, l, RenderAll(ls[1..]) + rest);
      forall k | 0 <= k < |ls[1..]| ensures d + Rise(b, [l]) + Rise(b, ls[1..][..k]) > 0 {
        assert d + Rise(b, ls[..k + 1]) > 0;
      }
      OverClosing(b, d + Rise(b, [l]), ls[1..], rest);
    }
  }

  lemma {:induction false} ReadBody(b: Bracket, d: int, s: string) returns (body: seq<Unit>, rest: string)
    requires Over(b, Going(d, true, false), s).Closed?
    ensures BodyOk(body) && s == Body(body) + ("\"" + rest)
    ensures Over(b, Going(d, true, false), s) == Over(b, Going(d, false, false), rest)
    decreases |s|
  {
    if s[0] == '"' {
      body, rest := [], s[1..];
    } else if s[0] == '\\' {
      assert s[1..] != [] && Over(b, Going(d, true, true), s[1..]).Closed?;
      var more;
      more, rest := ReadBody(b, d, s[2..]);
      assert s[1..][1..] == s[2..];
      body := [Pair(s[1])] + more;
      assert s == ['\\', s[1]] + s[2..];
    } else {
      var more;
      more, rest := ReadBody(b, d, s[1..]);
      body := [Lone(s[0])] + more;
      assert s == [s[0]] + s[1..];
    }
  }

  lemma {:induction false} ReadClosing(b: Bracket, d: int, s: string) returns (ls: seq<Lex>, rest: string)
    requires d >= 1 && Over(b, Going(d, false, false), s).Closed?
    ensures (forall l | l in ls :: LexOk(l)) && s == RenderAll(ls) + rest && ls != []
    ensures ClosesAtEnd(b, d, ls)
    ensures Over(b, Going(d, false, false), s) == Closed(|rest|)
    decreases |s|
  {
    hide Rise, ClosesAtEnd, Over, RenderAll, Render;
    NotYetClosed(b, d, s);
    if s[0] == '"' {
      LiteralIsLevel(b);
      StepsQuote(b, d, s);
      var body, after := ReadBody(b, d, s[1..]);
      var more;
      more, rest := ReadClosing(b, d, after);
      ls := [Literal(body)] + more;
      RendersLiteral(s, body, after);
      RendersFirst(Literal(body), more, after, rest);
      RiseStays(b, d, Literal(body), more);
    } else if s[0] == Closer(b) && d == 1 {
      ClosesNow(b);
      ls, rest := [Plain(s[0])], s[1..];
      StepsClose(b, s);
    } else {
      var l := Plain(s[0]);
      RiseOne(b, s[0]);
      StepsPlain(b, d, s);
      var more;
      more, rest := ReadClosing(b, d + Rise(b, [l]), s[1..]);
      ls := [l] + more;
      RendersPlain(s);
      RendersFirst(l, more, s[1..], rest);
      RiseStays(b, d, l, more);
    }
  }

  lemma NotYetClosed(b: Bracket, d: int, s: string)
    requires Over(b, Going(d, false, false), s).Closed?
    ensures s != []
  {
  }

  lemma StepsQuote(b: Bracket, d: int, s: string)
    requires s != [] && s[0] == '"'
    ensures Over(b, Going(d, false, false), s) == Over(b, Going(d, true, false), s[1..])
  {
  }

  lemma StepsClose(b: Bracket, s: string)
    requires s != [] && s[0] == Closer(b)
    ensures Over(b, Going(1, false, false), s) == Closed(|s| - 1)
    ensures s == RenderAll([Plain(s[0])]) + s[1..]
  {
    assert Over(b, Closed(0), s[1..]) == Closed(|s| - 1);
    assert [Plain(s[0])][1..] == [];
    assert RenderAll([Plain(s[0])]) == [s[0]] + [];
  }

  lemma RendersLiteral(s: string, body: seq<Unit>, after: string)
    requires s != [] && s[0] == '"' && s[1..] == Body(body) + ("\"" + after)
    ensures s == Render(Literal(body)) + after
  {
  }

  lemma RendersPlain(s: string)
    requires s != []
    ensures s == Render(Plain(s[0])) + s[1..]
  {
  }

  lemma RendersFirst(l: Lex, more: seq<Lex>, after: string, rest: string)
    requires after == RenderAll(more) + rest
    ensures Render(l) + after == RenderAll([l] + more) + rest
  {
    assert ([l] + more)[1..] == more;
  }

  lemma LiteralIsLevel(b: Bracket)
    ensures forall body :: Rise(b, [Literal(body)]) == 0
  {
    forall body ensures Rise(b, [Literal(body)]) == 0 {
      assert [Literal(body)][1..] == [];
    }
  }

  lemma ClosesNow(b: Bracket)
    ensures ClosesAtEnd(b, 1, [Plain(Closer(b))])
  {
    RiseOne(b, Closer(b));
    assert [Plain(Closer(b))][..0] == [];
  }

  lemma RiseOne(b: Bracket, c: char)
    ensures Rise(b, [Plain(c)]) == if c == Opener(b) then 1 else if c == Closer(b) then -1 else 0
  {
    assert [Plain(c)][1..] == [];
  }

  lemma StepsPlain(b: Bracket, d: int, s: string)
    requires s != [] && s[0] != '"' && (s[0] == Closer(b) ==> d != 1)
    ensures Over(b, Going(d, false, false), s) == Over(b, Going(d + Rise(b, [Plain(s[0])]), false, false), s[1..])
  {
    RiseOne(b, s[0]);
  }

  lemma RiseStays(b: Bracket, d: int, l: Lex, more: seq<Lex>)
    requires d > 0 && ClosesAtEnd(b, d + Rise(b, [l]), more)
    ensures ClosesAtEnd(b, d, [l] + more)
  {
    var ls := [l] + more;
    RiseHead(b, ls);
    assert ls[1..] == more;
    forall k | 0 <= k < |ls| ensures d + Rise(b, ls[..k]) > 0 {
      if k > 0 {
        assert d + Rise(b, [l]) + Rise(b, more[..k - 1]) > 0;
      }
    }
  }

  function Kind(text: string, start: nat): Bracket
    requires start < |text|
  {
    if text[start] == '{' then Curly else Square
  }

  lemma StepsOpen(text: string, start: nat)
    requires start < |text| && Opens(text[start])
    ensures Over(Kind(text, start), Going(0, false, false), text[start..])
         == Over(Kind(text, start), Going(1, false, false), text[start + 1..])
  {
    assert text[start..][1..] == text[start + 1..];
  }

  lemma Splits(text: string, a: nat, b: nat)
    requires a <= b <= |text|
    ensures text[a..] == text[a..b] + text[b..]
  {
  }

  lemma FoundIsBalanced(text: string, start: nat, end: nat)
    requires start < |text| && Opens(text[start]) && FindEnd(text, start) == Some(end)
    ensures Balanced(text, start, end)
  {
    hide RenderAll, ClosesAtEnd, LexOk, Over;
    StepsOpen(text, start);
    var ls, rest := ReadClosing(Kind(text, start), 1, text[start + 1..]);
    assert text[start + 1..end + 1] == text[start + 1..][..end - start] == RenderAll(ls);
  }

  lemma BalancedIsFound(text: string, start: nat, end: nat)
    requires Balanced(text, start, end)
    ensures FindEnd(text, start) == Some(end)
  {
    hide Over, RenderAll, LexOk, ClosesAtEnd;
    StepsOpen(text, start);
    var ls: seq<Lex> :| (forall l | l in ls :: LexOk(l)) && text[start + 1..end + 1] == RenderAll(ls)
                        && ClosesAtEnd(Kind(text, start), 1, ls);
    NothingIsOpen(Kind(text, start));
    OverClosing(Kind(text, start), 1, ls, text[end + 1..]);
    Splits(text, start + 1, end + 1);
  }

  lemma NothingIsOpen(b: Bracket)
    ensures !ClosesAtEnd(b, 1, [])
  {
  }

  /** The inner loop stops at an index exactly if the piece up to it is balanced. */
  lemma FindEndIsBalanced(text: string, start: nat, end: nat)
    requires start < |text| && Opens(text[start])
    ensures FindEnd(text, start) == Some(end) <==> Balanced(text, start, end)
  {
    hide Balanced, FindEnd;
    if FindEnd(text, start) == Some(end) {
      FoundIsBalanced(text, start, end);
    }
    if Balanced(text, start, end) {
      BalancedIsFound(text, start, end);
    }
  }

  // ---------------------------------------------------- pieces that lie in no other

  /** A balanced piece that parses. */
  ghost predicate Candidate(parse: string -> Option<Json>, text: string, start: nat, end: nat) {
    Balanced(text, start, end) && parse(text[start..end + 1]).Some?
  }

  datatype Place = Place(start: nat, end: nat)

  /** From left to right, from position `start` on: each is a candidate behind the one before, and there is no
      other candidate but inside them. */
  ghost predicate Outermost(parse: string -> Option<Json>, text: string, start: nat, places: seq<Place>) {
    && (forall p | p in places :: start <= p.start && Candidate(parse, text, p.start, p.end))
    && Ordered(places)
    && (forall q, e | start <= q && Candidate(parse, text, q, e) :: Covers(places, q))
  }

  predicate Ordered(places: seq<Place>) {
    && (forall k | 0 <= k < |places| :: places[k].start <= places[k].end)
    && (forall k, l | 0 <= k < l < |places| :: places[k].end < places[l].start)
  }

  /** The position lies in one of the pieces. */
  predicate Covers(places: seq<Place>, q: nat) {
    exists k :: 0 <= k < |places| && places[k].start <= q <= places[k].end
  }

  function Parsed(parse: string -> Option<Json>, text: string, p: Place): Option<Json> {
    if p.start <= p.end < |text| then parse(text[p.start..p.end + 1]) else None
  }

  /** In array mode the first array; otherwise the first value that is none, and failing that the first array. */
  ghost predicate Chosen(
    parse: string -> Option<Json>, text: string, places: seq<Place>, expectArray: bool, fallback: Option<Json>,
    r: Option<Json>)
  {
    || (exists k ::
          && 0 <= k < |places| && r == Parsed(parse, text, places[k]) && r.Some? && r.value.Arr? == expectArray
          && forall l | 0 <= l < k ::
               Parsed(parse, text, places[l]).Some? && Parsed(parse, text, places[l]).value.Arr? != expectArray)
    || (&& (forall l | 0 <= l < |places| ::
              Parsed(parse, text, places[l]).Some? && Parsed(parse, text, places[l]).value.Arr? != expectArray)
        && r == (if fallback.Some? || expectArray || places == [] then fallback else Parsed(parse, text, places[0])))
  }

  /** No candidate starts at a position that the scan passes over. */
  lemma PassedOver(parse: string -> Option<Json>, text: string, start: nat)
    requires start < |text|
    requires !Opens(text[start]) || FindEnd(text, start).None?
             || parse(text[start..FindEnd(text, start).value + 1]).None?
    ensures forall e :: !Candidate(parse, text, start, e)
  {
    hide FindEnd;
    forall e: nat ensures !Candidate(parse, text, start, e) {
      if Candidate(parse, text, start, e) {
        FindEndIsBalanced(text, start, e);
      }
    }
  }

  lemma OutermostSkips(parse: string -> Option<Json>, text: string, start: nat, places: seq<Place>)
    requires Outermost(parse, text, start + 1, places) && forall e :: !Candidate(parse, text, start, e)
    ensures Outermost(parse, text, start, places)
  {
    hide Candidate, Covers, Ordered;
    forall q: nat, e: nat | start <= q && Candidate(parse, text, q, e) ensures Covers(places, q) {
      assert q != start;
    }
  }

  lemma CoversMore(p: Place, rest: seq<Place>, q: nat)
    ensures p.start <= q <= p.end || Covers(rest, q) ==> Covers([p] + rest, q)
  {
    var places := [p] + rest;
    if p.start <= q <= p.end {
      assert places[0] == p;
    } else if Covers(rest, q) {
      var k :| 0 <= k < |rest| && rest[k].start <= q <= rest[k].end;
      assert places[k + 1] == rest[k];
    }
  }

  lemma OrderedMore(p: Place, rest: seq<Place>)
    requires p.start <= p.end && Ordered(rest) && forall r | r in rest :: p.end < r.start
    ensures Ordered([p] + rest)
  {
  }

  lemma OutermostAdds(parse: string -> Option<Json>, text: string, p: Place, rest: seq<Place>)
    requires Outermost(parse, text, p.end + 1, rest) && Candidate(parse, text, p.start, p.end) && p.start <= p.end
    ensures Outermost(parse, text, p.start, [p] + rest)
  {
    hide Candidate, Covers, Ordered;
    OrderedMore(p, rest);
    forall q: nat, e: nat | p.start <= q && Candidate(parse, text, q, e) ensures Covers([p] + rest, q) {
      CoversMore(p, rest, q);
    }
  }

  lemma ChosenFirst(
    parse: string -> Option<Json>, text: string, p: Place, rest: seq<Place>, expectArray: bool, fallback: Option<Json>)
    requires Parsed(parse, text, p).Some? && Parsed(parse, text, p).value.Arr? == expectArray
    ensures Chosen(parse, text, [p] + rest, expectArray, fallback, Parsed(parse, text, p))
  {
    assert ([p] + rest)[0] == p;
  }

  lemma ChosenLater(
    parse: string -> Option<Json>, text: string, p: Place, rest: seq<Place>, expectArray: bool, fallback: Option<Json>,
    r: Option<Json>)
    requires Parsed(parse, text, p).Some? && Parsed(parse, text, p).value.Arr? != expectArray
    requires expectArray ==> fallback.None?
    requires Chosen(parse, text, rest, expectArray,
                    if expectArray then None else OrElse(fallback, Parsed(parse, text, p).value), r)
    ensures Chosen(parse, text, [p] + rest, expectArray, fallback, r)
  {
    hide Parsed;
    var places := [p] + rest;
    if k: nat :|
      && 0 <= k < |rest| && r == Parsed(parse, text, rest[k]) && r.Some? && r.value.Arr? == expectArray
      && forall l | 0 <= l < k ::
           Parsed(parse, text, rest[l]).Some? && Parsed(parse, text, rest[l]).value.Arr? != expectArray
    {
      assert places[k + 1] == rest[k];
      forall l | 0 <= l < k + 1
        ensures Parsed(parse, text, places[l]).Some? && Parsed(parse, text, places[l]).value.Arr? != expectArray
      {
        assert l > 0 ==> places[l] == rest[l - 1];
      }
    } else {
      forall l | 0 <= l < |places|
        ensures Parsed(parse, text, places[l]).Some? && Parsed(parse, text, places[l]).value.Arr? != expectArray
      {
        assert l > 0 ==> places[l] == rest[l - 1];
      }
      assert places[0] == p;
    }
  }

  lemma {:induction false} ScanChooses(
    parse: string -> Option<Json>, text: string, start: nat, expectArray: bool, fallback: Option<Json>)
    returns (places: seq<Place>)
    requires expectArray ==> fallback.None?
    ensures Outermost(parse, text, start, places)
    ensures Chosen(parse, text, places, expectArray, fallback, ScanFrom(parse, text, start, expectArray, fallback))
    decreases |text| - start
  {
    hide FindEnd, Candidate, Balanced, Outermost, Chosen;
    if start >= |text| {
      places := [];
      NothingLeft(parse, text, start, expectArray, fallback);
    } else if !Opens(text[start]) || FindEnd(text, start).None?
              || parse(text[start..FindEnd(text, start).value + 1]).None? {
      PassedOver(parse, text, start);
      places := ScanChooses(parse, text, start + 1, expectArray, fallback);
      OutermostSkips(parse, text, start, places);
    } else {
      var p := Place(start, FindEnd(text, start).value);
      var parsed := parse(text[start..p.end + 1]).value;
      FindEndIsBalanced(text, start, p.end);
      assert Candidate(parse, text, start, p.end) by { IsCandidate(parse, text, start, p.end); }
      var later := if expectArray then None else OrElse(fallback, parsed);
      var rest := ScanChooses(parse, text, p.end + 1, expectArray, later);
      places := [p] + rest;
      OutermostAdds(parse, text, p, rest);
      if parsed.Arr? == expectArray {
        ChosenFirst(parse, text, p, rest, expectArray, fallback);
      } else {
        ChosenLater(parse, text, p, rest, expectArray, fallback,
                    ScanFrom(parse, text, p.end + 1, expectArray, later));
      }
    }
  }

  lemma IsCandidate(parse: string -> Option<Json>, text: string, start: nat, end: nat)
    requires Balanced(text, start, end) && parse(text[start..end + 1]).Some?
    ensures Candidate(parse, text, start, end)
  {
  }

  lemma NothingLeft(
    parse: string -> Option<Json>, text: string, start: nat, expectArray: bool, fallback: Option<Json>)
    requires start >= |text|
    ensures Outermost(parse, text, start, []) && Chosen(parse, text, [], expectArray, fallback, fallback)
  {
  }

  /**
   * The result for every text and every parser. If the whole text parses, to an array where one is asked for, that is
   * the result. Otherwise look at the balanced pieces that parse and lie in no other such piece, from left to right:
   * the result is the first array among them where one is asked for, and else the first that is not an array, or
   * failing that the first; and nothing exactly when there is none.
   */
  lemma ResultIsFirstOutermost(parse: string -> Option<Json>, text: string, expectArray: bool)
    returns (places: seq<Place>)
    ensures Outermost(parse, text, 0, places)
    ensures if parse(text).Some? && (expectArray ==> parse(text).value.Arr?)
            then Embedded(parse, text, expectArray) == parse(text)
            else Chosen(parse, text, places, expectArray, None, Embedded(parse, text, expectArray))
  {
    hide ScanFrom, Outermost, Chosen;
    places := ScanChooses(parse, text, 0, expectArray, None);
  }

  /** The outermost pieces of a text are determined. */
  lemma {:induction false} OutermostIsUnique(
    parse: string -> Option<Json>, text: string, a: seq<Place>, b: seq<Place>, k: nat)
    requires Outermost(parse, text, 0, a) && Outermost(parse, text, 0, b) && k < |a|
    ensures k < |b| && a[k] == b[k]
  {
    hide Balanced, Candidate, Covers, Ordered;
    if k > 0 {
      OutermostIsUnique(parse, text, a, b, k - 1);
    }
    forall l: nat | l < k ensures l < |b| && a[l] == b[l] {
      OutermostIsUnique(parse, text, a, b, l);
    }
    assert a[k] in a && Candidate(parse, text, a[k].start, a[k].end);
    assert Covers(b, a[k].start);
    forall p | p in b ensures Covers(a, p.start) {
      assert Candidate(parse, text, p.start, p.end);
    }
    var i := SameStart(a, b, k);
    CandidateEnds(parse, text);
    assert b[i] in b;
  }

  predicate Alike(a: seq<Place>, b: seq<Place>, k: nat) {
    k <= |a| && k <= |b| && forall l | 0 <= l < k :: a[l] == b[l]
  }

  /** Where two orderings of pieces cover each other's beginnings and agree below `k`, they begin alike at `k`. */
  lemma SameStart(a: seq<Place>, b: seq<Place>, k: nat) returns (i: nat)
    requires Ordered(a) && Ordered(b) && k < |a|
    requires Alike(a, b, k)
    requires Covers(b, a[k].start) && forall p | p in b :: Covers(a, p.start)
    ensures i == k < |b| && a[k].start == b[k].start
  {
    i :| 0 <= i < |b| && b[i].start <= a[k].start <= b[i].end;
    Earlier(a, b, k, i);
    NotBefore(a, b, k, i);
    NotBefore(a, b, k, k);
    Later(b, k, i);
    Disjoint(b, k, i);
  }

  lemma Disjoint(b: seq<Place>, k: nat, i: nat)
    requires Ordered(b) && i < |b| && k <= i
    ensures b[k].start <= b[k].end && (k < i ==> b[k].start < b[i].start)
  {
  }

  lemma Earlier(a: seq<Place>, b: seq<Place>, k: nat, i: nat)
    requires Ordered(a) && k < |a| && Alike(a, b, k)
    ensures i < k ==> i < |b| && b[i].end < a[k].start
  {
  }

  lemma Later(b: seq<Place>, k: nat, i: nat)
    requires Ordered(b)
    ensures k < i < |b| ==> b[k].end < b[i].start
  {
  }

  /** A piece of the second ordering at or after `k` begins no earlier than the `k`-th of the first. */
  lemma NotBefore(a: seq<Place>, b: seq<Place>, k: nat, i: nat)
    requires Ordered(a) && Ordered(b) && k < |a| && i < |b|
    requires Alike(a, b, k)
    requires forall p | p in b :: Covers(a, p.start)
    ensures k <= i ==> a[k].start <= b[i].start
  {
    assert b[i] in b;
    var j :| 0 <= j < |a| && a[j].start <= b[i].start <= a[j].end;
    SameEnd(a, b, k, j);
    Later(b, j, i);
    Later(a, k, j);
  }

  lemma SameEnd(a: seq<Place>, b: seq<Place>, k: nat, j: nat)
    requires k < |a| && j < |a| && Alike(a, b, k)
    ensures j < k ==> j < |b| && a[j] == b[j]
  {
  }

  /** A balanced piece has one end. */
  lemma CandidateEnds(parse: string -> Option<Json>, text: string)
    ensures forall p: Place, q: Place |
              p.start == q.start && Candidate(parse, text, p.start, p.end) && Candidate(parse, text, q.start, q.end) ::
              p == q
    ensures forall p: Place | Candidate(parse, text, p.start, p.end) :: p.start <= p.end
  {
    forall p: Place, q: Place
      | p.start == q.start && Candidate(parse, text, p.start, p.end) && Candidate(parse, text, q.start, q.end)
      ensures p == q
    {
      FindEndIsBalanced(text, p.start, p.end);
      FindEndIsBalanced(text, q.start, q.end);
    }
  }
}
