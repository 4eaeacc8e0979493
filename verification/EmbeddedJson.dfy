/**
 * Finding JSON in prose: the balanced scanner of src/core/parse.ts.
 * `JSON.parse` is a parameter; what is assumed of it is only that it undoes printing where a result says so.
 */
module EmbeddedJson {
  import opened Options
  import opened JsonValues

  // ----------------------------------------------------------------- printing

  /** How numbers are written, and the white space a pretty printer puts between tokens. */
  datatype Format = Format(number: Number -> string, pad: string)

  /** Outside every string literal this character means nothing to the scanner or the escaper. */
  predicate Inert(c: char) {
    c != '"' && c != '\\' && c != '{' && c != '}' && c != '[' && c != ']'
  }

  predicate AllInert(s: string) {
    forall c | c in s :: Inert(c)
  }

  predicate NoControls(s: string) {
    forall c | c in s :: c != '\n' && c != '\r' && c != '\t'
  }

  ghost predicate FormatOk(fmt: Format) {
    && AllInert(fmt.pad)
    && forall n :: AllInert(fmt.number(n)) && NoControls(fmt.number(n))
  }

  function Hex(n: nat): char
    requires n < 16
  {
    "0123456789abcdef"[n]
  }

  /** A character of a string literal. `raw`: as sloppy writers do, with line breaks and tabs left as they are. */
  function Written(c: char, raw: bool): string {
    if c == '"' then "\\\""
    else if c == '\\' then "\\\\"
    else if c == '\n' then (if raw then "\n" else "\\n")
    else if c == '\r' then (if raw then "\r" else "\\r")
    else if c == '\t' then (if raw then "\t" else "\\t")
    else if c < ' ' then "\\u00" + [Hex(c as int / 16), Hex(c as int % 16)]
    else [c]
  }

  function Chars(s: string, raw: bool): string {
    if s == [] then [] else Written(s[0], raw) + Chars(s[1..], raw)
  }

  function Quote(s: string, raw: bool): string {
    "\"" + Chars(s, raw) + "\""
  }

  function Print(fmt: Format, v: Json, raw: bool): string
    decreases v
  {
    match v
    case Null => "null"
    case Bool(b) => if b then "true" else "false"
    case Num(n) => fmt.number(n)
    case Str(s) => Quote(s, raw)
    case Arr(elems) => "[" + (fmt.pad + PrintElems(fmt, elems, raw) + fmt.pad) + "]"
    case Obj(fields) => "{" + (fmt.pad + PrintFields(fmt, fields, raw) + fmt.pad) + "}"
  }

  function PrintElems(fmt: Format, elems: seq<Json>, raw: bool): string
    decreases elems
  {
    if elems == [] then []
    else if |elems| == 1 then Print(fmt, elems[0], raw)
    else Print(fmt, elems[0], raw) + ("," + fmt.pad) + PrintElems(fmt, elems[1..], raw)
  }

  function PrintField(fmt: Format, field: Field, raw: bool): string
    decreases field
  {
    Quote(field.key, raw) + (":" + fmt.pad) + Print(fmt, field.value, raw)
  }

  function PrintFields(fmt: Format, fields: seq<Field>, raw: bool): string
    decreases fields
  {
    if fields == [] then []
    else if |fields| == 1 then PrintField(fmt, fields[0], raw)
    else PrintField(fmt, fields[0], raw) + ("," + fmt.pad) + PrintFields(fmt, fields[1..], raw)
  }

  // ------------------------------------------------------------------ scanning

  datatype Bracket = Curly | Square

  function Opener(b: Bracket): char {
    if b.Curly? then '{' else '['
  }

  function Closer(b: Bracket): char {
    if b.Curly? then '}' else ']'
  }

  /** The variables of the inner loop; Closed once the depth is back at zero. */
  datatype Scan = Going(depth: int, inString: bool, escaped: bool) | Closed(rest: nat)

  function Step(b: Bracket, st: Scan, c: char): Scan
    requires st.Going?
  {
    if st.inString then
      if st.escaped then st.(escaped := false)
      else if c == '\\' then st.(escaped := true)
      else if c == '"' then st.(inString := false)
      else st
    else if c == '"' then st.(inString := true)
    else if c == Opener(b) then st.(depth := st.depth + 1)
    else if c == Closer(b) then (if st.depth - 1 == 0 then Closed(0) else st.(depth := st.depth - 1))
    else st
  }

  /** The state after a text; `rest` counts the characters after the closing bracket. */
  function Over(b: Bracket, st: Scan, s: string): Scan
    decreases |s|
  {
    if s == [] then st
    else if st.Closed? then Closed(st.rest + |s|)
    else Over(b, Step(b, st, s[0]), s[1..])
  }

  /** The index of the bracket that closes the one at `start`. */
  function FindEnd(text: string, start: nat): (end: Option<nat>)
    requires start < |text| && (text[start] == '{' || text[start] == '[')
    ensures end.Some? ==> start <= end.value < |text|
  {
    var b := if text[start] == '{' then Curly else Square;
    var st := Over(b, Going(0, false, false), text[start..]);
    if st.Closed? && st.rest < |text| - start then Some(|text| - 1 - st.rest) else None
  }

  lemma {:induction false} OverAppend(b: Bracket, st: Scan, s: string, t: string)
    ensures Over(b, st, s + t) == Over(b, Over(b, st, s), t)
    decreases |s|
  {
    if s == [] {
      assert s + t == t;
    } else {
      assert (s + t)[0] == s[0] && (s + t)[1..] == s[1..] + t;
      if st.Closed? {
        assert |s + t| == |s| + |t|;
      } else {
        OverAppend(b, Step(b, st, s[0]), s[1..], t);
      }
    }
  }

  lemma {:induction false} ClosedRest(b: Bracket, st: Scan, s: string)
    ensures st.Going? && Over(b, st, s).Closed? ==> Over(b, st, s).rest < |s|
    decreases |s|
  {
    if s != [] && st.Going? {
      var next := Step(b, st, s[0]);
      if next.Going? {
        ClosedRest(b, next, s[1..]);
      }
    }
  }

  // ------------------------------------------------------- scanning what is printed

  /** The scanner comes out of this text as it went in, at any depth. */
  ghost predicate Passes(s: string) {
    forall b, d: int {:trigger Over(b, Going(d, false, false), s)} | d >= 1 ::
      Over(b, Going(d, false, false), s) == Going(d, false, false)
  }

  lemma PassesAppend(s: string, t: string)
    requires Passes(s) && Passes(t)
    ensures Passes(s + t)
  {
    forall b, d: int | d >= 1 ensures Over(b, Going(d, false, false), s + t) == Going(d, false, false) {
      OverAppend(b, Going(d, false, false), s, t);
    }
  }

  lemma {:induction false} InertPasses(s: string)
    requires AllInert(s)
    ensures Passes(s)
    decreases |s|
  {
    if s != [] {
      InertPasses(s[1..]);
      assert Inert(s[0]);
    }
  }

  /** Inside a literal a written character leaves the scanner inside it. */
  lemma WrittenStaysInside(b: Bracket, d: int, c: char, raw: bool)
    ensures Over(b, Going(d, true, false), Written(c, raw)) == Going(d, true, false)
  {
    var w := Written(c, raw);
    var inside := Going(d, true, false);
    if |w| == 1 {
      assert w[1..] == [];
    } else if |w| == 2 {
      assert w[0] == '\\' && w[1..] == [w[1]] && w[1..][1..] == [];
      assert Over(b, inside, w) == Over(b, Going(d, true, true), [w[1]]);
    } else {
      var x, y := Hex(c as int / 16), Hex(c as int % 16);
      assert w == ['\\', 'u', '0', '0', x, y];
      HexIsPlain(c as int / 16);
      HexIsPlain(c as int % 16);
      assert w[1..] == ['u', '0', '0', x, y];
      assert w[1..][1..] == ['0', '0', x, y];
      InsideInert(b, d, w[1..][1..]);
      assert Over(b, inside, w) == Over(b, Going(d, true, true), w[1..]);
    }
  }

  lemma HexIsPlain(n: nat)
    requires n < 16
    ensures Inert(Hex(n)) && Hex(n) != '\n' && Hex(n) != '\r' && Hex(n) != '\t'
  {
  }

  lemma {:induction false} InsideInert(b: Bracket, d: int, s: string)
    requires AllInert(s)
    ensures Over(b, Going(d, true, false), s) == Going(d, true, false)
    decreases |s|
  {
    if s != [] {
      assert Inert(s[0]);
      InsideInert(b, d, s[1..]);
    }
  }

  lemma {:induction false} CharsStayInside(b: Bracket, d: int, s: string, raw: bool)
    ensures Over(b, Going(d, true, false), Chars(s, raw)) == Going(d, true, false)
    decreases |s|
  {
    if s != [] {
      WrittenStaysInside(b, d, s[0], raw);
      CharsStayInside(b, d, s[1..], raw);
      OverAppend(b, Going(d, true, false), Written(s[0], raw), Chars(s[1..], raw));
    }
  }

  lemma QuotePasses(s: string, raw: bool)
    ensures Passes(Quote(s, raw))
  {
    forall b, d: int | d >= 1 ensures Over(b, Going(d, false, false), Quote(s, raw)) == Going(d, false, false) {
      var chars := Chars(s, raw);
      CharsStayInside(b, d, s, raw);
      OverAppend(b, Going(d, true, false), chars, "\"");
      assert Quote(s, raw)[0] == '"' && Quote(s, raw)[1..] == chars + "\"";
      assert "\""[1..] == [];
      assert Over(b, Going(d, true, false), "\"") == Going(d, false, false);
    }
  }

  /** A bracketed text whose inside passes also passes, whichever bracket is being counted. */
  lemma BracketPasses(open: char, inside: string, close: char)
    requires (open == '{' && close == '}') || (open == '[' && close == ']')
    requires Passes(inside)
    ensures Passes([open] + inside + [close])
  {
    var s := [open] + inside + [close];
    forall b, d: int | d >= 1 ensures Over(b, Going(d, false, false), s) == Going(d, false, false) {
      var e := if open == Opener(b) then d + 1 else d;
      assert s[0] == open && s[1..] == inside + [close];
      OverAppend(b, Going(e, false, false), inside, [close]);
      assert [close][1..] == [];
      assert Over(b, Going(e, false, false), [close]) == Going(d, false, false);
    }
  }

  lemma {:induction false} PrintPasses(fmt: Format, v: Json, raw: bool)
    requires FormatOk(fmt)
    ensures Passes(Print(fmt, v, raw))
    decreases v
  {
    match v {
      case Null => InertPasses("null");
      case Bool(b) => InertPasses("true"); InertPasses("false");
      case Num(n) => InertPasses(fmt.number(n));
      case Str(s) => QuotePasses(s, raw);
      case Arr(elems) =>
        InsidePasses(fmt, v, raw);
        BracketPasses('[', Inside(fmt, v, raw), ']');
      case Obj(fields) =>
        InsidePasses(fmt, v, raw);
        BracketPasses('{', Inside(fmt, v, raw), '}');
    }
  }

  predicate Container(v: Json) {
    v.Arr? || v.Obj?
  }

  function Inside(fmt: Format, v: Json, raw: bool): string
    requires Container(v)
  {
    fmt.pad + (if v.Arr? then PrintElems(fmt, v.elems, raw) else PrintFields(fmt, v.fields, raw)) + fmt.pad
  }

  lemma {:induction false} InsidePasses(fmt: Format, v: Json, raw: bool)
    requires FormatOk(fmt) && Container(v)
    ensures Passes(Inside(fmt, v, raw))
    decreases v, 0
  {
    InertPasses(fmt.pad);
    if v.Arr? {
      ElemsPass(fmt, v.elems, raw);
      PassesAppend(fmt.pad, PrintElems(fmt, v.elems, raw));
      PassesAppend(fmt.pad + PrintElems(fmt, v.elems, raw), fmt.pad);
    } else {
      FieldsPass(fmt, v.fields, raw);
      PassesAppend(fmt.pad, PrintFields(fmt, v.fields, raw));
      PassesAppend(fmt.pad + PrintFields(fmt, v.fields, raw), fmt.pad);
    }
  }

  lemma {:induction false} ElemsPass(fmt: Format, elems: seq<Json>, raw: bool)
    requires FormatOk(fmt)
    ensures Passes(PrintElems(fmt, elems, raw))
    decreases elems
  {
    if elems == [] {
      InertPasses([]);
    } else {
      PrintPasses(fmt, elems[0], raw);
      if |elems| > 1 {
        ElemsPass(fmt, elems[1..], raw);
        InertPasses("," + fmt.pad);
        PassesAppend(Print(fmt, elems[0], raw), "," + fmt.pad);
        PassesAppend(Print(fmt, elems[0], raw) + ("," + fmt.pad), PrintElems(fmt, elems[1..], raw));
      }
    }
  }

  lemma {:induction false} FieldPasses(fmt: Format, field: Field, raw: bool)
    requires FormatOk(fmt)
    ensures Passes(PrintField(fmt, field, raw))
    decreases field
  {
    QuotePasses(field.key, raw);
    InertPasses(":" + fmt.pad);
    PrintPasses(fmt, field.value, raw);
    PassesAppend(Quote(field.key, raw), ":" + fmt.pad);
    PassesAppend(Quote(field.key, raw) + (":" + fmt.pad), Print(fmt, field.value, raw));
  }

  lemma {:induction false} FieldsPass(fmt: Format, fields: seq<Field>, raw: bool)
    requires FormatOk(fmt)
    ensures Passes(PrintFields(fmt, fields, raw))
    decreases fields
  {
    if fields == [] {
      InertPasses([]);
    } else {
      FieldPasses(fmt, fields[0], raw);
      if |fields| > 1 {
        FieldsPass(fmt, fields[1..], raw);
        InertPasses("," + fmt.pad);
        PassesAppend(PrintField(fmt, fields[0], raw), "," + fmt.pad);
        PassesAppend(PrintField(fmt, fields[0], raw) + ("," + fmt.pad), PrintFields(fmt, fields[1..], raw));
      }
    }
  }

  /** The scanner, started on a printed container, stops exactly at its last character, whatever follows. */
  lemma FindsPrinted(fmt: Format, text: string, start: nat, v: Json, rest: string)
    requires FormatOk(fmt) && Container(v)
    requires start <= |text| && text[start..] == Print(fmt, v, false) + rest
    ensures |Print(fmt, v, false)| >= 2 && start < |text|
    ensures text[start] == if v.Obj? then '{' else '['
    ensures FindEnd(text, start) == Some(start + |Print(fmt, v, false)| - 1)
    ensures text[start..start + |Print(fmt, v, false)|] == Print(fmt, v, false)
  {
    var p := Print(fmt, v, false);
    var inside := Inside(fmt, v, false);
    var b := if v.Obj? then Curly else Square;
    assert p == [Opener(b)] + inside + [Closer(b)];
    assert text[start] == p[0];
    InsidePasses(fmt, v, false);
    assert text[start..][1..] == inside + ([Closer(b)] + rest);
    OverAppend(b, Going(1, false, false), inside, [Closer(b)] + rest);
    assert ([Closer(b)] + rest)[1..] == rest;
    assert Over(b, Closed(0), rest) == Closed(|rest|);
    assert Over(b, Going(0, false, false), text[start..]) == Closed(|rest|);
    assert |text| - start == |p| + |rest|;
    assert text[start..start + |p|] == text[start..][..|p|];
  }

  // ------------------------------------------------------------ the outer scan

  predicate Opens(c: char) {
    c == '{' || c == '['
  }

  /** The first of the two wins: `??=` on a value that is never null. */
  function OrElse(first: Option<Json>, second: Json): Option<Json> {
    if first.Some? then first else Some(second)
  }

  /** What the scan returns from position `start` on, having seen `fallback` already. */
  function ScanFrom(
    parse: string -> Option<Json>, text: string, start: nat, expectArray: bool, fallback: Option<Json>): Option<Json>
    decreases |text| - start
  {
    if start >= |text| then fallback
    else if !Opens(text[start]) then ScanFrom(parse, text, start + 1, expectArray, fallback)
    else
      match FindEnd(text, start)
      case None => ScanFrom(parse, text, start + 1, expectArray, fallback)
      case Some(end) =>
        match parse(text[start..end + 1])
        case None => ScanFrom(parse, text, start + 1, expectArray, fallback)
        case Some(parsed) =>
          if parsed.Arr? then
            if expectArray then Some(parsed)
            else ScanFrom(parse, text, end + 1, expectArray, OrElse(fallback, parsed))
          else if !expectArray then Some(parsed)
          else ScanFrom(parse, text, end + 1, expectArray, fallback)
  }

  function Embedded(parse: string -> Option<Json>, text: string, expectArray: bool): Option<Json> {
    var direct := parse(text);
    if direct.Some? && (!expectArray || direct.value.Arr?) then direct
    else ScanFrom(parse, text, 0, expectArray, None)
  }

  /** The inner loop: it stops on the character that brings the depth back to zero. */
  method FindBalancedEnd(text: string, start: nat) returns (end: Option<nat>)
    requires start < |text| && Opens(text[start])
    ensures end == FindEnd(text, start)
  {
    var opener := text[start];
    var closer := if opener == '{' then '}' else ']';
    ghost var b := if opener == '{' then Curly else Square;
    var depth, inString, escaped := 0, false, false;
    var i := start;
    while i < |text|
      invariant start <= i <= |text|
      invariant Over(b, Going(0, false, false), text[start..]) == Over(b, Going(depth, inString, escaped), text[i..])
    {
      var ch := text[i];
      assert text[i..][0] == ch && text[i..][1..] == text[i + 1..];
      if inString {
        if escaped {
          escaped := false;
        } else if ch == '\\' {
          escaped := true;
        } else if ch == '"' {
          inString := false;
        }
        i := i + 1;
        continue;
      }
      if ch == '"' {
        inString := true;
        i := i + 1;
        continue;
      }
      if ch == opener {
        depth := depth + 1;
      }
      if ch == closer {
        depth := depth - 1;
        if depth == 0 {
          assert Over(b, Closed(0), text[i + 1..]) == Closed(|text| - 1 - i);
          return Some(i);
        }
      }
      i := i + 1;
    }
    assert text[i..] == [];
    end := None;
  }

  /** The scan with its jumps past accepted structures, and back to the next character past rejected ones. */
  method ParseEmbeddedJsonResponse(parse: string -> Option<Json>, text: string, expectArray: bool)
    returns (r: Option<Json>)
    ensures r == Embedded(parse, text, expectArray)
  {
    hide FindEnd;
    var direct := parse(text);
    if direct.Some? && (!expectArray || direct.value.Arr?) {
      return direct;
    }
    var arrayFallback: Option<Json> := None;
    var start := 0;
    while start < |text|
      invariant 0 <= start <= |text|
      invariant ScanFrom(parse, text, 0, expectArray, None) == ScanFrom(parse, text, start, expectArray, arrayFallback)
      decreases |text| - start
    {
      if !Opens(text[start]) {
        start := start + 1;
        continue;
      }
      var end := FindBalancedEnd(text, start);
      if end.None? {
        start := start + 1;
        continue;
      }
      var parsed := parse(text[start..end.value + 1]);
      if parsed.None? {
        start := start + 1;
        continue;
      }
      if parsed.value.Arr? {
        if expectArray {
          return parsed;
        }
        if arrayFallback.None? {
          arrayFallback := parsed;
        }
      } else if !expectArray {
        return parsed;
      }
      start := end.value + 1;
    }
    r := arrayFallback;
  }

  // ---------------------------------------------------------------- main results

  predicate OpenerFree(s: string) {
    forall c | c in s :: !Opens(c)
  }

  lemma {:induction false} SkipsGap(
    parse: string -> Option<Json>, text: string, start: nat, gap: string, rest: string, expectArray: bool,
    fallback: Option<Json>)
    requires start <= |text| && text[start..] == gap + rest && OpenerFree(gap)
    ensures start + |gap| <= |text| && text[start + |gap|..] == rest
    ensures ScanFrom(parse, text, start, expectArray, fallback)
         == ScanFrom(parse, text, start + |gap|, expectArray, fallback)
    decreases |gap|
  {
    hide FindEnd;
    assert text[start + |gap|..] == text[start..][|gap|..] == rest;
    if gap != [] {
      assert text[start] == gap[0] && !Opens(gap[0]);
      assert text[start + 1..] == text[start..][1..] == gap[1..] + rest;
      SkipsGap(parse, text, start + 1, gap[1..], rest, expectArray, fallback);
    }
  }

  /** Some prose, then a printed object or array. */
  datatype Piece = Piece(gap: string, value: Json)

  function Weave(fmt: Format, pieces: seq<Piece>, suffix: string): string {
    if pieces == [] then suffix
    else pieces[0].gap + (Print(fmt, pieces[0].value, false) + Weave(fmt, pieces[1..], suffix))
  }

  /** `parse` undoes printing on these values. */
  ghost predicate Undoes(parse: string -> Option<Json>, fmt: Format, pieces: seq<Piece>) {
    forall p | p in pieces :: Container(p.value) && OpenerFree(p.gap)
                           && parse(Print(fmt, p.value, false)) == Some(p.value)
  }

  /** The first object, or failing that the first array. */
  function FirstObject(pieces: seq<Piece>, fallback: Option<Json>): Option<Json> {
    if pieces == [] then fallback
    else if pieces[0].value.Obj? then Some(pieces[0].value)
    else FirstObject(pieces[1..], OrElse(fallback, pieces[0].value))
  }

  function FirstArray(pieces: seq<Piece>): Option<Json> {
    if pieces == [] then None
    else if pieces[0].value.Arr? then Some(pieces[0].value)
    else FirstArray(pieces[1..])
  }

  function Expected(pieces: seq<Piece>, expectArray: bool, fallback: Option<Json>): Option<Json> {
    if expectArray then (if FirstArray(pieces).Some? then FirstArray(pieces) else fallback)
    else FirstObject(pieces, fallback)
  }

  predicate Settled(pieces: seq<Piece>, expectArray: bool) {
    exists p :: p in pieces && p.value.Arr? == expectArray
  }

  /** One piece: its gap is skipped, its value found whole, and then taken or jumped over. */
  lemma ScansPiece(
    parse: string -> Option<Json>, fmt: Format, text: string, start: nat, p: Piece, rest: string,
    expectArray: bool, fallback: Option<Json>)
    returns (after: nat)
    requires FormatOk(fmt) && Container(p.value) && OpenerFree(p.gap)
    requires parse(Print(fmt, p.value, false)) == Some(p.value)
    requires start <= |text| && text[start..] == p.gap + (Print(fmt, p.value, false) + rest)
    ensures after <= |text| && text[after..] == rest
    ensures ScanFrom(parse, text, start, expectArray, fallback)
         == if p.value.Arr? == expectArray then Some(p.value)
            else ScanFrom(parse, text, after, expectArray,
                          if p.value.Arr? then OrElse(fallback, p.value) else fallback)
  {
    hide FindEnd, Print, FormatOk;
    var printed := Print(fmt, p.value, false);
    SkipsGap(parse, text, start, p.gap, printed + rest, expectArray, fallback);
    var at := start + |p.gap|;
    FindsPrinted(fmt, text, at, p.value, rest);
    after := at + |printed|;
    assert text[after..] == text[at..][|printed|..] == rest;
  }

  lemma {:induction false} ScansWeave(
    parse: string -> Option<Json>, fmt: Format, text: string, start: nat, pieces: seq<Piece>, suffix: string,
    expectArray: bool, fallback: Option<Json>)
    requires FormatOk(fmt) && Undoes(parse, fmt, pieces)
    requires start <= |text| && text[start..] == Weave(fmt, pieces, suffix)
    requires Settled(pieces, expectArray) || OpenerFree(suffix)
    ensures ScanFrom(parse, text, start, expectArray, fallback) == Expected(pieces, expectArray, fallback)
    decreases |pieces|
  {
    hide FindEnd, Print, FormatOk, Opens;
    if pieces == [] {
      assert text[start..] == suffix + [];
      SkipsGap(parse, text, start, suffix, [], expectArray, fallback);
    } else {
      hide ScanFrom;
      var p := pieces[0];
      assert p in pieces;
      var after := ScansPiece(parse, fmt, text, start, p, Weave(fmt, pieces[1..], suffix), expectArray, fallback);
      if p.value.Arr? != expectArray {
        assert forall q | q in pieces[1..] :: q in pieces;
        assert Settled(pieces, expectArray) ==> Settled(pieces[1..], expectArray) by {
          if Settled(pieces, expectArray) {
            var q :| q in pieces && q.value.Arr? == expectArray;
            assert q in pieces[1..];
          }
        }
        ScansWeave(parse, fmt, text, after, pieces[1..], suffix, expectArray,
                   if p.value.Arr? then OrElse(fallback, p.value) else fallback);
      }
    }
  }

  /** Once the direct parse has not helped, prose woven with printed objects and arrays yields the first object,
      else the first array; or in array mode the first array at top level, never one nested in an object. */
  lemma ScannerRoundTrip(
    parse: string -> Option<Json>, fmt: Format, pieces: seq<Piece>, suffix: string, expectArray: bool)
    requires FormatOk(fmt) && Undoes(parse, fmt, pieces)
    requires Settled(pieces, expectArray) || OpenerFree(suffix)
    requires var direct := parse(Weave(fmt, pieces, suffix)); direct.None? || (expectArray && !direct.value.Arr?)
    ensures Embedded(parse, Weave(fmt, pieces, suffix), expectArray)
         == if expectArray then FirstArray(pieces) else FirstObject(pieces, None)
  {
    var text := Weave(fmt, pieces, suffix);
    assert text[0..] == text;
    ScansWeave(parse, fmt, text, 0, pieces, suffix, expectArray, None);
  }

  /** Nothing is invented: a result of the scan is the parse of a piece of the text, an array in array mode. */
  lemma {:induction false} FoundIsParsed(
    parse: string -> Option<Json>, text: string, start: nat, expectArray: bool, fallback: Option<Json>)
    returns (from: nat, to: nat)
    requires fallback.Some? ==> fallback.value.Arr? && !expectArray
    ensures var r := ScanFrom(parse, text, start, expectArray, fallback);
            && from <= to <= |text|
            && (r.Some? && r != fallback ==> parse(text[from..to]) == r)
            && (r.Some? && expectArray ==> r.value.Arr?)
    decreases |text| - start
  {
    hide FindEnd;
    from, to := 0, 0;
    if start < |text| {
      if !Opens(text[start]) || FindEnd(text, start).None? {
        from, to := FoundIsParsed(parse, text, start + 1, expectArray, fallback);
      } else {
        var end := FindEnd(text, start).value;
        var parsed := parse(text[start..end + 1]);
        if parsed.None? {
          from, to := FoundIsParsed(parse, text, start + 1, expectArray, fallback);
        } else if parsed.value.Arr? == expectArray {
          from, to := start, end + 1;
        } else {
          var next := if parsed.value.Arr? then OrElse(fallback, parsed.value) else fallback;
          from, to := FoundIsParsed(parse, text, end + 1, expectArray, next);
          if ScanFrom(parse, text, end + 1, expectArray, next) == next && next != fallback {
            from, to := start, end + 1;
          }
        }
      }
    }
  }
}
