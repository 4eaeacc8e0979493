/**
 * `escapeJsonStringControls` of src/core/parse.ts:51-89: line breaks and tabs inside string literals become
 * escapes, everything else is copied.
 */
module JsonControls {
  import opened Options
  import opened JsonValues
  import opened EmbeddedJson

  datatype Mode = Mode(inString: bool, escaped: bool)

  const OUTSIDE := Mode(false, false)

  function After(m: Mode, c: char): Mode {
    if m.escaped then m.(escaped := false)
    else if c == '\\' && m.inString then m.(escaped := true)
    else if c == '"' then m.(inString := !m.inString)
    else m
  }

  function Copied(m: Mode, c: char): string {
    if m.escaped || !m.inString then [c]
    else if c == '\n' then "\\n"
    else if c == '\r' then "\\r"
    else if c == '\t' then "\\t"
    else [c]
  }

  function ModeAfter(m: Mode, s: string): Mode
    decreases |s|
  {
    if s == [] then m else ModeAfter(After(m, s[0]), s[1..])
  }

  function EscapeFrom(m: Mode, s: string): string
    decreases |s|
  {
    if s == [] then [] else Copied(m, s[0]) + EscapeFrom(After(m, s[0]), s[1..])
  }

  function Escape(s: string): string {
    EscapeFrom(OUTSIDE, s)
  }

  method EscapeJsonStringControls(raw: string) returns (out: string)
    ensures out == Escape(raw)
  {
    hide EscapeFrom;
    out := "";
    assert raw[0..] == raw;
    var inString, escaped := false, false;
    var i := 0;
    while i < |raw|
      invariant 0 <= i <= |raw|
      invariant Escape(raw) == out + EscapeFrom(Mode(inString, escaped), raw[i..])
    {
      var ch := raw[i];
      ghost var m := Mode(inString, escaped);
      EscapeHead(m, raw, i);
      assert out + (Copied(m, ch) + EscapeFrom(After(m, ch), raw[i + 1..]))
          == (out + Copied(m, ch)) + EscapeFrom(After(m, ch), raw[i + 1..]);
      if escaped {
        out := out + [ch];
        escaped := false;
      } else if ch == '\\' && inString {
        out := out + [ch];
        escaped := true;
      } else if ch == '"' {
        inString := !inString;
        out := out + [ch];
      } else if inString && ch == '\n' {
        out := out + "\\n";
      } else if inString && ch == '\r' {
        out := out + "\\r";
      } else if inString && ch == '\t' {
        out := out + "\\t";
      } else {
        out := out + [ch];
      }
      i := i + 1;
    }
    assert raw[i..] == [];
    assert EscapeFrom(Mode(inString, escaped), []) == [] by { EscapeNothing(Mode(inString, escaped)); }
  }

  lemma EscapeNothing(m: Mode)
    ensures EscapeFrom(m, []) == []
  {
  }

  lemma EscapeHead(m: Mode, s: string, i: nat)
    requires i < |s|
    ensures EscapeFrom(m, s[i..]) == Copied(m, s[i]) + EscapeFrom(After(m, s[i]), s[i + 1..])
  {
    assert s[i..][0] == s[i] && s[i..][1..] == s[i + 1..];
  }

  // ------------------------------------------------------------------- algebra

  lemma {:induction false} EscapeAppend(m: Mode, s: string, t: string)
    ensures EscapeFrom(m, s + t) == EscapeFrom(m, s) + EscapeFrom(ModeAfter(m, s), t)
    ensures ModeAfter(m, s + t) == ModeAfter(ModeAfter(m, s), t)
    decreases |s|
  {
    if s == [] {
      assert s + t == t;
    } else {
      assert (s + t)[0] == s[0] && (s + t)[1..] == s[1..] + t;
      EscapeAppend(After(m, s[0]), s[1..], t);
    }
  }

  lemma OneChar(m: Mode, c: char)
    ensures EscapeFrom(m, [c]) == Copied(m, c) && ModeAfter(m, [c]) == After(m, c)
  {
    assert [c][1..] == [];
    assert EscapeFrom(m, [c]) == Copied(m, c) + [];
  }

  lemma TwoChars(m: Mode, c: char, d: char)
    ensures EscapeFrom(m, [c, d]) == Copied(m, c) + Copied(After(m, c), d)
    ensures ModeAfter(m, [c, d]) == After(After(m, c), d)
  {
    OneChar(m, c);
    OneChar(After(m, c), d);
    EscapeAppend(m, [c], [d]);
    assert [c, d] == [c] + [d];
  }

  lemma CopiedIsStable(m: Mode, c: char)
    ensures EscapeFrom(m, Copied(m, c)) == Copied(m, c)
    ensures ModeAfter(m, Copied(m, c)) == After(m, c)
  {
    hide EscapeFrom, ModeAfter;
    var w := Copied(m, c);
    if |w| == 1 {
      assert w == [c];
      OneChar(m, c);
    } else {
      assert w == ['\\', w[1]];
      TwoChars(m, '\\', w[1]);
      assert ['\\'] + [w[1]] == w;
    }
  }

  /** Escaping twice is escaping once, and the quotes keep their parity. */
  lemma {:induction false} EscapeIsIdempotent(m: Mode, s: string)
    ensures EscapeFrom(m, EscapeFrom(m, s)) == EscapeFrom(m, s)
    ensures ModeAfter(m, EscapeFrom(m, s)) == ModeAfter(m, s)
    decreases |s|
  {
    if s != [] {
      var w, rest := Copied(m, s[0]), EscapeFrom(After(m, s[0]), s[1..]);
      CopiedIsStable(m, s[0]);
      EscapeIsIdempotent(After(m, s[0]), s[1..]);
      EscapeAppend(m, w, rest);
    }
  }

  /** No bracket is added or lost, so prose without openers stays so. */
  lemma {:induction false} EscapeKeepsOpeners(m: Mode, s: string)
    ensures OpenerFree(EscapeFrom(m, s)) <==> OpenerFree(s)
    decreases |s|
  {
    if s != [] {
      EscapeKeepsOpeners(After(m, s[0]), s[1..]);
      var w, rest := Copied(m, s[0]), EscapeFrom(After(m, s[0]), s[1..]);
      assert forall c | c in s :: c == s[0] || c in s[1..];
      assert forall c | c in s[1..] :: c in s;
      assert s[0] in s;
      assert |w| == 2 ==> !Opens(s[0]) && !Opens(w[0]) && !Opens(w[1]);
      assert forall c | c in w + rest :: c in w || c in rest;
      assert forall c | c in rest :: c in w + rest;
      assert w[0] in w + rest;
    }
  }

  // ---------------------------------------------------------------- round trip

  /** Read outside strings, this text is repaired to that one, and reading goes on outside strings. */
  ghost predicate Repairs(s: string, t: string) {
    EscapeFrom(OUTSIDE, s) == t && ModeAfter(OUTSIDE, s) == OUTSIDE
  }

  lemma RepairsAppend(s: string, t: string, s': string, t': string)
    requires Repairs(s, t) && Repairs(s', t')
    ensures Repairs(s + s', t + t')
  {
    EscapeAppend(OUTSIDE, s, s');
  }

  lemma {:induction false} InertIsKept(s: string)
    requires forall c | c in s :: c != '"'
    ensures Repairs(s, s)
    decreases |s|
  {
    if s != [] {
      assert forall c | c in s[1..] :: c in s;
      assert s[0] in s;
      InertIsKept(s[1..]);
      assert s == [s[0]] + s[1..];
    }
  }

  lemma WrittenIsRepaired(c: char)
    ensures EscapeFrom(Mode(true, false), Written(c, true)) == Written(c, false)
    ensures ModeAfter(Mode(true, false), Written(c, true)) == Mode(true, false)
  {
    hide EscapeFrom, ModeAfter;
    var w := Written(c, true);
    var inside := Mode(true, false);
    if |w| == 1 {
      assert w == [c];
      OneChar(inside, c);
    } else if |w| == 2 {
      assert w == ['\\', w[1]];
      TwoChars(inside, '\\', w[1]);
      assert ['\\'] + [w[1]] == w;
    } else {
      var x, y := Hex(c as int / 16), Hex(c as int % 16);
      HexIsPlain(c as int / 16);
      HexIsPlain(c as int % 16);
      assert w == ['\\', 'u'] + ['0', '0', x, y];
      EscapeAppend(inside, ['\\', 'u'], ['0', '0', x, y]);
      TwoChars(inside, '\\', 'u');
      PlainInside(['0', '0', x, y]);
    }
  }

  lemma {:induction false} PlainInside(s: string)
    requires AllInert(s) && NoControls(s)
    ensures EscapeFrom(Mode(true, false), s) == s && ModeAfter(Mode(true, false), s) == Mode(true, false)
    decreases |s|
  {
    if s != [] {
      assert forall c | c in s[1..] :: c in s;
      assert s[0] in s && Inert(s[0]);
      PlainInside(s[1..]);
      assert s == [s[0]] + s[1..];
    }
  }

  lemma {:induction false} CharsAreRepaired(s: string)
    ensures EscapeFrom(Mode(true, false), Chars(s, true)) == Chars(s, false)
    ensures ModeAfter(Mode(true, false), Chars(s, true)) == Mode(true, false)
    decreases |s|
  {
    if s != [] {
      WrittenIsRepaired(s[0]);
      CharsAreRepaired(s[1..]);
      EscapeAppend(Mode(true, false), Written(s[0], true), Chars(s[1..], true));
    }
  }

  lemma QuoteIsRepaired(s: string)
    ensures Repairs(Quote(s, true), Quote(s, false))
  {
    var inside := Mode(true, false);
    CharsAreRepaired(s);
    EscapeAppend(OUTSIDE, "\"" + Chars(s, true), "\"");
    EscapeAppend(OUTSIDE, "\"", Chars(s, true));
    assert "\""[1..] == [];
    assert EscapeFrom(OUTSIDE, "\"") == "\"" && ModeAfter(OUTSIDE, "\"") == inside;
    assert EscapeFrom(inside, "\"") == "\"" && ModeAfter(inside, "\"") == OUTSIDE;
  }

  lemma InertHasNoQuote(s: string)
    requires AllInert(s)
    ensures Repairs(s, s)
  {
    forall c | c in s ensures c != '"' {
      assert Inert(c);
    }
    InertIsKept(s);
  }

  /** What a sloppy writer prints, with raw line breaks and tabs in its strings, is repaired to exact JSON. */
  lemma {:induction false} PrintIsRepaired(fmt: Format, v: Json)
    requires FormatOk(fmt)
    ensures Repairs(Print(fmt, v, true), Print(fmt, v, false))
    decreases v
  {
    match v {
      case Null => InertIsKept("null");
      case Bool(b) => InertIsKept("true"); InertIsKept("false");
      case Num(n) => InertHasNoQuote(fmt.number(n));
      case Str(s) => QuoteIsRepaired(s);
      case Arr(elems) =>
        ElemsAreRepaired(fmt, elems);
        Wrap(fmt, "[", PrintElems(fmt, elems, true), PrintElems(fmt, elems, false), "]");
      case Obj(fields) =>
        FieldsAreRepaired(fmt, fields);
        Wrap(fmt, "{", PrintFields(fmt, fields, true), PrintFields(fmt, fields, false), "}");
    }
  }

  lemma Wrap(fmt: Format, open: string, raw: string, cooked: string, close: string)
    requires FormatOk(fmt) && Repairs(raw, cooked)
    requires (forall c | c in open :: c != '"') && (forall c | c in close :: c != '"')
    ensures Repairs(open + (fmt.pad + raw + fmt.pad) + close, open + (fmt.pad + cooked + fmt.pad) + close)
  {
    InertHasNoQuote(fmt.pad);
    InertIsKept(open);
    InertIsKept(close);
    RepairsAppend(fmt.pad, fmt.pad, raw, cooked);
    RepairsAppend(fmt.pad + raw, fmt.pad + cooked, fmt.pad, fmt.pad);
    RepairsAppend(open, open, fmt.pad + raw + fmt.pad, fmt.pad + cooked + fmt.pad);
    RepairsAppend(open + (fmt.pad + raw + fmt.pad), open + (fmt.pad + cooked + fmt.pad), close, close);
  }

  lemma Separator(fmt: Format, mark: string)
    requires FormatOk(fmt) && AllInert(mark)
    ensures Repairs(mark + fmt.pad, mark + fmt.pad)
  {
    InertHasNoQuote(mark + fmt.pad);
  }

  lemma {:induction false} ElemsAreRepaired(fmt: Format, elems: seq<Json>)
    requires FormatOk(fmt)
    ensures Repairs(PrintElems(fmt, elems, true), PrintElems(fmt, elems, false))
    decreases elems
  {
    if elems == [] {
      InertIsKept([]);
    } else {
      PrintIsRepaired(fmt, elems[0]);
      if |elems| > 1 {
        ElemsAreRepaired(fmt, elems[1..]);
        Separator(fmt, ",");
        RepairsAppend(Print(fmt, elems[0], true), Print(fmt, elems[0], false), "," + fmt.pad, "," + fmt.pad);
        RepairsAppend(Print(fmt, elems[0], true) + ("," + fmt.pad), Print(fmt, elems[0], false) + ("," + fmt.pad),
                      PrintElems(fmt, elems[1..], true), PrintElems(fmt, elems[1..], false));
      }
    }
  }

  lemma {:induction false} FieldIsRepaired(fmt: Format, field: Field)
    requires FormatOk(fmt)
    ensures Repairs(PrintField(fmt, field, true), PrintField(fmt, field, false))
    decreases field
  {
    QuoteIsRepaired(field.key);
    Separator(fmt, ":");
    PrintIsRepaired(fmt, field.value);
    RepairsAppend(Quote(field.key, true), Quote(field.key, false), ":" + fmt.pad, ":" + fmt.pad);
    RepairsAppend(Quote(field.key, true) + (":" + fmt.pad), Quote(field.key, false) + (":" + fmt.pad),
                  Print(fmt, field.value, true), Print(fmt, field.value, false));
  }

  lemma {:induction false} FieldsAreRepaired(fmt: Format, fields: seq<Field>)
    requires FormatOk(fmt)
    ensures Repairs(PrintFields(fmt, fields, true), PrintFields(fmt, fields, false))
    decreases fields
  {
    if fields == [] {
      InertIsKept([]);
    } else {
      FieldIsRepaired(fmt, fields[0]);
      if |fields| > 1 {
        FieldsAreRepaired(fmt, fields[1..]);
        Separator(fmt, ",");
        RepairsAppend(PrintField(fmt, fields[0], true), PrintField(fmt, fields[0], false),
                      "," + fmt.pad, "," + fmt.pad);
        RepairsAppend(PrintField(fmt, fields[0], true) + ("," + fmt.pad),
                      PrintField(fmt, fields[0], false) + ("," + fmt.pad),
                      PrintFields(fmt, fields[1..], true), PrintFields(fmt, fields[1..], false));
      }
    }
  }

  // --------------------------------------------------------- the two together

  function SloppyWeave(fmt: Format, pieces: seq<Piece>, suffix: string): string {
    if pieces == [] then suffix
    else pieces[0].gap + (Print(fmt, pieces[0].value, true) + SloppyWeave(fmt, pieces[1..], suffix))
  }

  /** The prose between the values opens no string that it does not close. */
  ghost predicate Quiet(pieces: seq<Piece>) {
    forall p | p in pieces :: ModeAfter(OUTSIDE, p.gap) == OUTSIDE
  }

  function Cleaned(pieces: seq<Piece>): seq<Piece> {
    if pieces == [] then [] else [Piece(Escape(pieces[0].gap), pieces[0].value)] + Cleaned(pieces[1..])
  }

  lemma {:induction false} WeaveIsRepaired(fmt: Format, pieces: seq<Piece>, suffix: string)
    requires FormatOk(fmt) && Quiet(pieces)
    ensures Escape(SloppyWeave(fmt, pieces, suffix)) == Weave(fmt, Cleaned(pieces), Escape(suffix))
    decreases |pieces|
  {
    if pieces != [] {
      var p := pieces[0];
      assert p in pieces;
      assert forall q | q in pieces[1..] :: q in pieces;
      var rest := SloppyWeave(fmt, pieces[1..], suffix);
      WeaveIsRepaired(fmt, pieces[1..], suffix);
      PrintIsRepaired(fmt, p.value);
      EscapeAppend(OUTSIDE, Print(fmt, p.value, true), rest);
      EscapeAppend(OUTSIDE, p.gap, Print(fmt, p.value, true) + rest);
      assert Cleaned(pieces)[0] == Piece(Escape(p.gap), p.value) && Cleaned(pieces)[1..] == Cleaned(pieces[1..]);
    }
  }

  lemma {:induction false} CleanedKeepsValues(pieces: seq<Piece>)
    ensures |Cleaned(pieces)| == |pieces|
    ensures forall i | 0 <= i < |pieces| ::
              Cleaned(pieces)[i].value == pieces[i].value && Cleaned(pieces)[i].gap == Escape(pieces[i].gap)
    ensures FirstObject(Cleaned(pieces), None) == FirstObject(pieces, None)
    ensures FirstArray(Cleaned(pieces)) == FirstArray(pieces)
    ensures forall fallback :: FirstObject(Cleaned(pieces), fallback) == FirstObject(pieces, fallback)
    decreases |pieces|
  {
    if pieces != [] {
      CleanedKeepsValues(pieces[1..]);
      assert Cleaned(pieces)[1..] == Cleaned(pieces[1..]);
    }
  }

  /** Escaper and scanner together: values printed with raw line breaks in their strings, woven into prose, are
      found again exactly. */
  lemma SloppyRoundTrip(
    parse: string -> Option<Json>, fmt: Format, pieces: seq<Piece>, suffix: string, expectArray: bool)
    requires FormatOk(fmt) && Undoes(parse, fmt, pieces) && Quiet(pieces)
    requires Settled(pieces, expectArray) || OpenerFree(suffix)
    requires var direct := parse(Escape(SloppyWeave(fmt, pieces, suffix)));
             direct.None? || (expectArray && !direct.value.Arr?)
    ensures Embedded(parse, Escape(SloppyWeave(fmt, pieces, suffix)), expectArray)
         == if expectArray then FirstArray(pieces) else FirstObject(pieces, None)
  {
    hide Print, Embedded, FormatOk;
    var cleaned := Cleaned(pieces);
    WeaveIsRepaired(fmt, pieces, suffix);
    CleanedKeepsValues(pieces);
    EscapeKeepsOpeners(OUTSIDE, suffix);
    forall p | p in cleaned
      ensures Container(p.value) && OpenerFree(p.gap) && parse(Print(fmt, p.value, false)) == Some(p.value)
    {
      var i :| 0 <= i < |cleaned| && cleaned[i] == p;
      assert pieces[i] in pieces;
      EscapeKeepsOpeners(OUTSIDE, pieces[i].gap);
    }
    if Settled(pieces, expectArray) {
      var p :| p in pieces && p.value.Arr? == expectArray;
      var i :| 0 <= i < |pieces| && pieces[i] == p;
      assert cleaned[i] in cleaned;
    }
    ScannerRoundTrip(parse, fmt, cleaned, Escape(suffix), expectArray);
  }
}
