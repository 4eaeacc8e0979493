/** `stripJsonComments` of src/core/common.ts:104-142: the loop, and what it computes turn by turn. */
module JsonComments {
  import opened Options

  datatype Mode = Code | InString | Line | Block

  /** One turn of the loop: what it copies, how far it moves, and the mode it leaves. A turn in a comment is one
      iteration of the inner loop that skips it. */
  datatype Turn = Turn(copied: string, width: nat, mode: Mode)

  function At(s: string, i: nat): Option<char> {
    if i < |s| then Some(s[i]) else None
  }

  function Move(m: Mode, s: string): (t: Turn)
    requires s != []
    ensures 1 <= t.width <= |s|
  {
    var c := s[0];
    var next := At(s, 1);
    match m
    case InString =>
      if c == '\\' then
        if next.Some? then Turn([c, next.value], 2, InString) else Turn([c], 1, InString)
      else Turn([c], 1, if c == '"' then Code else InString)
    case Code =>
      if c == '"' then Turn([c], 1, InString)
      else if c == '/' && next == Some('/') then Turn([], 2, Line)
      else if c == '/' && next == Some('*') then Turn([], 2, Block)
      else Turn([c], 1, Code)
    case Line => if c == '\n' then Turn([c], 1, Code) else Turn([], 1, Line)
    case Block => if c == '*' && next == Some('/') then Turn([], 2, Code) else Turn([], 1, Block)
  }

  function StripFrom(m: Mode, s: string): string
    decreases |s|
  {
    if s == [] then []
    else
      var t := Move(m, s);
      t.copied + StripFrom(t.mode, s[t.width..])
  }

  function Strip(s: string): string {
    StripFrom(Code, s)
  }

  lemma StripHead(m: Mode, s: string, i: nat)
    requires i < |s|
    ensures var t := Move(m, s[i..]);
            i + t.width <= |s| && StripFrom(m, s[i..]) == t.copied + StripFrom(t.mode, s[i + t.width..])
  {
    var t := Move(m, s[i..]);
    assert s[i..][t.width..] == s[i + t.width..];
  }

  lemma StripNothing(m: Mode)
    ensures StripFrom(m, []) == []
  {
  }

  method StripJsonComments(text: string) returns (result: string)
    ensures result == Strip(text)
  {
    hide StripFrom;
    result := "";
    var i := 0;
    var inString := false;
    assert text[0..] == text;
    while i < |text|
      invariant 0 <= i <= |text|
      invariant Strip(text) == result + StripFrom(if inString then InString else Code, text[i..])
      decreases |text| - i
    {
      ghost var m := if inString then InString else Code;
      ghost var t := Move(m, text[i..]);
      StripHead(m, text, i);
      assert At(text[i..], 1) == At(text, i + 1);
      assert result + (t.copied + StripFrom(t.mode, text[i + t.width..]))
          == (result + t.copied) + StripFrom(t.mode, text[i + t.width..]);
      if inString {
        if text[i] == '\\' {
          result := result + (if i + 1 < |text| then [text[i], text[i + 1]] else [text[i]]);
          i := if i + 2 <= |text| then i + 2 else |text|;
          continue;
        }
        if text[i] == '"' {
          inString := false;
        }
        result := result + [text[i]];
        i := i + 1;
        continue;
      }
      if text[i] == '"' {
        inString := true;
        result := result + [text[i]];
        i := i + 1;
        continue;
      }
      if text[i] == '/' && At(text, i + 1) == Some('/') {
        assert result + [] == result;
        i := SkipLine(text, i + 2);
        continue;
      }
      if text[i] == '/' && At(text, i + 1) == Some('*') {
        assert result + [] == result;
        i := SkipBlock(text, i + 2);
        continue;
      }
      result := result + [text[i]];
      i := i + 1;
    }
    assert text[i..] == [];
    StripNothing(Code);
    StripNothing(InString);
  }

  /** Up to the line break, which is kept. */
  method SkipLine(text: string, start: nat) returns (i: nat)
    requires start <= |text|
    ensures start <= i <= |text|
    ensures StripFrom(Line, text[start..]) == StripFrom(Code, text[i..])
  {
    hide StripFrom;
    i := start;
    while i < |text| && text[i] != '\n'
      invariant start <= i <= |text|
      invariant StripFrom(Line, text[start..]) == StripFrom(Line, text[i..])
    {
      StripHead(Line, text, i);
      i := i + 1;
    }
    if i < |text| {
      StripHead(Line, text, i);
      StripHead(Code, text, i);
    } else {
      assert text[i..] == [];
      StripNothing(Line);
      StripNothing(Code);
    }
  }

  /** Past the closing mark, or to the end of an unclosed comment. */
  method SkipBlock(text: string, start: nat) returns (i: nat)
    requires start <= |text|
    ensures start <= i <= |text|
    ensures StripFrom(Block, text[start..]) == StripFrom(Code, text[i..])
  {
    hide StripFrom;
    i := start;
    while i < |text| && !(text[i] == '*' && At(text, i + 1) == Some('/'))
      invariant start <= i <= |text|
      invariant StripFrom(Block, text[start..]) == StripFrom(Block, text[i..])
    {
      StripHead(Block, text, i);
      assert At(text[i..], 1) == At(text, i + 1);
      i := i + 1;
    }
    if i < |text| {
      StripHead(Block, text, i);
      assert At(text[i..], 1) == At(text, i + 1);
      i := i + 2;
    } else {
      assert text[i..] == [];
      StripNothing(Block);
      StripNothing(Code);
    }
  }
}
