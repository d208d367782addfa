/** The small part of TOML the config editor reads: quoting, comments, and the shape of a line. */
module Toml {
  import opened Common

  // ---- White space ----

  function TrimStart(s: string): (r: string)
    ensures |r| <= |s|
  {
    if s != "" && IsSpace(s[0]) then TrimStart(s[1..]) else s
  }

  function TrimEnd(s: string): (r: string)
    ensures |r| <= |s|
  {
    if s != "" && IsSpace(s[|s| - 1]) then TrimEnd(s[..|s| - 1]) else s
  }

  function Trim(s: string): string {
    TrimEnd(TrimStart(s))
  }

  lemma {:induction false} TrimStartDrops(s: string)
    ensures var k := |s| - |TrimStart(s)|;
      TrimStart(s) == s[k..] && (forall i :: 0 <= i < k ==> IsSpace(s[i])) && (k < |s| ==> !IsSpace(s[k]))
  {
    hide IsSpace;
    if s != "" && IsSpace(s[0]) {
      var rest := s[1..];
      TrimStartDrops(rest);
      var k := |rest| - |TrimStart(rest)|;
      assert rest[k..] == s[k + 1..];
      assert forall i :: 1 <= i < |s| ==> s[i] == rest[i - 1];
    }
  }

  /** Trimming the start drops exactly the leading white space. */
  lemma {:induction false} TrimStartSplits(s: string)
    ensures |TrimStart(s)| <= |s|
    ensures s == s[..|s| - |TrimStart(s)|] + TrimStart(s) && Blank(s[..|s| - |TrimStart(s)|])
    ensures TrimStart(s) != "" ==> !IsSpace(TrimStart(s)[0])
  {
    hide IsSpace, TrimStart;
    TrimStartDrops(s);
  }

  lemma {:induction false} TrimEndDrops(s: string)
    ensures var k := |TrimEnd(s)|;
      TrimEnd(s) == s[..k] && (forall i :: k <= i < |s| ==> IsSpace(s[i])) && (k > 0 ==> !IsSpace(s[k - 1]))
  {
    hide IsSpace;
    if s != "" && IsSpace(s[|s| - 1]) {
      var rest := s[..|s| - 1];
      TrimEndDrops(rest);
      assert rest[..|TrimEnd(rest)|] == s[..|TrimEnd(rest)|];
      assert forall i :: 0 <= i < |rest| ==> s[i] == rest[i];
    }
  }

  lemma {:induction false} TrimEndSplits(s: string)
    ensures |TrimEnd(s)| <= |s|
    ensures s == TrimEnd(s) + s[|TrimEnd(s)|..] && Blank(s[|TrimEnd(s)|..])
    ensures TrimEnd(s) != "" ==> !IsSpace(TrimEnd(s)[|TrimEnd(s)| - 1])
  {
    hide IsSpace, TrimEnd;
    TrimEndDrops(s);
  }

  /** ... and is determined by that. */
  lemma {:induction false} TrimStartOf(spaces: string, rest: string)
    requires Blank(spaces) && (rest != "" ==> !IsSpace(rest[0]))
    ensures TrimStart(spaces + rest) == rest
  {
    hide IsSpace;
    if spaces == "" {
      assert spaces + rest == rest;
    } else {
      TrimStartOf(spaces[1..], rest);
      assert (spaces + rest)[1..] == spaces[1..] + rest;
    }
  }

  lemma {:induction false} TrimEndOf(rest: string, spaces: string)
    requires Blank(spaces) && (rest != "" ==> !IsSpace(rest[|rest| - 1]))
    ensures TrimEnd(rest + spaces) == rest
  {
    hide IsSpace;
    if spaces == "" {
      assert rest + spaces == rest;
    } else {
      TrimEndOf(rest, spaces[..|spaces| - 1]);
      assert (rest + spaces)[..|rest + spaces| - 1] == rest + spaces[..|spaces| - 1];
    }
  }

  lemma {:induction false} TrimEmpty(s: string)
    ensures Trim(s) == "" <==> Blank(s)
  {
    hide IsSpace;
    TrimStartSplits(s);
    TrimEndSplits(TrimStart(s));
    if Blank(s) {
      TrimStartOf(s, "");
      assert s + "" == s;
    }
  }

  // ---- Quotes and brackets ----

  datatype Quote = Bare | Single | Double

  /** Where a left-to-right scan stands: inside which quote, after a backslash, how deep in brackets. */
  datatype Lex = Lex(quote: Quote, escaped: bool, square: int, curly: int, failed: bool)

  const START: Lex := Lex(Bare, false, 0, 0, false)

  /** Is this character outside every quote, and not a quote itself? */
  predicate Plain(l: Lex, c: char) {
    !l.escaped && l.quote.Bare? && c != '"' && c != '\''
  }

  function Deeper(l: Lex, square: int, curly: int): Lex {
    l.(square := l.square + square, curly := l.curly + curly,
       failed := l.failed || l.square + square < 0 || l.curly + curly < 0)
  }

  function Advance(l: Lex, c: char): Lex {
    if l.escaped then l.(escaped := false)
    else if l.quote.Double? && c == '\\' then l.(escaped := true)
    else if l.quote.Double? then (if c == '"' then l.(quote := Bare) else l)
    else if l.quote.Single? then (if c == '\'' then l.(quote := Bare) else l)
    else if c == '"' then l.(quote := Double)
    else if c == '\'' then l.(quote := Single)
    else if c == '[' then Deeper(l, 1, 0)
    else if c == ']' then Deeper(l, -1, 0)
    else if c == '{' then Deeper(l, 0, 1)
    else if c == '}' then Deeper(l, 0, -1)
    else l
  }

  function Scan(l: Lex, text: string): Lex {
    if text == "" then l else Advance(Scan(l, text[..|text| - 1]), text[|text| - 1])
  }

  lemma {:induction false} ScanConcat(l: Lex, a: string, b: string)
    ensures Scan(l, a + b) == Scan(Scan(l, a), b)
  {
    if b == "" {
      assert a + b == a;
    } else {
      ScanConcat(l, a, b[..|b| - 1]);
      assert (a + b)[..|a + b| - 1] == a + b[..|b| - 1];
    }
  }

  // ---- Comments ----

  /** The index of the `#` that starts a comment, or the length. */
  function CommentStart(s: string): (n: nat)
    ensures n <= |s| && (n < |s| ==> s[n] == '#')
  {
    if s == "" then 0
    else
      var m := |s| - 1;
      var n := CommentStart(s[..m]);
      if n < m then n
      else if s[m] == '#' && Plain(Scan(START, s[..m]), '#') then m
      else m + 1
  }

  function StripComment(s: string): string {
    TrimEnd(s[..CommentStart(s)])
  }

  lemma {:induction false} CommentStartConcat(a: string, b: string)
    requires CommentStart(a) == |a|
    requires b == "" || (b[0] == '#' && Plain(Scan(START, a), '#'))
    ensures CommentStart(a + b) == |a|
  {
    if b == "" {
      assert a + b == a;
    } else {
      var init := b[..|b| - 1];
      assert (a + b)[..|a + b| - 1] == a + init;
      if init != "" {
        CommentStartConcat(a, init);
      } else {
        assert a + init == a;
      }
    }
  }

  method StripTomlComment(value: string) returns (r: string)
    ensures r == StripComment(value)
  {
    var quote, escaped := Bare, false;
    for index := 0 to |value|
      invariant quote == Scan(START, value[..index]).quote && escaped == Scan(START, value[..index]).escaped
      invariant CommentStart(value[..index]) == index
    {
      var c := value[index];
      assert value[..index + 1][..index] == value[..index];
      if escaped {
        escaped := false;
        continue;
      }
      if quote == Double && c == '\\' {
        escaped := true;
        continue;
      }
      if quote != Bare {
        if c == (if quote == Double then '"' else '\'') {
          quote := Bare;
        }
        continue;
      }
      if c == '"' || c == '\'' {
        quote := if c == '"' then Double else Single;
        continue;
      }
      if c == '#' {
        CommentStaysFirst(value, index);
        return TrimEnd(value[..index]);
      }
    }
    assert value[..|value|] == value;
    r := TrimEnd(value);
  }

  lemma {:induction false} CommentStaysFirst(s: string, n: nat)
    requires n < |s| && s[n] == '#' && CommentStart(s[..n]) == n && Plain(Scan(START, s[..n]), '#')
    ensures CommentStart(s) == n
    decreases |s|
  {
    if |s| > n + 1 {
      assert s[..|s| - 1][..n] == s[..n];
      CommentStaysFirst(s[..|s| - 1], n);
    }
  }
}
