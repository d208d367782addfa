/** The managed feature lines, and what reading them gives. */
module FeatureLines {
  import opened Common
  import opened Toml
  import opened ConfigLines
  import opened Document
  import opened BodyEdits
  import opened ConfigEdit
  import opened RouteEdits
  import InlineTable

  // ---- Keys and table names ----

  lemma {:induction false} FeatureKeys()
    ensures IsKey(MULTI_AGENT) && IsKey(MULTI_AGENT_V2) && IsKey(ENABLED) && IsKey(MAX_DEPTH)
    ensures MULTI_AGENT != MULTI_AGENT_V2 && |MULTI_AGENT| < |MULTI_AGENT_V2|
  {
    assert |MULTI_AGENT| == 11 && |MULTI_AGENT_V2| == 14;
  }

  lemma {:induction false} FeatureNames()
    ensures IsNameLike(FEATURES) && IsNameLike(V2_TABLE) && IsNameLike(AGENTS)
    ensures FEATURES != V2_TABLE && FEATURES != AGENTS && V2_TABLE != AGENTS
  {
    assert |FEATURES| == 8 && |V2_TABLE| == 23 && |AGENTS| == 6;
  }

  /** Visible characters other than the closing bracket. */
  predicate IsNameLike(s: string) {
    s != "" && forall i :: 0 <= i < |s| ==> '!' <= s[i] <= '~' && s[i] != ']'
  }

  // ---- Scalars with a note ----

  /** Letters and digits. */
  predicate IsWord(s: string) {
    s != "" && forall i :: 0 <= i < |s| ==> 'a' <= s[i] <= 'z' || '0' <= s[i] <= '9'
  }

  lemma {:induction false} WordEnds(s: string)
    requires IsWord(s)
    ensures !IsSpace(s[0]) && !IsSpace(s[|s| - 1]) && Printable(s) && InlineTable.Dull(s + " ")
  {
  }

  /** A word, a space and a comment: the scalar is the word. */
  lemma {:induction false} ScalarOfNoted(word: string, note: string)
    requires IsWord(word) && note != "" && note[0] == '#'
    ensures Scalar(word + " " + note) == word
  {
    WordEnds(word);
    InlineTable.DullIsClean(word + " ");
    InlineTable.ClosedScan(word + " ");
    var s := word + " " + note;
    hide CommentStart, Scan, IsSpace, InlineTable.Closed;
    CommentStartConcat(word + " ", note);
    assert s[..|word| + 1] == word + " ";
    TrimEndOf(word, " ") by {
      OneSpace();
    }
    TrimmedWord(word);
  }

  lemma {:induction false} OneSpace()
    ensures Blank(" ")
  {
  }

  lemma {:induction false} TrimmedWord(word: string)
    requires word != "" && !IsSpace(word[0]) && !IsSpace(word[|word| - 1])
    ensures Trim(word) == word
  {
    TrimEndOf(word, "");
    assert word + "" == word;
  }

  /** A managed line `key = word # note`. */
  lemma {:induction false} NotedLine(key: string, word: string, note: string)
    requires IsKey(key) && IsWord(word) && OWNER <= note && Printable(note) && !IsSpace(note[|note| - 1])
    ensures var line := ManagedLine(key, word, note);
      && Assigned(line, key) == Some(word + " " + note) && Scalar(word + " " + note) == word
      && AfterEquals(line, key).Some? && Writable(line) && !IsBlank(line) && !IsManagedComment(line)
  {
    var value := word + " " + note;
    WordEnds(word);
    OwnerIs();
    assert Printable(" ");
    hide IsSpace, IsWord;
    PrintableConcat(word, " ");
    PrintableConcat(word + " ", note);
    PrintableIs(value);
    assert value[0] == word[0] && value[|value| - 1] == note[|note| - 1];
    WrittenLine(key, value);
    ScalarOfNoted(word, note);
    LineUnbroken(key, value);
    assert ManagedLine(key, word, note) == key + " = " + value;
    KeyIsText(key, ManagedLine(key, word, note));
  }

  lemma {:induction false} NotePieces(a: string, b: string)
    requires Printable(a) && Printable(b) && b != "" && !IsSpace(b[|b| - 1]) && OWNER <= a
    ensures Printable(a + b) && OWNER <= a + b && !IsSpace((a + b)[|a + b| - 1])
  {
    PrintableConcat(a, b);
  }

  lemma {:induction false} MultiAgentNoteIs()
    ensures Printable(MULTI_AGENT_NOTE) && OWNER <= MULTI_AGENT_NOTE
      && !IsSpace(MULTI_AGENT_NOTE[|MULTI_AGENT_NOTE| - 1])
  {
    OwnerIs();
    assert Printable(": enables routed ") && Printable("Web subagents.");
    PrintableConcat(OWNER, ": enables routed ");
    NotePieces(OWNER + ": enables routed ", "Web subagents.");
  }

  lemma {:induction false} V2NoteIs()
    ensures Printable(V2_NOTE) && OWNER <= V2_NOTE && !IsSpace(V2_NOTE[|V2_NOTE| - 1])
  {
    OwnerIs();
    assert Printable(": keeps routed ") && Printable("Web subagent ") && Printable("payloads ")
        && Printable("readable.");
    PrintableConcat(OWNER, ": keeps routed ");
    PrintableConcat(OWNER + ": keeps routed ", "Web subagent ");
    PrintableConcat(OWNER + ": keeps routed " + "Web subagent ", "payloads ");
    NotePieces(OWNER + ": keeps routed " + "Web subagent " + "payloads ", "readable.");
  }

  lemma {:induction false} DepthNoteIs()
    ensures Printable(DEPTH_NOTE) && OWNER <= DEPTH_NOTE && !IsSpace(DEPTH_NOTE[|DEPTH_NOTE| - 1])
  {
    OwnerIs();
    assert Printable(": allows nested ") && Printable("routed Web ") && Printable("subagents in ");
    assert Printable("Compatibility V1.");
    PrintableConcat(OWNER, ": allows nested ");
    PrintableConcat(OWNER + ": allows nested ", "routed Web ");
    PrintableConcat(OWNER + ": allows nested " + "routed Web ", "subagents in ");
    NotePieces(OWNER + ": allows nested " + "routed Web " + "subagents in ", "Compatibility V1.");
  }

  lemma {:induction false} BooleanWords()
    ensures IsWord("true") && IsWord("false") && IsBoolean("true") && IsBoolean("false")
  {
  }

  /** A line the editor can write for a boolean key, and reads back as that boolean. */
  ghost predicate SetsTo(line: string, key: string, word: string) {
    && Assigned(line, key).Some? && Scalar(Assigned(line, key).value) == word
    && AfterEquals(line, key).Some? && Writable(line) && !IsBlank(line) && !IsManagedComment(line)
  }

  lemma {:induction false} FeatureLinesRead()
    ensures SetsTo(MultiAgentLine(), MULTI_AGENT, "true")
    ensures SetsTo(V2Line(), MULTI_AGENT_V2, "false")
    ensures SetsTo(V2TableLine(), ENABLED, "false")
    ensures Assigned(MultiAgentLine(), MULTI_AGENT_V2).None? && Assigned(V2Line(), MULTI_AGENT).None?
  {
    hide Assigned, AfterEquals, Scalar, Writable, IsManagedComment, IsBlank, ManagedLine;
    FeatureKeys();
    BooleanWords();
    MultiAgentNoteIs();
    V2NoteIs();
    NotedLine(MULTI_AGENT, "true", MULTI_AGENT_NOTE);
    NotedLine(MULTI_AGENT_V2, "false", V2_NOTE);
    NotedLine(ENABLED, "false", V2_NOTE);
    OtherKey(MultiAgentLine(), MULTI_AGENT, MULTI_AGENT_V2);
    OtherKey(V2Line(), MULTI_AGENT_V2, MULTI_AGENT);
  }

  // ---- The depth ----

  lemma {:induction false} DecimalReads(n: nat)
    ensures IsDigits(Decimal(n)) && NumberOf(Decimal(n)) == n
  {
    if n >= 10 {
      DecimalReads(n / 10);
      assert Decimal(n)[..|Decimal(n)| - 1] == Decimal(n / 10);
    } else {
      assert Decimal(n)[..0] == "";
    }
  }

  lemma {:induction false} NoUnderscores(s: string)
    requires forall i :: 0 <= i < |s| ==> s[i] != '_'
    ensures WithoutUnderscores(s) == s
  {
    if s != "" {
      NoUnderscores(s[1..]);
    }
  }

  lemma {:induction false} DepthLineReads(n: nat)
    requires 1 <= n <= MAX_SAFE
    ensures SetsTo(DepthLine(n), MAX_DEPTH, Decimal(n))
    ensures WithoutUnderscores(Decimal(n)) == Decimal(n) && IsDepth(Decimal(n))
  {
    hide Assigned, AfterEquals, Scalar, Writable, IsManagedComment, IsBlank, ManagedLine, Decimal;
    FeatureKeys();
    DecimalReads(n);
    DepthNoteIs();
    NoUnderscores(Decimal(n));
    NotedLine(MAX_DEPTH, Decimal(n), DEPTH_NOTE);
  }

  // ---- Headers and blank lines ----

  lemma {:induction false} HeaderReads(name: string)
    requires IsNameLike(name)
    ensures IsTable(Header(name), name) && IsHeader(Header(name))
    ensures Unbroken(Header(name)) && NoBom(Header(name)) && !IsManagedComment(Header(name)) && !IsBlank(Header(name))
  {
    var h := Header(name);
    assert h[0] == '[';
    assert TrimStart(h) == h;
    forall i | 0 <= i < |h|
      ensures !IsBreak(h[i])
    {
      assert i == 0 || i == |h| - 1 || h[i] == name[i - 1];
    }
    HeaderIndex(name);
    assert h[|h|..] == "" && h[|name| + 2..] == "";
    NotBlank(h);
    OwnerIs();
    RouteCommentIs();
    assert OWNER <= OLD_COMMENT;
  }

  lemma {:induction false} HeaderIndex(name: string)
    requires IsNameLike(name)
    ensures IndexOf(Header(name), ']') == |name| + 1
  {
    IndexOfMeans(Header(name), ']');
    assert forall i :: 1 <= i <= |name| ==> Header(name)[i] == name[i - 1];
    assert Header(name)[|name| + 1] == ']';
  }

  lemma {:induction false} EmptyLineReads(key: string)
    requires IsKey(key)
    ensures Assigned("", key).None? && Writable("") && IsBlank("") && !IsManagedComment("")
  {
    OwnerIs();
    RouteCommentIs();
  }

  lemma {:induction false} BlankAssigns(line: string, key: string)
    requires IsBlank(line) && IsKey(key)
    ensures Assigned(line, key).None? && !IsHeader(line)
  {
    hide IsSpace;
    TrimEmpty(line);
    TrimStartOf(line, "");
    assert line + "" == line;
    KeyChars(key, 0);
  }
}
