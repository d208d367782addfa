/** Which lines the config editor takes for table headers and for assignments: told from the characters of the line. */
module LineShapes {
  import opened Common
  import opened Toml
  import opened ConfigLines

  // ---- White space and comments ----

  lemma {:induction false} TrimStartAt(s: string, i: nat)
    requires i <= |s| && Blank(s[..i]) && (i < |s| ==> !IsSpace(s[i]))
    ensures TrimStart(s) == s[i..]
  {
    hide IsSpace;
    assert s == s[..i] + s[i..];
    TrimStartOf(s[..i], s[i..]);
  }

  /** From here to the end there is white space, and perhaps a comment. */
  predicate EndsAt(s: string, m: nat) {
    exists k: nat :: m <= k <= |s| && Blank(s[m..k]) && (k < |s| ==> s[k] == '#' && AllDots(s[k..]))
  }

  lemma {:induction false} EndsExactlyWhen(s: string, m: nat)
    requires m <= |s|
    ensures CommentTail(s[m..]) <==> EndsAt(s, m)
  {
    hide IsSpace, IsDot, EndsAt, TrimStart;
    if CommentTail(s[m..]) {
      EndFound(s, m);
    }
    if EndsAt(s, m) {
      EndReads(s, m);
    }
  }

  lemma {:induction false} EndFound(s: string, m: nat)
    requires m <= |s| && CommentTail(s[m..])
    ensures EndsAt(s, m)
  {
    hide IsSpace, IsDot, TrimStart;
    var rest := s[m..];
    TrimStartSplits(rest);
    var k := |rest| - |TrimStart(rest)|;
    assert rest[..k] == s[m..m + k] && rest[k..] == s[m + k..];
  }

  lemma {:induction false} EndReads(s: string, m: nat)
    requires m <= |s| && EndsAt(s, m)
    ensures CommentTail(s[m..])
  {
    HashIsNoSpace();
    hide IsSpace, IsDot, TrimStart;
    var rest := s[m..];
    var k: nat :| m <= k <= |s| && Blank(s[m..k]) && (k < |s| ==> s[k] == '#' && AllDots(s[k..]));
    assert rest[..k - m] == s[m..k] && rest[k - m..] == s[k..];
    TrimStartAt(rest, k - m);
  }

  lemma {:induction false} HashIsNoSpace()
    ensures !IsSpace('#') && !IsSpace('[') && !IsSpace(']') && !IsSpace('=')
  {
  }

  // ---- Headers ----

  /**
   * White space, an opening bracket at `i`, a name of at least one character and without `]` up to `n`, one or two
   * closing brackets, and the end. A second opening bracket is part of the name.
   */
  predicate HeaderAt(line: string, i: nat, n: nat, m: nat) {
    && i + 1 < n < m <= |line| && Blank(line[..i]) && line[i] == '['
    && (forall k :: i < k < n ==> line[k] != ']')
    && line[n] == ']' && (m == n + 1 || (m == n + 2 && line[n + 1] == ']'))
    && EndsAt(line, m)
  }

  lemma {:induction false} IndexOfIs(s: string, c: char, n: nat)
    requires n < |s| && s[n] == c && forall k :: 0 <= k < n ==> s[k] != c
    ensures IndexOf(s, c) == n
  {
    IndexOfMeans(s, c);
  }

  lemma {:induction false} HeaderExactlyWhen(line: string)
    ensures IsHeader(line) <==> exists i, n, m :: HeaderAt(line, i, n, m)
  {
    hide IsSpace, EndsAt, CommentTail, TrimStart;
    if IsHeader(line) {
      HeaderFound(line);
    }
    if i: nat, n: nat, m: nat :| HeaderAt(line, i, n, m) {
      HeaderReads(line, i, n, m);
    }
  }

  lemma {:induction false} HeaderFound(line: string)
    requires IsHeader(line)
    ensures exists i, n, m :: HeaderAt(line, i, n, m)
  {
    hide IsSpace, EndsAt, CommentTail, TrimStart, IndexOf;
    TrimStartSplits(line);
    var t := TrimStart(line);
    var i, j := |line| - |t|, IndexOf(t, ']');
    IndexOfMeans(t, ']');
    assert forall k :: 0 <= k < |t| ==> t[k] == line[i + k];
    var m := if i + j + 1 < |line| && line[i + j + 1] == ']' then i + j + 2 else i + j + 1;
    EndsExactlyWhen(line, m);
    assert t[j + 1..] == line[i + j + 1..];
    assert m == i + j + 2 ==> t[j + 1..][1..] == line[m..];
    assert HeaderAt(line, i, i + j, m);
  }

  lemma {:induction false} HeaderReads(line: string, i: nat, n: nat, m: nat)
    requires HeaderAt(line, i, n, m)
    ensures IsHeader(line)
  {
    hide IsSpace, CommentTail, TrimStart, IndexOf, IsDot;
    HashIsNoSpace();
    TrimStartAt(line, i);
    var t := TrimStart(line);
    assert t == line[i..];
    IndexOfIs(t, ']', n - i);
    EndsExactlyWhen(line, m);
    assert t[n - i + 1..] == line[n + 1..];
    if m == n + 1 {
      NoBracketAtEnd(line, m);
    } else {
      assert t[n - i + 1..][1..] == line[m..];
    }
  }

  lemma {:induction false} NoBracketAtEnd(s: string, m: nat)
    requires m <= |s| && EndsAt(s, m)
    ensures m < |s| ==> s[m] != ']'
  {
    HashIsNoSpace();
    hide IsSpace, IsDot;
    var k: nat :| m <= k <= |s| && Blank(s[m..k]) && (k < |s| ==> s[k] == '#' && AllDots(s[k..]));
    assert k > m ==> s[m..k][0] == s[m];
  }

  /** The header of one table: white space, the name in brackets, and the end. */
  predicate TableAt(line: string, name: string, i: nat) {
    && i + |name| + 2 <= |line| && Blank(line[..i])
    && line[i..i + |name| + 2] == "[" + name + "]" && EndsAt(line, i + |name| + 2)
  }

  lemma {:induction false} TableExactlyWhen(line: string, name: string)
    ensures IsTable(line, name) <==> exists i :: TableAt(line, name, i)
  {
    hide TableAt, IsTable;
    if IsTable(line, name) {
      TableFound(line, name);
    }
    if i: nat :| TableAt(line, name, i) {
      TableReads(line, name, i);
    }
  }

  lemma {:induction false} TableFound(line: string, name: string)
    requires IsTable(line, name)
    ensures exists i :: TableAt(line, name, i)
  {
    hide IsSpace, EndsAt, CommentTail, TrimStart;
    TrimStartSplits(line);
    var t := TrimStart(line);
    var i := |line| - |t|;
    EndsExactlyWhen(line, i + |name| + 2);
    assert t[|Header(name)|..] == line[i + |name| + 2..];
    assert line[i..i + |name| + 2] == t[..|name| + 2];
    assert TableAt(line, name, i);
  }

  lemma {:induction false} TableReads(line: string, name: string, i: nat)
    requires TableAt(line, name, i)
    ensures IsTable(line, name)
  {
    hide IsSpace, EndsAt, CommentTail, TrimStart;
    HashIsNoSpace();
    assert line[i] == line[i..i + |name| + 2][0];
    TrimStartAt(line, i);
    EndsExactlyWhen(line, i + |name| + 2);
    assert line[i..][|Header(name)|..] == line[i + |name| + 2..];
    assert line[i..][..|name| + 2] == line[i..i + |name| + 2];
  }

  // ---- Assignments ----

  /** White space, the key at `i`, white space, and an equals sign at `e`. */
  predicate KeyAt(line: string, key: string, i: nat, e: nat) {
    && i + |key| <= e < |line| && Blank(line[..i]) && line[i..i + |key|] == key
    && Blank(line[i + |key|..e]) && line[e] == '='
  }

  /** After the equals sign, with white space around it, the value at `a`. */
  predicate ValueAt(line: string, e: nat, a: nat, v: string) {
    && e < a < a + |v| <= |line| && Blank(line[e + 1..a]) && line[a..a + |v|] == v && Blank(line[a + |v|..])
    && !IsSpace(v[0]) && !IsSpace(v[|v| - 1]) && AllDots(v)
  }

  /** After the equals sign only white space, of which the last character that is no line break is at `a`. */
  predicate BlankValueAt(line: string, e: nat, a: nat, v: string) {
    && e < a < |line| && Blank(line[e + 1..]) && IsDot(line[a]) && v == [line[a]]
    && forall k :: a < k < |line| ==> !IsDot(line[k])
  }

  predicate Gives(line: string, e: nat, v: string) {
    exists a: nat :: a < |line| && (ValueAt(line, e, a, v) || BlankValueAt(line, e, a, v))
  }

  lemma {:induction false} RightExactlyWhen(line: string, key: string)
    requires IsKey(key)
    ensures AfterEquals(line, key).Some? ==>
      exists i, e :: KeyAt(line, key, i, e) && AfterEquals(line, key) == Some(line[e + 1..])
    ensures forall i: nat, e: nat :: KeyAt(line, key, i, e) ==> AfterEquals(line, key) == Some(line[e + 1..])
    ensures AfterEquals(line, key).Some? ==> !IsComment(line)
  {
    hide IsSpace, TrimStart;
    KeyChars(key, 0);
    if AfterEquals(line, key).Some? {
      NotComment(line, key);
    }
    if AfterEquals(line, key).Some? {
      RightFound(line, key);
    }
    forall i: nat, e: nat | KeyAt(line, key, i, e)
      ensures AfterEquals(line, key) == Some(line[e + 1..])
    {
      RightReads(line, key, i, e);
    }
  }

  lemma {:induction false} NotComment(line: string, key: string)
    requires key != "" && key[0] != '#' && AfterEquals(line, key).Some?
    ensures !IsComment(line)
  {
    hide TrimStart;
  }

  lemma {:induction false} RightFound(line: string, key: string)
    requires AfterEquals(line, key).Some?
    ensures exists i, e :: KeyAt(line, key, i, e) && AfterEquals(line, key) == Some(line[e + 1..])
  {
    hide IsSpace, TrimStart;
    TrimStartSplits(line);
    var t := TrimStart(line);
    var i := |line| - |t|;
    var rest := t[|key|..];
    TrimStartSplits(rest);
    var e := |line| - |TrimStart(rest)|;
    assert rest == line[i + |key|..];
    assert rest[..|rest| - |TrimStart(rest)|] == line[i + |key|..e];
    assert TrimStart(rest) == line[e..];
    assert line[i..i + |key|] == t[..|key|];
    assert KeyAt(line, key, i, e);
  }

  lemma {:induction false} RightReads(line: string, key: string, i: nat, e: nat)
    requires key != "" && !IsSpace(key[0]) && KeyAt(line, key, i, e)
    ensures AfterEquals(line, key) == Some(line[e + 1..])
  {
    hide IsSpace, TrimStart;
    HashIsNoSpace();
    assert line[i] == line[i..i + |key|][0];
    TrimStartAt(line, i);
    assert line[i..][..|key|] == key;
    var rest := line[i..][|key|..];
    assert rest == line[i + |key|..];
    assert rest[..e - i - |key|] == line[i + |key|..e];
    TrimStartAt(rest, e - i - |key|);
    assert rest[e - i - |key|..] == line[e..];
  }

  /**
   * A line assigns a value exactly when it is the key, an equals sign and that value, with white space around each of
   * them; a value of white space only counts as its last character.
   */
  lemma {:induction false} AssignedExactlyWhen(line: string, key: string, v: string)
    requires IsKey(key)
    ensures Assigned(line, key) == Some(v) <==> exists i: nat, e: nat :: KeyAt(line, key, i, e) && Gives(line, e, v)
  {
    hide IsSpace, IsComment, AfterEquals, ValueOf, Gives, Blank, IsKey;
    RightExactlyWhen(line, key);
    forall i: nat, e: nat | KeyAt(line, key, i, e)
      ensures e < |line| && (ValueOf(line[e + 1..]) == Some(v) <==> Gives(line, e, v))
    {
      ValueExactlyWhen(line, e, v);
    }
  }

  lemma {:induction false} ValueExactlyWhen(line: string, e: nat, v: string)
    requires e < |line|
    ensures ValueOf(line[e + 1..]) == Some(v) <==> Gives(line, e, v)
  {
    hide IsSpace, TrimStart, TrimEnd, Trim, LastDot, AllDots;
    var right := line[e + 1..];
    if ValueOf(right) == Some(v) {
      ValueFound(line, e, v);
    }
    if a: nat :| a < |line| && ValueAt(line, e, a, v) {
      ValueReads(line, e, a, v);
    }
    if a: nat :| a < |line| && BlankValueAt(line, e, a, v) {
      BlankValueReads(line, e, a, v);
    }
  }

  lemma {:induction false} ValueFound(line: string, e: nat, v: string)
    requires e < |line| && ValueOf(line[e + 1..]) == Some(v)
    ensures Gives(line, e, v)
  {
    hide IsSpace, TrimStart, TrimEnd, LastDot, AllDots;
    var right := line[e + 1..];
    var start := TrimStart(right);
    TrimStartSplits(right);
    TrimEndSplits(start);
    var a := |line| - |start|;
    TrimEmpty(right);
    if Trim(right) == "" {
      LastDotIs(right, v);
      var k: nat :| LastAt(right, k, v);
      forall m | e + 1 + k < m < |line|
        ensures !IsDot(line[m])
      {
        assert line[m] == right[m - e - 1];
      }
      assert BlankValueAt(line, e, e + 1 + k, v);
    } else {
      assert start == line[a..];
      assert right[..|right| - |start|] == line[e + 1..a];
      assert start[|v|..] == line[a + |v|..];
      TrimmedEdges(right);
      assert ValueAt(line, e, a, v);
    }
  }

  lemma {:induction false} TrimmedEdges(s: string)
    requires Trim(s) != ""
    ensures !IsSpace(Trim(s)[0]) && !IsSpace(Trim(s)[|Trim(s)| - 1])
  {
    hide IsSpace, TrimStart, TrimEnd;
    TrimStartSplits(s);
    TrimEndSplits(TrimStart(s));
    assert TrimStart(s) == Trim(s) + TrimStart(s)[|Trim(s)|..];
    assert Trim(s)[0] == TrimStart(s)[0];
  }

  /** The last character that is no line break. */
  predicate LastAt(s: string, k: nat, v: string) {
    k < |s| && v == [s[k]] && IsDot(s[k]) && forall m :: k < m < |s| ==> !IsDot(s[m])
  }

  lemma {:induction false} LastDotIs(s: string, v: string)
    ensures LastDot(s) == Some(v) <==> exists k: nat :: LastAt(s, k, v)
  {
    hide IsDot;
    if s != "" {
      var n := |s| - 1;
      LastDotIs(s[..n], v);
      if IsDot(s[n]) {
        assert LastAt(s, n, [s[n]]);
      } else {
        forall k: nat
          ensures LastAt(s, k, v) <==> LastAt(s[..n], k, v)
        {
          assert k < n && LastAt(s[..n], k, v) ==> forall m :: k < m < n ==> s[..n][m] == s[m];
          assert LastAt(s, k, v) ==> forall m :: k < m < n ==> s[..n][m] == s[m];
        }
      }
    }
  }

  lemma {:induction false} ValueReads(line: string, e: nat, a: nat, v: string)
    requires e < |line| && ValueAt(line, e, a, v)
    ensures ValueOf(line[e + 1..]) == Some(v)
  {
    hide IsSpace, TrimStart, TrimEnd, AllDots;
    var right, more := line[e + 1..], line[a + |v|..];
    assert right[..a - e - 1] == line[e + 1..a];
    assert right[a - e - 1..] == v + more;
    TrimStartAt(right, a - e - 1);
    TrimEndOf(v, more);
  }

  lemma {:induction false} BlankValueReads(line: string, e: nat, a: nat, v: string)
    requires e < |line| && BlankValueAt(line, e, a, v)
    ensures ValueOf(line[e + 1..]) == Some(v)
  {
    hide IsSpace, IsDot, TrimStart, TrimEnd;
    var right := line[e + 1..];
    TrimEmpty(right);
    assert right[a - e - 1] == line[a];
    assert forall m :: a - e - 1 < m < |right| ==> right[m] == line[m + e + 1];
    LastDotIs(right, v);
    assert LastAt(right, a - e - 1, v);
  }
}
