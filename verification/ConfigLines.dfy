/** How the config editor reads single lines: table headers, assignments, comments, and where they stand. */
module ConfigLines {
  import opened Common
  import opened Toml

  // ---- One line ----

  /** A character the regular expression dot matches. */
  predicate IsDot(c: char) {
    c != '\n' && c != '\r' && c != '\U{2028}' && c != '\U{2029}'
  }

  predicate AllDots(s: string) {
    forall i :: 0 <= i < |s| ==> IsDot(s[i])
  }

  /** White space and perhaps a comment, to the end of the line. */
  predicate CommentTail(s: string) {
    var t := TrimStart(s);
    t == "" || (t[0] == '#' && AllDots(t))
  }

  predicate IsComment(line: string) {
    var t := TrimStart(line);
    t != "" && t[0] == '#'
  }

  function IndexOf(s: string, c: char): (n: nat)
    ensures n <= |s|
  {
    if s == "" || s[0] == c then 0 else 1 + IndexOf(s[1..], c)
  }

  /** Any table header: one or two brackets around a name without `]`. */
  predicate IsHeader(line: string) {
    var t := TrimStart(line);
    var j := IndexOf(t, ']');
    t != "" && t[0] == '[' && 2 <= j < |t| &&
    var rest := t[j + 1..];
    CommentTail(if rest != "" && rest[0] == ']' then rest[1..] else rest)
  }

  function Header(name: string): string {
    "[" + name + "]"
  }

  /** The header of one table. */
  predicate IsTable(line: string, name: string) {
    var t := TrimStart(line);
    Header(name) <= t && CommentTail(t[|Header(name)|..])
  }

  /** The last character of a blank value that the dot matches, as backtracking leaves it. */
  function LastDot(s: string): Option<string> {
    if s == "" then None
    else if IsDot(s[|s| - 1]) then Some([s[|s| - 1]])
    else LastDot(s[..|s| - 1])
  }

  function ValueOf(right: string): Option<string> {
    var t := Trim(right);
    if t == "" then LastDot(right) else if AllDots(t) then Some(t) else None
  }

  /** What follows `key =` on a line. */
  function AfterEquals(line: string, key: string): (right: Option<string>)
    ensures right.Some? ==> |right.value| <= |line|
  {
    var t := TrimStart(line);
    if key <= t then
      var right := TrimStart(t[|key|..]);
      if right != "" && right[0] == '=' then Some(right[1..]) else None
    else None
  }

  /** The raw value a line assigns to a key; comment lines assign nothing. */
  function Assigned(line: string, key: string): Option<string> {
    if IsComment(line) then None
    else
      match AfterEquals(line, key)
      case None => None
      case Some(right) => ValueOf(right)
  }

  predicate IsBlank(line: string) {
    Trim(line) == ""
  }

  // ---- Many lines ----

  /** The index of the first header, or the number of lines. */
  function FirstTable(lines: seq<string>): (n: nat)
    ensures n <= |lines|
  {
    if lines == [] || IsHeader(lines[0]) then 0 else 1 + FirstTable(lines[1..])
  }

  /** The indices at which a list of answers is yes. */
  function Where(hits: seq<bool>): (r: seq<nat>)
    ensures forall k :: 0 <= k < |r| ==> r[k] < |hits| && hits[r[k]]
  {
    if hits == [] then []
    else
      var n := |hits| - 1;
      Where(hits[..n]) + if hits[n] then [n] else []
  }

  /** The indices of the lines that assign a key. */
  function Matches(lines: seq<string>, key: string): seq<nat> {
    Where(seq(|lines|, i requires 0 <= i < |lines| => Assigned(lines[i], key).Some?))
  }

  /** The indices of the headers of a table. */
  function Headers(lines: seq<string>, name: string): seq<nat> {
    Where(seq(|lines|, i requires 0 <= i < |lines| => IsTable(lines[i], name)))
  }

  datatype Assignment = Assignment(line: string, value: string, index: nat)

  datatype Range = Range(header: nat, end: nat)

  /** The one table of a name: its header and where it ends. */
  function FindTable(lines: seq<string>, name: string): (r: Result<Option<Range>>)
    ensures r.Ok? && r.value.Some? ==> r.value.value.header < r.value.value.end <= |lines|
  {
    var hs := Headers(lines, name);
    if |hs| > 1 then Err("duplicate table")
    else if |hs| == 0 then Ok(None)
    else Ok(Some(Range(hs[0], hs[0] + 1 + FirstTable(lines[hs[0] + 1..]))))
  }

  /** The one assignment of a key among lines that start at an offset. */
  function OnlyMatch(lines: seq<string>, key: string, offset: nat): (r: Result<Option<Assignment>>)
    ensures r.Ok? && r.value.Some? ==> offset <= r.value.value.index < offset + |lines|
  {
    var ms := Matches(lines, key);
    if |ms| > 1 then Err("duplicate assignment")
    else if |ms| == 0 then Ok(None)
    else Ok(Some(Assignment(lines[ms[0]], Assigned(lines[ms[0]], key).value, offset + ms[0])))
  }

  // ---- Facts about searches ----

  predicate NoneOf(hits: seq<bool>) {
    forall i :: 0 <= i < |hits| ==> !hits[i]
  }

  predicate OnlyAt(hits: seq<bool>, k: nat) {
    k < |hits| && hits[k] && forall i :: 0 <= i < |hits| && i != k ==> !hits[i]
  }

  lemma {:induction false} WhereNone(hits: seq<bool>)
    ensures Where(hits) == [] <==> NoneOf(hits)
  {
    if hits != [] {
      var init := hits[..|hits| - 1];
      WhereNone(init);
      assert forall i :: 0 <= i < |init| ==> hits[i] == init[i];
    }
  }

  lemma {:induction false} WhereOnly(hits: seq<bool>, k: nat)
    requires OnlyAt(hits, k)
    ensures Where(hits) == [k]
  {
    var init := hits[..|hits| - 1];
    assert forall i :: 0 <= i < |init| ==> hits[i] == init[i];
    if k < |init| {
      WhereOnly(init, k);
    } else {
      WhereNone(init);
    }
  }

  lemma {:induction false} WhereOne(hits: seq<bool>)
    requires |Where(hits)| == 1
    ensures OnlyAt(hits, Where(hits)[0])
  {
    var init := hits[..|hits| - 1];
    assert forall i :: 0 <= i < |init| ==> hits[i] == init[i];
    WhereNone(init);
    if !hits[|init|] {
      WhereOne(init);
    }
  }

  // ---- Facts about lines ----

  lemma {:induction false} IndexOfMeans(s: string, c: char)
    ensures var n := IndexOf(s, c);
      (forall i :: 0 <= i < n ==> s[i] != c) && (n < |s| ==> s[n] == c)
  {
    if s != "" && s[0] != c {
      IndexOfMeans(s[1..], c);
      assert forall i :: 1 <= i < IndexOf(s, c) ==> s[i] == s[1..][i - 1];
    }
  }

  /** Plain keys: letters, digits and underscores. */
  predicate IsKey(key: string) {
    key != "" && forall i :: 0 <= i < |key| ==>
      'a' <= key[i] <= 'z' || 'A' <= key[i] <= 'Z' || '0' <= key[i] <= '9' || key[i] == '_'
  }

  /** Printable text. */
  predicate Printable(s: string) {
    forall i :: 0 <= i < |s| ==> ' ' <= s[i] <= '~'
  }

  lemma {:induction false} KeyChars(key: string, i: nat)
    requires IsKey(key) && i < |key|
    ensures !IsSpace(key[i]) && key[i] !in {'#', '[', '=', ' ', ']'}
  {
  }

  lemma {:induction false} NotBlank(line: string)
    requires TrimStart(line) != ""
    ensures !IsBlank(line)
  {
    TrimEmpty(line);
    if Blank(line) {
      assert line + "" == line;
      TrimStartOf(line, "");
    }
  }

  lemma {:induction false} OneKey(line: string, key: string, other: string)
    requires AfterEquals(line, key).Some? && IsKey(key) && IsKey(other) && key != other
    ensures AfterEquals(line, other).None?
  {
    var t := TrimStart(line);
    if other <= t {
      if |key| < |other| {
        KeyEnds(t, key, other);
      } else if |other| < |key| {
        KeyEnds(t, other, key);
      } else {
        SamePrefix(t, key, other);
      }
    }
  }

  lemma {:induction false} SamePrefix(t: string, a: string, b: string)
    requires a <= t && b <= t && |a| == |b|
    ensures a == b
  {
  }

  /** After a shorter key comes a key character of the longer one, which is neither white space nor `=`. */
  lemma {:induction false} KeyEnds(t: string, key: string, longer: string)
    requires key <= t && longer <= t && |key| < |longer| && IsKey(longer)
    ensures var r := TrimStart(t[|key|..]); r != "" && r[0] != '='
  {
    KeyChars(longer, |key|);
    assert t[|key|] == longer[|key|];
  }

  /** A line written as `key = value`. */
  lemma {:induction false} WrittenLine(key: string, value: string)
    requires IsKey(key) && value != "" && !IsSpace(value[0]) && !IsSpace(value[|value| - 1]) && AllDots(value)
    ensures var line := key + " = " + value;
      && TrimStart(line) == line && AfterEquals(line, key) == Some(" " + value)
      && Assigned(line, key) == Some(value) && !IsComment(line) && !IsHeader(line) && !IsBlank(line)
  {
    var line := key + " = " + value;
    KeyChars(key, 0);
    assert line[0] == key[0];
    assert line[|key|..] == " = " + value;
    AfterSpace("= " + value);
    assert " " + ("= " + value) == " = " + value;
    assert ("= " + value)[1..] == " " + value;
    AfterSpace(value);
    TrimEndOf(value, "");
    assert value + "" == value;
    NotBlank(line);
  }

  lemma {:induction false} AfterSpace(s: string)
    requires s != "" && !IsSpace(s[0])
    ensures TrimStart(" " + s) == s
  {
    assert (" " + s)[1..] == s;
  }
}
