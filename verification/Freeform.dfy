/**
 * The live preview of a freeform tool call: the model sends a JSON object with one string field, in
 * arbitrary chunks, and the bridge streams the string's value while it is still incomplete.
 */
module Freeform {
  import opened Common

  const QUOTE: CodeUnit := 0x22
  const BACKSLASH: CodeUnit := 0x5C
  const SLASH: CodeUnit := 0x2F
  const LETTER_B: CodeUnit := 0x62
  const LETTER_F: CodeUnit := 0x66
  const LETTER_N: CodeUnit := 0x6E
  const LETTER_R: CodeUnit := 0x72
  const LETTER_T: CodeUnit := 0x74
  const LETTER_U: CodeUnit := 0x75

  /** The compact wrapper: an opening brace, the quoted key "input", a colon and an opening quote. */
  const WRAP: Text := [0x7B, QUOTE, 0x69, 0x6E, 0x70, 0x75, 0x74, QUOTE, 0x3A, QUOTE]

  predicate IsHex(c: CodeUnit) {
    0x30 <= c <= 0x39 || 0x41 <= c <= 0x46 || 0x61 <= c <= 0x66
  }

  function HexDigit(c: CodeUnit): nat
    requires IsHex(c)
  {
    if c <= 0x39 then c as int - 0x30 else if c <= 0x46 then c as int - 0x37 else c as int - 0x57
  }

  function HexValue(d: Text): CodeUnit
    requires |d| == 4 && forall i :: 0 <= i < 4 ==> IsHex(d[i])
  {
    (((HexDigit(d[0]) * 16 + HexDigit(d[1])) * 16 + HexDigit(d[2])) * 16 + HexDigit(d[3])) as CodeUnit
  }

  predicate FourHex(d: Text) {
    |d| == 4 && IsHex(d[0]) && IsHex(d[1]) && IsHex(d[2]) && IsHex(d[3])
  }

  /** What a short escape contributes: line feed, tab and carriage return, otherwise the unit itself. */
  function ShortEscape(c: CodeUnit): CodeUnit {
    if c == LETTER_N then 0x0A else if c == LETTER_T then 0x09 else if c == LETTER_R then 0x0D else c
  }

  /** The value shown for a string body that may stop anywhere. */
  function Decode(body: Text): Text {
    if body == [] || body[0] == QUOTE then []
    else if body[0] != BACKSLASH then [body[0]] + Decode(body[1..])
    else if |body| == 1 then []
    else if body[1] != LETTER_U then [ShortEscape(body[1])] + Decode(body[2..])
    else if |body| >= 6 && FourHex(body[2..6]) then [HexValue(body[2..6])] + Decode(body[6..])
    else []
  }

  /** The best-effort unwrapped value of a partial argument buffer. */
  function Partial(args: Text): Text {
    if WRAP <= args then Decode(args[|WRAP|..]) else args
  }

  /** What should have been streamed for a buffer: nothing while it may still become the wrapper. */
  function Preview(args: Text): Text {
    if args <= WRAP then [] else Partial(args)
  }

  /** The emission step for a buffer when `emitted` is already on the wire. */
  function NextDelta(emitted: Text, args: Text): Option<Text> {
    if args <= WRAP then None
    else
      var full := Partial(args);
      if emitted <= full && |full| > |emitted| then Some(full[|emitted|..]) else None
  }

  function AfterDelta(emitted: Text, args: Text): Text {
    if NextDelta(emitted, args).Some? then Partial(args) else emitted
  }

  /** How far the loop moves at a position, or nothing when it stops there. */
  function Advance(body: Text): nat {
    if body == [] || body[0] == QUOTE then 0
    else if body[0] != BACKSLASH then 1
    else if |body| == 1 then 0
    else if body[1] != LETTER_U then 2
    else if |body| >= 6 && FourHex(body[2..6]) then 6
    else 0
  }

  lemma {:induction false} DecodeTail(body: Text, i: nat, out: Text, unit: CodeUnit, width: nat)
    requires i + width <= |body| && 0 < width == Advance(body[i..])
    requires out + Decode(body[i..]) == Decode(body)
    requires Decode(body[i..]) == [unit] + Decode(body[i..][width..])
    ensures out + [unit] + Decode(body[i + width..]) == Decode(body)
  {
    assert body[i..][width..] == body[i + width..];
  }

  /** The incremental loop over the body computes the decoded value. */
  method PartialInput(args: Text) returns (out: Text)
    ensures out == Partial(args)
  {
    if !(WRAP <= args) {
      return args;
    }
    out := PartialBody(args[|WRAP|..]);
  }

  method PartialBody(body: Text) returns (out: Text)
    ensures out == Decode(body)
  {
    out := [];
    var i := 0;
    assert body[0..] == body;
    while i < |body|
      invariant 0 <= i <= |body|
      invariant out + Decode(body[i..]) == Decode(body)
    {
      var c := body[i];
      var unit: CodeUnit := c;
      var width := 1;
      if c == QUOTE {
        break;
      }
      if c == BACKSLASH {
        if i + 1 >= |body| {
          break;
        }
        var n := body[i + 1];
        width := 2;
        if n == LETTER_N {
          unit := 0x0A;
        } else if n == LETTER_T {
          unit := 0x09;
        } else if n == LETTER_R {
          unit := 0x0D;
        } else if n == LETTER_U {
          var hex := body[i + 2..if i + 6 <= |body| then i + 6 else |body|];
          assert |body[i..]| >= 6 ==> body[i..][2..6] == hex;
          if !FourHex(hex) {
            break;
          }
          unit := HexValue(hex);
          width := 6;
        } else {
          unit := n;
        }
      }
      DecodeTail(body, i, out, unit, width);
      out := out + [unit];
      i := i + width;
    }
  }

  lemma {:induction false} DecodeMonotone(a: Text, b: Text)
    requires a <= b
    ensures Decode(a) <= Decode(b)
    decreases |a|
  {
    if a == [] || a[0] == QUOTE {
    } else if a[0] != BACKSLASH {
      DecodeMonotone(a[1..], b[1..]);
    } else if |a| == 1 {
    } else if a[1] != LETTER_U {
      DecodeMonotone(a[2..], b[2..]);
    } else if |a| >= 6 && FourHex(a[2..6]) {
      assert a[2..6] == b[2..6];
      DecodeMonotone(a[6..], b[6..]);
    }
  }

  /** Growing the buffer only ever extends the preview: what was streamed is never taken back. */
  lemma {:induction false} PreviewGrows(args: Text, chunk: Text)
    ensures Preview(args) <= Preview(args + chunk)
  {
    if !(args <= WRAP) {
      assert args <= args + chunk;
      if WRAP <= args {
        assert (args + chunk)[|WRAP|..] == args[|WRAP|..] + chunk;
        DecodeMonotone(args[|WRAP|..], args[|WRAP|..] + chunk);
      }
    }
  }

  function Concat(chunks: seq<Text>): Text {
    if chunks == [] then [] else Concat(chunks[..|chunks| - 1]) + chunks[|chunks| - 1]
  }

  /** The buffer and the text already streamed after a list of chunks. */
  function Streamed(chunks: seq<Text>): (Text, Text) {
    if chunks == [] then ([], [])
    else
      var (args, emitted) := Streamed(chunks[..|chunks| - 1]);
      var args' := args + chunks[|chunks| - 1];
      (args', AfterDelta(emitted, args'))
  }

  /** The deltas put on the wire for a list of chunks, joined. */
  function Deltas(chunks: seq<Text>): Text {
    if chunks == [] then []
    else
      var (args, emitted) := Streamed(chunks[..|chunks| - 1]);
      match NextDelta(emitted, args + chunks[|chunks| - 1])
      case None => Deltas(chunks[..|chunks| - 1])
      case Some(d) => Deltas(chunks[..|chunks| - 1]) + d
  }

  /** One step: if what is on the wire is the preview so far, it is the preview afterwards too. */
  lemma {:induction false} DeltaStep(args: Text, chunk: Text)
    ensures AfterDelta(Preview(args), args + chunk) == Preview(args + chunk)
    ensures NextDelta(Preview(args), args + chunk) == None ==> Preview(args + chunk) == Preview(args)
    ensures forall d :: NextDelta(Preview(args), args + chunk) == Some(d) ==>
      d != [] && Preview(args) + d == Preview(args + chunk)
  {
    PreviewGrows(args, chunk);
  }

  /**
   * Chunk independence: the joined deltas are the preview of the joined arguments, however the
   * arguments were cut, and the prefix guard never holds anything back.
   */
  lemma {:induction false} PreviewIsChunkIndependent(chunks: seq<Text>)
    ensures Streamed(chunks) == (Concat(chunks), Preview(Concat(chunks)))
    ensures Deltas(chunks) == Preview(Concat(chunks))
  {
    if chunks != [] {
      var before := chunks[..|chunks| - 1];
      PreviewIsChunkIndependent(before);
      DeltaStep(Concat(before), chunks[|chunks| - 1]);
    }
  }

  /** A text that is not the wrapper, nor may still become it, is shown as it stands. */
  predicate IsBare(args: Text) {
    exists i :: 0 <= i < |args| && i < |WRAP| && args[i] != WRAP[i]
  }

  /**
   * What the deltas add up to, told from the joined arguments: nothing while they may still become the wrapper, all of
   * them once they differ from it, and the value of the string after it otherwise, which is read up to its closing
   * quote and grows with it.
   */
  lemma {:induction false} DeltasAre(chunks: seq<Text>)
    ensures IsBare(Concat(chunks)) ==> Deltas(chunks) == Concat(chunks)
    ensures !IsBare(Concat(chunks)) && |Concat(chunks)| <= |WRAP| ==> Deltas(chunks) == []
    ensures !IsBare(Concat(chunks)) && |Concat(chunks)| > |WRAP| ==>
      Concat(chunks) == WRAP + Concat(chunks)[|WRAP|..] && Deltas(chunks) == Decode(Concat(chunks)[|WRAP|..])
  {
    PreviewIsChunkIndependent(chunks);
    var args := Concat(chunks);
    if !IsBare(args) {
      assert forall i :: 0 <= i < |args| && i < |WRAP| ==> args[i] == WRAP[i];
      assert |args| <= |WRAP| ==> args == WRAP[..|args|];
      assert |args| >= |WRAP| ==> args[..|WRAP|] == WRAP;
    }
  }

  // ---- Against JSON: section 7 of RFC 8259 ----

  /** One character of a JSON string as RFC 8259 section 7 lets it be written. */
  datatype Piece = Raw(c: CodeUnit) | Short(c: CodeUnit) | Hex(digits: Text)

  predicate Legal(p: Piece) {
    match p
    case Raw(c) => c >= 0x20 && c != QUOTE && c != BACKSLASH
    case Short(c) => c in {QUOTE, BACKSLASH, SLASH, LETTER_B, LETTER_F, LETTER_N, LETTER_R, LETTER_T}
    case Hex(d) => FourHex(d)
  }

  function Spelling(p: Piece): Text {
    match p
    case Raw(c) => [c]
    case Short(c) => [BACKSLASH, c]
    case Hex(d) => [BACKSLASH, LETTER_U] + d
  }

  /** The code unit RFC 8259 gives a piece. */
  function Meaning(p: Piece): CodeUnit
    requires Legal(p)
  {
    match p
    case Raw(c) => c
    case Short(c) => if c == LETTER_B then 0x08 else if c == LETTER_F then 0x0C else ShortEscape(c)
    case Hex(d) => HexValue(d)
  }

  function Spell(ps: seq<Piece>): Text {
    if ps == [] then [] else Spelling(ps[0]) + Spell(ps[1..])
  }

  function Means(ps: seq<Piece>): Text
    requires forall p :: p in ps ==> Legal(p)
  {
    if ps == [] then [] else [Meaning(ps[0])] + Means(ps[1..])
  }

  /** The two escapes the preview does not know: \b and \f come out as the letters. */
  predicate Unsupported(p: Piece) {
    p == Short(LETTER_B) || p == Short(LETTER_F)
  }

  function Shown(p: Piece): CodeUnit
    requires Legal(p)
  {
    if p.Short? then ShortEscape(p.c) else Meaning(p)
  }

  function ShownAll(ps: seq<Piece>): Text
    requires forall p :: p in ps ==> Legal(p)
  {
    if ps == [] then [] else [Shown(ps[0])] + ShownAll(ps[1..])
  }

  lemma {:induction false} DecodePiece(p: Piece, rest: Text)
    requires Legal(p)
    ensures Decode(Spelling(p) + rest) == [Shown(p)] + Decode(rest)
  {
    var body := Spelling(p) + rest;
    match p {
      case Raw(c) => assert body[1..] == rest;
      case Short(c) => assert body[2..] == rest;
      case Hex(d) => assert body[2..6] == d && body[6..] == rest;
    }
  }

  lemma {:induction false} DecodeSpelled(ps: seq<Piece>, tail: Text)
    requires forall p :: p in ps ==> Legal(p)
    ensures Decode(Spell(ps) + [QUOTE] + tail) == ShownAll(ps)
    decreases |ps|
  {
    if ps == [] {
      assert (Spell(ps) + [QUOTE] + tail)[0] == QUOTE;
    } else {
      DecodeSpelled(ps[1..], tail);
      DecodePiece(ps[0], Spell(ps[1..]) + [QUOTE] + tail);
      assert Spell(ps) + [QUOTE] + tail == Spelling(ps[0]) + (Spell(ps[1..]) + [QUOTE] + tail);
    }
  }

  lemma {:induction false} PreviewWrapped(body: Text)
    requires body != []
    ensures Preview(WRAP + body) == Decode(body)
  {
    assert (WRAP + body)[|WRAP|..] == body;
  }

  /**
   * For a complete JSON string the preview is its value exactly when neither \b nor \f was used to
   * write it.
   */
  lemma {:induction false} PreviewOfJsonString(ps: seq<Piece>, tail: Text)
    requires forall p :: p in ps ==> Legal(p)
    ensures Preview(WRAP + (Spell(ps) + [QUOTE] + tail)) == Means(ps) <==> forall p :: p in ps ==> !Unsupported(p)
  {
    PreviewWrapped(Spell(ps) + [QUOTE] + tail);
    DecodeSpelled(ps, tail);
    SameUnits(ps);
  }

  lemma {:induction false} SameUnits(ps: seq<Piece>)
    requires forall p :: p in ps ==> Legal(p)
    ensures ShownAll(ps) == Means(ps) <==> forall p :: p in ps ==> !Unsupported(p)
    ensures |ShownAll(ps)| == |Means(ps)|
  {
    if ps != [] {
      SameUnits(ps[1..]);
      assert forall p :: p in ps <==> p == ps[0] || p in ps[1..];
      assert Unsupported(ps[0]) <==> Shown(ps[0]) != Meaning(ps[0]);
      assert ShownAll(ps)[0] == Shown(ps[0]) && ShownAll(ps)[1..] == ShownAll(ps[1..]);
      assert Means(ps)[0] == Meaning(ps[0]) && Means(ps)[1..] == Means(ps[1..]);
    }
  }

  lemma {:induction false} CutAndJoin(prefix: Text, body: Text, cut: nat, rest: Text)
    requires cut <= |prefix + body|
    ensures (prefix + body)[..cut] + ((prefix + body)[cut..] + rest) == prefix + (body + rest)
  {
  }

  /** While the string is still arriving the preview is a beginning of its value. */
  lemma {:induction false} PreviewOfPartialJsonString(ps: seq<Piece>, cut: nat)
    requires forall p :: p in ps ==> Legal(p) && !Unsupported(p)
    requires cut <= |WRAP + Spell(ps)|
    ensures Preview((WRAP + Spell(ps))[..cut]) <= Means(ps)
  {
    var whole := WRAP + Spell(ps);
    PreviewGrows(whole[..cut], whole[cut..] + [QUOTE]);
    CutAndJoin(WRAP, Spell(ps), cut, [QUOTE]);
    assert Spell(ps) + [QUOTE] + [] == Spell(ps) + [QUOTE];
    PreviewOfJsonString(ps, []);
  }

  /** A piece of which a code unit is missing shows nothing. */
  lemma {:induction false} DecodePart(p: Piece, cut: nat)
    requires Legal(p) && cut < |Spelling(p)|
    ensures Decode(Spelling(p)[..cut]) == []
  {
    hide HexValue;
  }

  lemma {:induction false} SpellSize(ps: seq<Piece>)
    ensures |Spell(ps)| >= |ps|
  {
    if ps != [] {
      SpellSize(ps[1..]);
    }
  }

  lemma {:induction false} DecodeArrived(ps: seq<Piece>, p: Piece, cut: nat)
    requires forall q :: q in ps ==> Legal(q)
    requires Legal(p) && cut < |Spelling(p)|
    ensures Decode(Spell(ps) + Spelling(p)[..cut]) == ShownAll(ps)
    decreases |ps|
  {
    hide Decode, Spelling, Legal;
    var part := Spelling(p)[..cut];
    if ps == [] {
      DecodePart(p, cut);
      assert Spell(ps) + part == part;
    } else {
      DecodeArrived(ps[1..], p, cut);
      DecodePiece(ps[0], Spell(ps[1..]) + part);
      assert Spell(ps) + part == Spelling(ps[0]) + (Spell(ps[1..]) + part);
    }
  }

  /** Nothing is held back: each character is shown as soon as its last code unit has arrived. */
  lemma {:induction false} ArrivedIsShown(ps: seq<Piece>, p: Piece, cut: nat)
    requires forall q :: q in ps ==> Legal(q)
    requires Legal(p) && cut < |Spelling(p)|
    ensures Preview(WRAP + (Spell(ps) + Spelling(p)[..cut])) == Means(ps) <==> forall q :: q in ps ==> !Unsupported(q)
  {
    var body := Spell(ps) + Spelling(p)[..cut];
    DecodeArrived(ps, p, cut);
    SameUnits(ps);
    SpellSize(ps);
    if body == [] {
      assert WRAP + body == WRAP;
    } else {
      PreviewWrapped(body);
    }
  }
}
