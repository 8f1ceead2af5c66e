/** The charset of a PGN file: UTF-8 where a line allows it, and Windows-1252 for the other lines,
    whether the file is decoded at once, lazily, or checked in chunks. */
module PgnCharset {
  import opened Options

  newtype byte = b: int | 0 <= b < 256
  type Bytes = seq<byte>
  /** Code points. */
  type Text = seq<nat>

  const NEWLINE: byte := 10
  const RETURN: byte := 13
  const BOM: Bytes := [0xEF, 0xBB, 0xBF]

  // --- UTF-8, section 4 of RFC 3629 ------------------------------------------------

  predicate Tail(b: byte) { 0x80 <= b <= 0xBF }

  /** How many bytes a character with this first byte has; 0 if none has it. */
  function Length(lead: byte): (n: nat)
    ensures n <= 4
  {
    if lead <= 0x7F then 1
    else if 0xC2 <= lead <= 0xDF then 2
    else if 0xE0 <= lead <= 0xEF then 3
    else if 0xF0 <= lead <= 0xF4 then 4
    else 0
  }

  /** The second byte is a tail, and for four first bytes a narrower one: no overlong form, no
      surrogate, nothing past U+10FFFF. */
  predicate SecondOk(lead: byte, second: byte) {
    && Tail(second)
    && (lead == 0xE0 ==> second >= 0xA0) && (lead == 0xED ==> second <= 0x9F)
    && (lead == 0xF0 ==> second >= 0x90) && (lead == 0xF4 ==> second <= 0x8F)
  }

  /** What is there of a character: these bytes are one, or the beginning of one. */
  predicate Begins(s: Bytes) {
    && 0 < |s| <= Length(s[0])
    && (|s| > 1 ==> SecondOk(s[0], s[1])) && (|s| > 2 ==> Tail(s[2])) && (|s| > 3 ==> Tail(s[3]))
  }

  /** Whether the bytes begin with a whole character. */
  predicate Starts(s: Bytes) {
    s != [] && Length(s[0]) <= |s| && Begins(s[..Length(s[0])])
  }

  function CodePoint(s: Bytes): (c: nat)
    requires Starts(s)
  {
    var a := s[0] as int;
    match Length(s[0])
    case 1 => a
    case 2 => (a - 0xC0) * 0x40 + (s[1] as int - 0x80)
    case 3 => (a - 0xE0) * 0x1000 + (s[1] as int - 0x80) * 0x40 + (s[2] as int - 0x80)
    case _ => (a - 0xF0) * 0x40000 + (s[1] as int - 0x80) * 0x1000 + (s[2] as int - 0x80) * 0x40
              + (s[3] as int - 0x80)
  }

  /** `bytes.decode("utf-8")`, `None` being its error. */
  function Decode(s: Bytes): (r: Option<Text>)
    decreases |s|
  {
    if s == [] then Some([])
    else if !Starts(s) then None
    else
      var rest := Decode(s[Length(s[0])..]);
      if rest.None? then None else Some([CodePoint(s)] + rest.value)
  }

  /** A Unicode scalar value. */
  predicate Scalar(c: nat) { c <= 0xD7FF || 0xE000 <= c <= 0x10FFFF }

  /** The encoding, section 3 of RFC 3629. */
  function EncodePoint(c: nat): (s: Bytes)
    requires Scalar(c)
  {
    if c <= 0x7F then [c as byte]
    else if c <= 0x7FF then [(0xC0 + c / 0x40) as byte, (0x80 + c % 0x40) as byte]
    else if c <= 0xFFFF then
      [(0xE0 + c / 0x1000) as byte, (0x80 + c / 0x40 % 0x40) as byte, (0x80 + c % 0x40) as byte]
    else
      [(0xF0 + c / 0x40000) as byte, (0x80 + c / 0x1000 % 0x40) as byte, (0x80 + c / 0x40 % 0x40) as byte,
       (0x80 + c % 0x40) as byte]
  }

  function Encode(t: Text): (s: Bytes)
    requires forall c <- t :: Scalar(c)
  {
    if t == [] then [] else EncodePoint(t[0]) + Encode(t[1..])
  }

  /** A code point is its bytes' bits put together. */
  lemma Bits(c: nat)
    ensures c / 0x1000 == c / 0x40 / 0x40 && c / 0x40000 == c / 0x40 / 0x40 / 0x40
    ensures c == c / 0x40 * 0x40 + c % 0x40
    ensures c == c / 0x1000 * 0x1000 + c / 0x40 % 0x40 * 0x40 + c % 0x40
    ensures c == c / 0x40000 * 0x40000 + c / 0x1000 % 0x40 * 0x1000 + c / 0x40 % 0x40 * 0x40 + c % 0x40
  {
  }

  lemma PointBegins(c: nat)
    requires Scalar(c)
    ensures var e := EncodePoint(c);
      e != [] && Length(e[0]) == |e| && Begins(e)
  {
    Bits(c);
  }

  lemma PointIsIts(c: nat)
    requires Scalar(c)
    ensures Starts(EncodePoint(c)) && CodePoint(EncodePoint(c)) == c
  {
    Bits(c);
    PointBegins(c);
    var e := EncodePoint(c);
    assert e[..|e|] == e;
  }

  /** What follows a whole character does not change it. */
  lemma PrefixStarts(e: Bytes, rest: Bytes)
    requires Starts(e) && Length(e[0]) == |e|
    ensures Starts(e + rest) && CodePoint(e + rest) == CodePoint(e) && (e + rest)[|e|..] == rest
  {
    assert (e + rest)[..|e|] == e == e[..|e|];
  }

  lemma PointReadsBack(c: nat, rest: Bytes)
    requires Scalar(c)
    ensures var s := EncodePoint(c) + rest;
      Starts(s) && CodePoint(s) == c && Length(s[0]) == |EncodePoint(c)| && s[Length(s[0])..] == rest
  {
    PointBegins(c);
    PointIsIts(c);
    PrefixStarts(EncodePoint(c), rest);
  }

  /** Digits to base 64 are unique. */
  lemma Digits3(a: nat, b: nat, d: nat)
    requires b < 0x40 && d < 0x40
    ensures var c := a * 0x1000 + b * 0x40 + d;
      c / 0x1000 == a && c / 0x40 % 0x40 == b && c % 0x40 == d
  {
    var c := a * 0x1000 + b * 0x40 + d;
    assert c / 0x40 == a * 0x40 + b;
    Bits(c);
  }

  lemma Digits4(a: nat, x: nat, b: nat, d: nat)
    requires x < 0x40 && b < 0x40 && d < 0x40
    ensures var c := a * 0x40000 + x * 0x1000 + b * 0x40 + d;
      c / 0x40000 == a && c / 0x1000 % 0x40 == x && c / 0x40 % 0x40 == b && c % 0x40 == d
  {
    var c := a * 0x40000 + x * 0x1000 + b * 0x40 + d;
    Digits3(a * 0x40 + x, b, d);
    assert c / 0x1000 == a * 0x40 + x;
    Bits(c);
  }

  lemma ThreeWriteBack(s: Bytes)
    requires Starts(s) && Length(s[0]) == 3
    ensures Scalar(CodePoint(s)) && EncodePoint(CodePoint(s)) == s[..3]
  {
    var e := s[..3];
    assert e[1] == s[1] && e[2] == s[2];
    Digits3(s[0] as int - 0xE0, s[1] as int - 0x80, s[2] as int - 0x80);
  }

  lemma FourWriteBack(s: Bytes)
    requires Starts(s) && Length(s[0]) == 4
    ensures Scalar(CodePoint(s)) && EncodePoint(CodePoint(s)) == s[..4]
  {
    var e := s[..4];
    assert e[1] == s[1] && e[2] == s[2] && e[3] == s[3];
    Digits4(s[0] as int - 0xF0, s[1] as int - 0x80, s[2] as int - 0x80, s[3] as int - 0x80);
  }

  lemma PointWritesBack(s: Bytes)
    requires Starts(s)
    ensures Scalar(CodePoint(s)) && EncodePoint(CodePoint(s)) == s[..Length(s[0])]
  {
    match Length(s[0])
    case 1 =>
    case 2 => assert s[..2][1] == s[1];
    case 3 => ThreeWriteBack(s);
    case _ => FourWriteBack(s);
  }

  /** Text encoded reads back as itself. */
  lemma {:induction false} DecodeEncode(t: Text)
    requires forall c <- t :: Scalar(c)
    ensures Decode(Encode(t)) == Some(t)
  {
    if t != [] {
      DecodeEncode(t[1..]);
      PointReadsBack(t[0], Encode(t[1..]));
      assert t == [t[0]] + t[1..];
    }
  }

  lemma EncodeOneMore(s: Bytes, rest: Text)
    requires Starts(s) && (forall c <- rest :: Scalar(c)) && Encode(rest) == s[Length(s[0])..]
    ensures (forall c <- [CodePoint(s)] + rest :: Scalar(c)) && Encode([CodePoint(s)] + rest) == s
  {
    var t := [CodePoint(s)] + rest;
    PointWritesBack(s);
    forall c <- t ensures Scalar(c) { assert c == CodePoint(s) || c in rest; }
    assert t[0] == CodePoint(s) && t[1..] == rest;
    assert s[..Length(s[0])] + s[Length(s[0])..] == s;
  }

  /** Bytes decode exactly if they encode some text, which is then what they decode to. */
  lemma {:induction false} EncodeDecode(s: Bytes)
    ensures Decode(s).Some? ==> (forall c <- Decode(s).value :: Scalar(c)) && Encode(Decode(s).value) == s
    decreases |s|
  {
    if s != [] && Starts(s) {
      EncodeDecode(s[Length(s[0])..]);
      if Decode(s).Some? {
        EncodeOneMore(s, Decode(s[Length(s[0])..]).value);
      }
    }
  }

  // --- Windows-1252 ----------------------------------------------------------------

  /** The code points of 0x80 to 0x9F; the five bytes the charset leaves undefined stand for the
      code point of their own number. */
  const C1: seq<nat> := [
    0x20AC, 0x81, 0x201A, 0x0192, 0x201E, 0x2026, 0x2020, 0x2021,
    0x02C6, 0x2030, 0x0160, 0x2039, 0x0152, 0x8D, 0x017D, 0x8F,
    0x90, 0x2018, 0x2019, 0x201C, 0x201D, 0x2022, 0x2013, 0x2014,
    0x02DC, 0x2122, 0x0161, 0x203A, 0x0153, 0x9D, 0x017E, 0x0178]

  function Cp1252(b: byte): (c: nat) {
    if 0x80 <= b <= 0x9F then C1[b as int - 0x80] else b as nat
  }

  function Widened(s: Bytes): (t: Text) { seq(|s|, i requires 0 <= i < |s| => Cp1252(s[i])) }

  /** `_decode_line`. */
  function DecodeLine(line: Bytes): (t: Text) {
    var strict := Decode(line);
    if strict.Some? then strict.value else Widened(line)
  }

  /** No byte is beyond the fallback, and no two read alike. */
  lemma FallbackIsInjective(a: Bytes, b: Bytes)
    ensures Widened(a) == Widened(b) <==> a == b
  {
    if Widened(a) == Widened(b) {
      forall i | 0 <= i < |a| ensures a[i] == b[i] {
        assert Widened(a)[i] == Widened(b)[i];
        ByteReadsBack(a[i]);
        ByteReadsBack(b[i]);
      }
    }
  }

  /** The byte of 0x80 to 0x9F a code point is read from. */
  function C1Byte(c: nat): (b: nat) {
    match c
    case 0x20AC => 0x80 case 0x81 => 0x81 case 0x201A => 0x82 case 0x0192 => 0x83
    case 0x201E => 0x84 case 0x2026 => 0x85 case 0x2020 => 0x86 case 0x2021 => 0x87
    case 0x02C6 => 0x88 case 0x2030 => 0x89 case 0x0160 => 0x8A case 0x2039 => 0x8B
    case 0x0152 => 0x8C case 0x8D => 0x8D case 0x017D => 0x8E case 0x8F => 0x8F
    case 0x90 => 0x90 case 0x2018 => 0x91 case 0x2019 => 0x92 case 0x201C => 0x93
    case 0x201D => 0x94 case 0x2022 => 0x95 case 0x2013 => 0x96 case 0x2014 => 0x97
    case 0x02DC => 0x98 case 0x2122 => 0x99 case 0x0161 => 0x9A case 0x203A => 0x9B
    case 0x0153 => 0x9C case 0x9D => 0x9D case 0x017E => 0x9E case 0x0178 => 0x9F
    case _ => 0
  }

  /** The inverse of the fallback. */
  function FromCp1252(c: nat): (b: Option<byte>) {
    if c < 0x80 || 0xA0 <= c <= 0xFF then Some(c as byte)
    else if 0x80 <= C1Byte(c) <= 0x9F then Some(C1Byte(c) as byte)
    else None
  }

  lemma ByteReadsBack(b: byte)
    ensures FromCp1252(Cp1252(b)) == Some(b)
  {
    if 0x80 <= b <= 0x9F {
      assert C1Byte(C1[b as int - 0x80]) == b as int;
    }
  }

  /** A line is its UTF-8 text, or, if it is none, a text as long as itself that gives every byte back. */
  lemma LineReadsBack(line: Bytes)
    ensures if Decode(line).Some? then DecodeLine(line) == Decode(line).value
            else |DecodeLine(line)| == |line|
                 && forall i :: 0 <= i < |line| ==> FromCp1252(DecodeLine(line)[i]) == Some(line[i])
  {
    forall i | 0 <= i < |line| ensures FromCp1252(Cp1252(line[i])) == Some(line[i]) { ByteReadsBack(line[i]); }
  }

  // --- lines -----------------------------------------------------------------------

  /** Up to the first newline, without it. */
  function Head(s: Bytes): (r: Bytes)
    ensures r <= s && NEWLINE !in r
    ensures |r| < |s| ==> s[|r|] == NEWLINE
  {
    if s == [] || s[0] == NEWLINE then [] else [s[0]] + Head(s[1..])
  }

  /** `bytes.split(b"\n")`. */
  function Lines(s: Bytes): (r: seq<Bytes>)
    ensures r != []
    decreases |s|
  {
    var head := Head(s);
    if |head| == |s| then [head] else [head] + Lines(s[|head| + 1..])
  }

  function JoinDecoded(lines: seq<Bytes>): (t: Text) {
    if lines == [] then []
    else if |lines| == 1 then DecodeLine(lines[0])
    else DecodeLine(lines[0]) + [NEWLINE as nat] + JoinDecoded(lines[1..])
  }

  function StripBom(raw: Bytes): (r: Bytes) { if BOM <= raw then raw[3..] else raw }

  /** `decode_pgn`. */
  function DecodePgn(raw: Bytes): (t: Text) {
    var strict := Decode(StripBom(raw));
    if strict.Some? then strict.value else JoinDecoded(Lines(StripBom(raw)))
  }

  /** A newline is no part of any longer character. */
  lemma StartsBeforeNewline(a: Bytes, b: Bytes)
    requires a != []
    ensures Starts(a + [NEWLINE] + b) <==> Starts(a)
    ensures Starts(a) ==> CodePoint(a + [NEWLINE] + b) == CodePoint(a)
  {
    var s, n := a + [NEWLINE] + b, Length(a[0]);
    assert s[0] == a[0] && s[|a|] == NEWLINE && !Tail(NEWLINE);
    if n <= |a| {
      assert s[..n] == a[..n];
    }
  }

  /** A newline splits a decoding in two. */
  lemma {:induction false} DecodeAcross(a: Bytes, b: Bytes)
    ensures var x, y := Decode(a), Decode(b);
      Decode(a + [NEWLINE] + b)
      == if x.None? || y.None? then None else Some(x.value + [NEWLINE as nat] + y.value)
    decreases |a|
  {
    var s := a + [NEWLINE] + b;
    if a == [] {
      assert s == [NEWLINE] + b && s[1..] == b && Starts(s) by { assert s[..1] == [NEWLINE]; }
    } else {
      StartsBeforeNewline(a, b);
      assert s[0] == a[0];
      if Starts(a) {
        var n := Length(a[0]);
        assert s[n..] == a[n..] + [NEWLINE] + b;
        DecodeAcross(a[n..], b);
        var x, y := Decode(a[n..]), Decode(b);
        if x.Some? && y.Some? {
          assert [CodePoint(a)] + (x.value + [NEWLINE as nat] + y.value)
              == [CodePoint(a)] + x.value + [NEWLINE as nat] + y.value;
        }
      }
    }
  }

  ghost predicate EveryLineValid(lines: seq<Bytes>) { forall l <- lines :: Decode(l).Some? }

  /** Bytes are UTF-8 exactly when every line of them is, and then decoding them line by line and
      joining is decoding them whole. */
  lemma {:induction false} LineByLine(s: Bytes)
    ensures Decode(s).Some? <==> EveryLineValid(Lines(s))
    ensures Decode(s).Some? ==> JoinDecoded(Lines(s)) == Decode(s).value
    decreases |s|
  {
    var head := Head(s);
    if |head| == |s| {
      assert head == s;
    } else {
      var rest := s[|head| + 1..];
      assert s == head + [NEWLINE] + rest;
      DecodeAcross(head, rest);
      LineByLine(rest);
      assert Lines(s) == [head] + Lines(rest);
      assert Lines(s)[1..] == Lines(rest);
    }
  }

  /** So `decode_pgn` is one rule on all input: every line by itself. */
  lemma DecodePgnIsLineByLine(raw: Bytes)
    ensures DecodePgn(raw) == JoinDecoded(Lines(StripBom(raw)))
  {
    LineByLine(StripBom(raw));
  }

  // --- the lazy reader -------------------------------------------------------------

  /** The next line, with its newline if it has one. */
  function NextLine(s: Bytes): (r: Bytes)
    ensures r <= s && (s != [] ==> r != [])
  {
    var head := Head(s);
    if |head| == |s| then head else head + [NEWLINE]
  }

  /** What is left, read a line at a time. */
  function ReadOut(s: Bytes): (t: Text)
    decreases |s|
  {
    if s == [] then [] else DecodeLine(NextLine(s)) + ReadOut(s[|NextLine(s)|..])
  }

  lemma {:induction false} DecodesToSomething(s: Bytes)
    ensures DecodeLine(s) == [] <==> s == []
  {
  }

  lemma {:induction false} HeadIs(s: Bytes, n: nat)
    requires n <= |s| && (forall k :: 0 <= k < n ==> s[k] != NEWLINE) && (n < |s| ==> s[n] == NEWLINE)
    ensures Head(s) == s[..n]
  {
    if n > 0 { HeadIs(s[1..], n - 1); }
  }

  lemma OneMoreLine(whole: Text, t: Text, rest: Bytes, line: Text, next: Bytes)
    requires whole == t + ReadOut(rest)
    requires line == DecodeLine(NextLine(rest)) && next == rest[|NextLine(rest)|..]
    ensures if line == [] then rest == [] && next == [] && whole == t
            else rest != [] && |next| < |rest| && whole == t + line + ReadOut(next)
  {
    DecodesToSomething(NextLine(rest));
    if rest == [] {
      assert ReadOut(rest) == [] && t + [] == t;
    } else {
      assert t + (line + ReadOut(next)) == t + line + ReadOut(next);
    }
  }

  class LineDecoded {
    const binary: Bytes
    var position: nat

    ghost predicate Valid() reads this { position <= |binary| }

    ghost function Rest(): (r: Bytes)
      reads this
      requires Valid()
    {
      binary[position..]
    }

    constructor (binary: Bytes)
      ensures this.binary == binary && Valid() && Rest() == StripBom(binary)
    {
      this.binary := binary;
      position := if |binary| >= 3 && binary[..3] == BOM then 3 else 0;
    }

    /** The next line with its newline, decoded; nothing at the end. */
    method Readline() returns (t: Text)
      requires Valid()
      modifies this
      ensures Valid() && Rest() == old(Rest())[|NextLine(old(Rest()))|..]
      ensures t == DecodeLine(NextLine(old(Rest())))
    {
      var line := NextLine(binary[position..]);
      t := DecodeLine(line);
      position := position + |line|;
    }

    /** Everything that is left: lines until an empty one. */
    method Read() returns (t: Text)
      requires Valid()
      modifies this
      ensures Valid() && t == ReadOut(old(Rest())) && Rest() == []
    {
      t := [];
      ghost var rest := Rest();
      ghost var whole := ReadOut(rest);
      while true
        invariant Valid() && rest == Rest() && whole == t + ReadOut(rest)
        decreases |rest|
      {
        var line := Readline();
        ghost var next := rest[|NextLine(rest)|..];
        OneMoreLine(whole, t, rest, line, next);
        rest := next;
        if line == [] {
          return;
        }
        t := t + line;
      }
    }
  }

  /** A line's newline decodes to itself, whichever charset the line is in. */
  lemma NewlineStays(line: Bytes)
    ensures DecodeLine(line + [NEWLINE]) == DecodeLine(line) + [NEWLINE as nat]
  {
    assert line + [NEWLINE] == line + [NEWLINE] + [];
    DecodeAcross(line, []);
    assert Widened(line + [NEWLINE]) == Widened(line) + [NEWLINE as nat];
  }

  lemma {:induction false} ReadOutJoins(s: Bytes)
    ensures ReadOut(s) == JoinDecoded(Lines(s))
    decreases |s|
  {
    var head := Head(s);
    if |head| == |s| {
      assert head == s;
      assert ReadOut([]) == [];
      assert NextLine(s) == s;
    } else {
      NewlineStays(head);
      ReadOutJoins(s[|head| + 1..]);
      assert Lines(s)[1..] == Lines(s[|head| + 1..]);
    }
  }

  /** The lazy reader over a file gives the text `decode_pgn` gives for its bytes. */
  method ReadLazily(raw: Bytes) returns (t: Text)
    ensures t == DecodePgn(raw)
  {
    var reader := new LineDecoded(raw);
    t := reader.Read();
    ReadOutJoins(StripBom(raw));
    DecodePgnIsLineByLine(raw);
  }

  // --- the check in chunks ---------------------------------------------------------

  /** What a decoder that is given bytes piece by piece makes of the ones so far: an error, or the
      text they decode to and the beginning of a character that it keeps for the next piece. */
  datatype Progress = Bad | Pending(text: Text, kept: Bytes)

  function Then(text: Text, p: Progress): (r: Progress) {
    if p.Bad? then Bad else Pending(text + p.text, p.kept)
  }

  function Feed(s: Bytes): (r: Progress)
    decreases |s|
  {
    if s == [] then Pending([], [])
    else if Starts(s) then Then([CodePoint(s)], Feed(s[Length(s[0])..]))
    else if Begins(s) then Pending([], s)
    else Bad
  }

  lemma {:induction false} WholeIsFed(s: Bytes)
    ensures Decode(s).Some? ==> Feed(s) == Pending(Decode(s).value, [])
    ensures Feed(s).Pending? && Feed(s).kept == [] ==> Decode(s).Some?
    decreases |s|
  {
    if s != [] && Starts(s) { WholeIsFed(s[Length(s[0])..]); }
  }

  /** A character that has begun goes on with what comes, or never. */
  lemma StartsGoesOn(a: Bytes, b: Bytes)
    requires a != []
    ensures Starts(a) ==> Starts(a + b) && CodePoint(a + b) == CodePoint(a)
    ensures !Starts(a) && !Begins(a) ==> !Starts(a + b) && !Begins(a + b)
  {
    var s := a + b;
    assert s[0] == a[0];
    if Length(a[0]) <= |a| {
      assert s[..Length(a[0])] == a[..Length(a[0])];
    }
  }

  lemma ThenTwice(a: Text, b: Text, p: Progress)
    ensures Then(a, Then(b, p)) == Then(a + b, p)
  {
    if p.Pending? { assert a + (b + p.text) == a + b + p.text; }
  }

  /** Bytes fed in two pieces are the bytes fed at once. */
  lemma {:induction false} FeedsInPieces(a: Bytes, b: Bytes)
    ensures Feed(a + b) == if Feed(a).Bad? then Bad else Then(Feed(a).text, Feed(Feed(a).kept + b))
    decreases |a|
  {
    if a == [] {
      assert a + b == b && [] + b == b;
      if Feed(b).Pending? { assert [] + Feed(b).text == Feed(b).text; }
    } else {
      StartsGoesOn(a, b);
      if Starts(a) {
        var rest := a[Length(a[0])..];
        assert (a + b)[Length(a[0])..] == rest + b;
        FeedsInPieces(rest, b);
        if Feed(rest).Pending? { ThenTwice([CodePoint(a)], Feed(rest).text, Feed(Feed(rest).kept + b)); }
      } else if Begins(a) {
        if Feed(a + b).Pending? { assert [] + Feed(a + b).text == Feed(a + b).text; }
      }
    }
  }

  /** Python's incremental `utf-8-sig` decoder: until it has three bytes, or fewer that no byte-order
      mark begins with, it decides nothing and keeps what there is. */
  datatype Decoder = Broken | Decoder(first: bool, text: Text, kept: Bytes)

  const FRESH := Decoder(true, [], [])

  predicate Undecided(s: Bytes) { |s| < 3 && s <= BOM }

  function Took(text: Text, p: Progress): (d: Decoder) {
    if p.Bad? then Broken else Decoder(false, text + p.text, p.kept)
  }

  /** One call of its `decode`. */
  function Given(d: Decoder, chunk: Bytes): (r: Decoder) {
    match d
    case Broken => Broken
    case Decoder(first, text, kept) =>
      var data := kept + chunk;
      if !first then Took(text, Feed(data))
      else if Undecided(data) then Decoder(true, text, data)
      else Took(text, Feed(StripBom(data)))
  }

  /** The last call, with nothing more to come: what it has not decided about is not an error. */
  function Ended(d: Decoder): (t: Option<Text>) {
    match d
    case Broken => None
    case Decoder(first, text, kept) => if first || kept == [] then Some(text) else None
  }

  /** The decoder after all the bytes so far. */
  function After(raw: Bytes): (d: Decoder) {
    if Undecided(raw) then Decoder(true, [], raw) else Took([], Feed(StripBom(raw)))
  }

  lemma StripsOnce(a: Bytes, b: Bytes)
    requires !Undecided(a)
    ensures !Undecided(a + b) && StripBom(a + b) == StripBom(a) + b
  {
    if |a| >= 3 {
      assert (a + b)[..3] == a[..3];
      if BOM <= a {
        assert (a + b)[3..] == a[3..] + b;
      }
    } else {
      var i :| 0 <= i < |a| && a[i] != BOM[i];
      assert (a + b)[i] == a[i];
    }
  }

  /** In whatever pieces the bytes come, byte-order mark and all, the decoder is where it would be had
      they come at once. */
  lemma GivenInPieces(a: Bytes, b: Bytes)
    ensures Given(After(a), b) == After(a + b)
  {
    if !Undecided(a) {
      StripsOnce(a, b);
      var s := StripBom(a);
      FeedsInPieces(s, b);
      if Feed(s).Pending? {
        assert [] + Feed(s).text == Feed(s).text;
        var p := Feed(Feed(s).kept + b);
        if p.Pending? { assert [] + (Feed(s).text + p.text) == Feed(s).text + p.text; }
      }
    }
  }

  /** The two files that are a beginning of a byte-order mark and nothing else. */
  predicate CutMark(raw: Bytes) { raw == [0xEF] || raw == [0xEF, 0xBB] }

  lemma UndecidedIs(raw: Bytes)
    ensures Undecided(raw) <==> raw == [] || CutMark(raw)
  {
    if Undecided(raw) {
      assert forall i :: 0 <= i < |raw| ==> raw[i] == BOM[i];
      assert |raw| == 2 ==> raw == [raw[0], raw[1]];
      assert |raw| == 1 ==> raw == [raw[0]];
    }
  }

  /** The decoder accepts exactly the UTF-8 files and those two, and of those two it makes nothing. */
  lemma EndsWell(raw: Bytes)
    ensures Ended(After(raw)) == if CutMark(raw) then Some([]) else Decode(StripBom(raw))
  {
    UndecidedIs(raw);
    WholeIsFed(StripBom(raw));
    if Feed(StripBom(raw)).Pending? { assert [] + Feed(StripBom(raw)).text == Feed(StripBom(raw)).text; }
  }

  /** `decode_pgn` reads those two as Windows-1252. */
  lemma CutMarksDiffer()
    ensures DecodePgn([0xEF]) == [0xEF] && DecodePgn([0xEF, 0xBB]) == [0xEF, 0xBB]
    ensures Ended(After([0xEF])) == Some([]) && Ended(After([0xEF, 0xBB])) == Some([])
  {
    EndsWell([0xEF]);
    EndsWell([0xEF, 0xBB]);
    NotUtf8([0xEF]);
    NotUtf8([0xEF, 0xBB]);
  }

  lemma NotUtf8(raw: Bytes)
    requires CutMark(raw)
    ensures StripBom(raw) == raw && Decode(raw) == None && DecodePgn(raw) == Widened(raw)
    ensures Widened(raw) == if |raw| == 1 then [0xEF] else [0xEF, 0xBB]
  {
    assert Length(raw[0]) == 3 && !Starts(raw);
    OneLine(raw);
    WidenedIs(raw);
  }

  lemma OneLine(s: Bytes)
    requires forall k :: 0 <= k < |s| ==> s[k] != NEWLINE
    ensures Lines(s) == [s] && JoinDecoded(Lines(s)) == DecodeLine(s)
  {
    HeadIs(s, |s|);
    assert s[..|s|] == s;
  }

  lemma WidenedIs(raw: Bytes)
    requires CutMark(raw)
    ensures Widened(raw) == if |raw| == 1 then [0xEF] else [0xEF, 0xBB]
  {
  }

  function Concat(chunks: seq<Bytes>): (r: Bytes) {
    if chunks == [] then [] else chunks[0] + Concat(chunks[1..])
  }

  /** The check of `open_pgn`, chunk by chunk: whether the decoder has no error. */
  method Accepts(chunks: seq<Bytes>) returns (accepted: bool)
    ensures accepted <==> CutMark(Concat(chunks)) || Decode(StripBom(Concat(chunks))).Some?
  {
    var decoder := FRESH;
    ghost var done: Bytes, raw := [], Concat(chunks);
    assert chunks[0..] == chunks && [] + raw == raw;
    for i := 0 to |chunks|
      invariant raw == done + Concat(chunks[i..]) && decoder == After(done)
    {
      assert chunks[i..][1..] == chunks[i + 1..];
      GivenInPieces(done, chunks[i]);
      assert done + (chunks[i] + Concat(chunks[i + 1..])) == done + chunks[i] + Concat(chunks[i + 1..]);
      decoder := Given(decoder, chunks[i]);
      done := done + chunks[i];
      if decoder.Broken? {
        StaysBroken(done, Concat(chunks[i + 1..]));
        EndsWell(raw);
        return false;
      }
    }
    assert chunks[|chunks|..] == [] && done + [] == done;
    EndsWell(raw);
    accepted := Ended(decoder).Some?;
  }

  lemma StaysBroken(a: Bytes, b: Bytes)
    requires After(a) == Broken
    ensures After(a + b) == Broken
  {
    GivenInPieces(a, b);
  }

  // --- text mode ---------------------------------------------------------------------

  const CR: nat := 13
  const LF: nat := 10

  /** Universal newlines: a carriage return, with the newline after it if there is one, is a newline. */
  function Universal(t: Text): (r: Text) {
    if t == [] then []
    else if t[0] != CR then [t[0]] + Universal(t[1..])
    else if |t| > 1 && t[1] == LF then Universal(t[1..])
    else [LF] + Universal(t[1..])
  }

  lemma {:induction false} NoReturnsLeft(t: Text)
    ensures CR !in Universal(t) && (CR !in t ==> Universal(t) == t)
    decreases |t|
  {
    if t != [] {
      NoReturnsLeft(t[1..]);
      assert t == [t[0]] + t[1..];
    }
  }

  /** Text mode changes a text exactly if it has a carriage return. */
  lemma UniversalKeepsIff(t: Text)
    ensures Universal(t) == t <==> CR !in t
  {
    NoReturnsLeft(t);
  }

  predicate EndsInReturn(t: Text) { t != [] && t[|t| - 1] == CR }

  /** A text may be cut anywhere but between a carriage return and its newline. */
  lemma {:induction false} UniversalInPieces(a: Text, b: Text)
    requires !(EndsInReturn(a) && b != [] && b[0] == LF)
    ensures Universal(a + b) == Universal(a) + Universal(b)
    decreases |a|
  {
    if a == [] {
      assert a + b == b;
    } else {
      assert (a + b)[1..] == a[1..] + b;
      UniversalInPieces(a[1..], b);
    }
  }

  /** Python's `IncrementalNewlineDecoder`: the text so far, and whether a carriage return at its end is
      held back until it is known what comes next. */
  datatype Newlines = Newlines(out: Text, held: bool)

  function Translated(n: Newlines, text: Text, last: bool): (r: Newlines) {
    if n.held && text == [] && !last then n
    else
      var s := (if n.held then [CR] else []) + text;
      if EndsInReturn(s) && !last then Newlines(n.out + Universal(s[..|s| - 1]), true)
      else Newlines(n.out + Universal(s), false)
  }

  /** That decoder after all the text so far. */
  function NewlinesAfter(t: Text): (n: Newlines) {
    if EndsInReturn(t) then Newlines(Universal(t[..|t| - 1]), true) else Newlines(Universal(t), false)
  }

  /** In whatever pieces the text comes, the newlines are those of the whole. */
  lemma TranslatedInPieces(a: Text, b: Text)
    ensures Translated(NewlinesAfter(a), b, false) == NewlinesAfter(a + b)
  {
    if b == [] {
      assert a + b == a && [] + b == [];
      assert Universal(a) + [] == Universal(a);
    } else {
      var kept := if EndsInReturn(a) then a[..|a| - 1] else a;
      var s := (if EndsInReturn(a) then [CR] else []) + b;
      assert a + b == kept + s;
      if EndsInReturn(s) {
        assert (a + b)[..|a + b| - 1] == kept + s[..|s| - 1];
        UniversalInPieces(kept, s[..|s| - 1]);
      } else {
        UniversalInPieces(kept, s);
      }
    }
  }

  lemma TranslationEnds(t: Text)
    ensures Translated(NewlinesAfter(t), [], true).out == Universal(t)
  {
    if EndsInReturn(t) {
      assert t == t[..|t| - 1] + [CR] && [CR] + [] == [CR];
      UniversalInPieces(t[..|t| - 1], [CR]);
    }
  }

  /** One chunk through both decoders, of bytes and of newlines. */
  function Piece(d: Decoder, chunk: Bytes): (t: Text)
    requires !d.Broken? && !Given(d, chunk).Broken?
    ensures Given(d, chunk).text == d.text + t
  {
    Given(d, chunk).text[|d.text|..]
  }

  lemma ReadsOn(done: Bytes, chunk: Bytes)
    requires !After(done).Broken? && !After(done + chunk).Broken?
    ensures Given(After(done), chunk) == After(done + chunk)
    ensures Translated(NewlinesAfter(After(done).text), Piece(After(done), chunk), false)
            == NewlinesAfter(After(done + chunk).text)
  {
    GivenInPieces(done, chunk);
    TranslatedInPieces(After(done).text, Piece(After(done), chunk));
  }

  /** What a text-mode file reads as, chunk by chunk: None where it is not UTF-8. */
  method ReadText(chunks: seq<Bytes>) returns (t: Option<Text>)
    ensures var raw := Concat(chunks);
      t == if CutMark(raw) then Some([])
           else if Decode(StripBom(raw)).None? then None else Some(Universal(Decode(StripBom(raw)).value))
  {
    hide Given, After, Translated, NewlinesAfter, StripBom, Decode, Universal;
    var decoder, newlines := FRESH, Newlines([], false);
    ghost var done: Bytes, raw := [], Concat(chunks);
    assert chunks[0..] == chunks && [] + raw == raw;
    NothingReadYet();
    for i := 0 to |chunks|
      invariant raw == done + Concat(chunks[i..]) && decoder == After(done)
      invariant !decoder.Broken? && newlines == NewlinesAfter(decoder.text)
    {
      assert chunks[i..][1..] == chunks[i + 1..];
      GivenInPieces(done, chunks[i]);
      assert done + (chunks[i] + Concat(chunks[i + 1..])) == done + chunks[i] + Concat(chunks[i + 1..]);
      var next := Given(decoder, chunks[i]);
      if next.Broken? {
        StaysBroken(done + chunks[i], Concat(chunks[i + 1..]));
        EndsWell(raw);
        return None;
      }
      ReadsOn(done, chunks[i]);
      newlines := Translated(newlines, Piece(decoder, chunks[i]), false);
      done, decoder := done + chunks[i], next;
    }
    assert chunks[|chunks|..] == [] && done + [] == done;
    EndsWell(raw);
    TranslationEnds(decoder.text);
    EndsWith(raw);
    t := if Ended(decoder).None? then None else Some(Translated(newlines, [], true).out);
  }

  lemma NothingReadYet()
    ensures FRESH == After([]) && Newlines([], false) == NewlinesAfter(FRESH.text)
  {
  }

  /** What the decoder has at its end is its text, and nothing stays nothing. */
  lemma EndsWith(raw: Bytes)
    ensures Ended(After(raw)).Some? ==> !After(raw).Broken? && Ended(After(raw)) == Some(After(raw).text)
    ensures Universal([]) == []
  {
  }

  // --- what is read of an opened file ------------------------------------------------

  /** A text and its bytes have carriage returns alike. */
  lemma {:induction false} ReturnsAreBytes(t: Text)
    requires forall c <- t :: Scalar(c)
    ensures CR in t <==> RETURN in Encode(t)
  {
    if t != [] {
      ReturnsAreBytes(t[1..]);
      assert RETURN in EncodePoint(t[0]) <==> t[0] == CR;
      assert t == [t[0]] + t[1..];
    }
  }

  /** A check the caller can make: the file is not cut off within its byte-order mark, and if it is UTF-8
      it has no carriage return. */
  predicate ReadsAlike(raw: Bytes) {
    !CutMark(raw) && (Decode(StripBom(raw)).Some? ==> RETURN !in raw)
  }

  lemma AlikeMeans(raw: Bytes)
    ensures var text := Decode(StripBom(raw)); text.Some? ==> (CR in text.value <==> RETURN in raw)
  {
    if Decode(StripBom(raw)).Some? {
      EncodeDecode(StripBom(raw));
      ReturnsAreBytes(Decode(StripBom(raw)).value);
      if BOM <= raw { assert raw == BOM + raw[3..]; }
    }
  }

  /** The smallest file that reads differently for its carriage return. */
  lemma ReturnsDiffer()
    ensures DecodePgn([RETURN, NEWLINE]) == [CR, LF] && Universal([CR, LF]) == [LF]
    ensures Decode(StripBom([RETURN, NEWLINE])) == Some([CR, LF]) && !ReadsAlike([RETURN, NEWLINE])
  {
    var text: Text := [CR, LF];
    assert text[1..] == [LF] && text[1..][1..] == [];
    assert Encode(text[1..][1..]) == [];
    assert Encode(text[1..]) == EncodePoint(LF) + [] && EncodePoint(LF) == [NEWLINE];
    assert Encode(text) == EncodePoint(CR) + [NEWLINE] && EncodePoint(CR) == [RETURN];
    DecodeEncode(text);
    assert StripBom([RETURN, NEWLINE]) == [RETURN, NEWLINE] == Encode(text);
    assert Universal(text[1..]) == [LF];
  }

  /** `open_pgn` and a read of what it opens, the check and the reading in whatever chunks: the text of
      `decode_pgn` with universal newlines where the file is UTF-8, and nothing for the two cut marks. So
      it is the text of `decode_pgn` exactly for the files that are neither a cut mark nor UTF-8 with a
      carriage return. */
  method OpenPgn(checked: seq<Bytes>, chunks: seq<Bytes>) returns (t: Text)
    requires Concat(checked) == Concat(chunks)
    ensures var raw := Concat(chunks);
      t == if CutMark(raw) then []
           else if Decode(StripBom(raw)).Some? then Universal(DecodePgn(raw)) else DecodePgn(raw)
    ensures t == DecodePgn(Concat(chunks)) <==> ReadsAlike(Concat(chunks))
  {
    ghost var raw := Concat(chunks);
    if CutMark(raw) { NotUtf8(raw); }
    UniversalKeepsIff(DecodePgn(raw));
    AlikeMeans(raw);
    var accepted := Accepts(checked);
    if accepted {
      var read := ReadText(chunks);
      t := if read.Some? then read.value else [];
    } else {
      t := ReadLazily(Concat(chunks));
    }
  }
}
