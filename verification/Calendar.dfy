/**
 The calendar file of an event: text values escaped (section 3.3.11 of RFC 5545), long lines folded (section 3.1), and
 both read back. Text is a sequence of code points, lone surrogates among them.
 */
module Calendar {

  type Code = c: int | 0 <= c < 0x110000

  type Text = seq<Code>

  const TAB: Code := 9
  const LF: Code := 10
  const CR: Code := 13
  const SPACE: Code := 32
  const COMMA: Code := 44
  const SEMICOLON: Code := 59
  const UPPER_N: Code := 78
  const BACKSLASH: Code := 92
  const LOWER_N: Code := 110

  const MAX_OCTETS := 75

  // ------------------------------------------------------------------ escaping

  function ReplaceEach(s: Text, c: Code, r: Text): Text {
    if s == [] then [] else (if s[0] == c then r else [s[0]]) + ReplaceEach(s[1..], c, r)
  }

  /** Replaces each LF, with the CR before it when there is one. */
  function ReplaceNewlines(s: Text, r: Text): Text
    decreases |s|
  {
    if s == [] then []
    else if |s| >= 2 && s[0] == CR && s[1] == LF then r + ReplaceNewlines(s[2..], r)
    else if s[0] == LF then r + ReplaceNewlines(s[1..], r)
    else [s[0]] + ReplaceNewlines(s[1..], r)
  }

  /** The three chained replaces that put a backslash before a character. */
  function Marked(s: Text): Text {
    ReplaceEach(ReplaceEach(ReplaceEach(s, BACKSLASH, [BACKSLASH, BACKSLASH]), SEMICOLON, [BACKSLASH, SEMICOLON]),
                COMMA, [BACKSLASH, COMMA])
  }

  function IcsText(s: Text): Text {
    ReplaceNewlines(Marked(s), [BACKSLASH, LOWER_N])
  }

  function EscapeOne(c: Code): Text {
    if c in {BACKSLASH, SEMICOLON, COMMA} then [BACKSLASH, c] else [c]
  }

  /** Escaping in one pass, character by character. */
  function Escape(s: Text): Text
    decreases |s|
  {
    if s == [] then []
    else if |s| >= 2 && s[0] == CR && s[1] == LF then [BACKSLASH, LOWER_N] + Escape(s[2..])
    else if s[0] == LF then [BACKSLASH, LOWER_N] + Escape(s[1..])
    else EscapeOne(s[0]) + Escape(s[1..])
  }

  lemma {:induction false} ReplaceAppend(a: Text, b: Text, c: Code, r: Text)
    ensures ReplaceEach(a + b, c, r) == ReplaceEach(a, c, r) + ReplaceEach(b, c, r)
    decreases |a|
  {
    if a == [] {
      assert a + b == b;
    } else {
      ReplaceAppend(a[1..], b, c, r);
      assert (a + b)[1..] == a[1..] + b;
      var first := if a[0] == c then r else [a[0]];
      assert first + (ReplaceEach(a[1..], c, r) + ReplaceEach(b, c, r)) ==
             first + ReplaceEach(a[1..], c, r) + ReplaceEach(b, c, r);
    }
  }

  lemma ReplaceOne(x: Code, c: Code, r: Text)
    ensures ReplaceEach([x], c, r) == if x == c then r else [x]
  {
    assert ReplaceEach([x][1..], c, r) == [];
  }

  lemma ReplaceTwo(x: Code, y: Code, c: Code, r: Text)
    requires x != c && y != c
    ensures ReplaceEach([x, y], c, r) == [x, y]
  {
    ReplaceAppend([x], [y], c, r);
    ReplaceOne(x, c, r);
    ReplaceOne(y, c, r);
    assert [x] + [y] == [x, y];
  }

  /** The chained replaces meet no character another one put there, so they act on each character alone. */
  lemma MarkedOne(x: Code)
    ensures Marked([x]) == EscapeOne(x)
  {
    ReplaceOne(x, BACKSLASH, [BACKSLASH, BACKSLASH]);
    if x == BACKSLASH {
      ReplaceTwo(BACKSLASH, BACKSLASH, SEMICOLON, [BACKSLASH, SEMICOLON]);
      ReplaceTwo(BACKSLASH, BACKSLASH, COMMA, [BACKSLASH, COMMA]);
    } else {
      ReplaceOne(x, SEMICOLON, [BACKSLASH, SEMICOLON]);
      if x == SEMICOLON {
        ReplaceTwo(BACKSLASH, SEMICOLON, COMMA, [BACKSLASH, COMMA]);
      } else {
        ReplaceOne(x, COMMA, [BACKSLASH, COMMA]);
      }
    }
  }

  lemma MarkedFirst(s: Text)
    requires s != []
    ensures Marked(s) == EscapeOne(s[0]) + Marked(s[1..])
  {
    var a, b := [s[0]], s[1..];
    assert s == a + b;
    var first := ReplaceEach(a, BACKSLASH, [BACKSLASH, BACKSLASH]);
    var rest := ReplaceEach(b, BACKSLASH, [BACKSLASH, BACKSLASH]);
    ReplaceAppend(a, b, BACKSLASH, [BACKSLASH, BACKSLASH]);
    ReplaceAppend(first, rest, SEMICOLON, [BACKSLASH, SEMICOLON]);
    ReplaceAppend(ReplaceEach(first, SEMICOLON, [BACKSLASH, SEMICOLON]),
                  ReplaceEach(rest, SEMICOLON, [BACKSLASH, SEMICOLON]), COMMA, [BACKSLASH, COMMA]);
    MarkedOne(s[0]);
  }

  /** A character that is no newline passes the newline replace, unless it is the CR of one. */
  lemma PlainPasses(x: Code, t: Text, r: Text)
    requires x != LF && (x == CR ==> t == [] || t[0] != LF)
    ensures ReplaceNewlines([x] + t, r) == [x] + ReplaceNewlines(t, r)
  {
    assert ([x] + t)[1..] == t;
  }

  lemma EscapedPasses(x: Code, t: Text, r: Text)
    requires x != LF && (x == CR ==> t == [] || t[0] != LF)
    ensures ReplaceNewlines(EscapeOne(x) + t, r) == EscapeOne(x) + ReplaceNewlines(t, r)
  {
    if x in {BACKSLASH, SEMICOLON, COMMA} {
      PlainPasses(BACKSLASH, [x] + t, r);
      PlainPasses(x, t, r);
      assert EscapeOne(x) + t == [BACKSLASH] + ([x] + t);
    } else {
      PlainPasses(x, t, r);
    }
  }

  /** The four chained replaces are one map over the characters. */
  lemma {:induction false} IcsTextIsEscape(s: Text)
    ensures IcsText(s) == Escape(s)
    decreases |s|
  {
    var nl: Text := [BACKSLASH, LOWER_N];
    if s != [] {
      var rest := s[1..];
      MarkedFirst(s);
      if rest != [] { MarkedFirst(rest); }
      if s[0] == LF {
        IcsTextIsEscape(rest);
        assert ([LF] + Marked(rest))[1..] == Marked(rest);
      } else if s[0] == CR && rest != [] && rest[0] == LF {
        IcsTextIsEscape(s[2..]);
        assert rest[1..] == s[2..];
        assert Marked(s)[2..] == Marked(s[2..]);
      } else {
        IcsTextIsEscape(rest);
        EscapedPasses(s[0], Marked(rest), nl);
      }
    }
  }

  /** Reading a text value: each backslash escape is the character it stands for. */
  function Unescape(s: Text): Text
    decreases |s|
  {
    if s == [] then []
    else if |s| >= 2 && s[0] == BACKSLASH && s[1] in {BACKSLASH, SEMICOLON, COMMA} then [s[1]] + Unescape(s[2..])
    else if |s| >= 2 && s[0] == BACKSLASH && s[1] in {LOWER_N, UPPER_N} then [LF] + Unescape(s[2..])
    else [s[0]] + Unescape(s[1..])
  }

  function CrlfAsLf(s: Text): Text
    decreases |s|
  {
    if s == [] then []
    else if |s| >= 2 && s[0] == CR && s[1] == LF then [LF] + CrlfAsLf(s[2..])
    else [s[0]] + CrlfAsLf(s[1..])
  }

  lemma {:induction false} EscapeReadsBack(s: Text)
    ensures Unescape(Escape(s)) == CrlfAsLf(s)
    decreases |s|
  {
    if s != [] {
      if |s| >= 2 && s[0] == CR && s[1] == LF {
        EscapeReadsBack(s[2..]);
        assert Escape(s)[2..] == Escape(s[2..]);
      } else if s[0] == LF {
        EscapeReadsBack(s[1..]);
        assert Escape(s)[2..] == Escape(s[1..]);
      } else if s[0] in {BACKSLASH, SEMICOLON, COMMA} {
        EscapeReadsBack(s[1..]);
        assert Escape(s)[2..] == Escape(s[1..]);
      } else {
        EscapeReadsBack(s[1..]);
        assert Escape(s)[1..] == Escape(s[1..]);
      }
    }
  }

  lemma {:induction false} EscapedHasNoLineFeed(s: Text)
    ensures LF !in Escape(s)
    decreases |s|
  {
    if s != [] {
      if |s| >= 2 && s[0] == CR && s[1] == LF { EscapedHasNoLineFeed(s[2..]); } else { EscapedHasNoLineFeed(s[1..]); }
    }
  }

  // ------------------------------------------------------------------ folding

  type Octet = b: int | 0 <= b < 256

  /** One character in UTF-8 (section 3 of RFC 3629). */
  function Utf8(c: Code): seq<Octet> {
    if c < 0x80 then [c]
    else if c < 0x800 then [0xC0 + c / 0x40, 0x80 + c % 0x40]
    else if c < 0x10000 then [0xE0 + c / 0x1000, 0x80 + c / 0x40 % 0x40, 0x80 + c % 0x40]
    else [0xF0 + c / 0x40000, 0x80 + c / 0x1000 % 0x40, 0x80 + c / 0x40 % 0x40, 0x80 + c % 0x40]
  }

  function Utf8Text(s: Text): seq<Octet> {
    if s == [] then [] else Utf8Text(s[..|s| - 1]) + Utf8(s[|s| - 1])
  }

  /** How many octets follow the first of a character, and the bits they carry below `bits`. */
  function Following(lead: Octet): nat {
    if lead < 0xC0 then 0 else if lead < 0xE0 then 1 else if lead < 0xF0 then 2 else 3
  }

  function LeadBits(lead: Octet): int {
    if lead < 0xC0 then lead else if lead < 0xE0 then lead - 0xC0 else if lead < 0xF0 then lead - 0xE0 else lead - 0xF0
  }

  function Decoded(bits: int, rest: seq<Octet>): int
    decreases |rest|
  {
    if rest == [] then bits else Decoded(bits * 0x40 + rest[0] - 0x80, rest[1..])
  }

  /** A character's octets say how many there are, and read back as the character. */
  lemma Utf8ReadsBack(c: Code)
    ensures var u := Utf8(c);
            |u| == 1 + Following(u[0]) && Decoded(LeadBits(u[0]), u[1..]) == c
  {
    var u := Utf8(c);
    var bits := LeadBits(u[0]);
    if |u| == 2 {
      Decode1(bits, u[1]);
      assert u[1..] == [u[1]];
    } else if |u| == 3 {
      Decode1(bits * 0x40 + (u[1] - 0x80), u[2]);
      assert u[1..] == [u[1], u[2]] && u[1..][1..] == [u[2]];
      assert c / 0x40 == c / 0x1000 * 0x40 + c / 0x40 % 0x40;
    } else if |u| == 4 {
      Decode1((bits * 0x40 + (u[1] - 0x80)) * 0x40 + (u[2] - 0x80), u[3]);
      assert u[1..] == [u[1], u[2], u[3]] && u[1..][1..] == [u[2], u[3]] && u[1..][1..][1..] == [u[3]];
      assert c / 0x1000 == c / 0x40000 * 0x40 + c / 0x1000 % 0x40;
      assert c / 0x40 == c / 0x1000 * 0x40 + c / 0x40 % 0x40;
    }
  }

  lemma Decode1(bits: int, octet: Octet)
    ensures Decoded(bits, [octet]) == bits * 0x40 + (octet - 0x80)
  {
  }

  function Utf8Length(c: Code): (size: nat)
    ensures size == |Utf8(c)|
  {
    if c < 0x80 then 1 else if c < 0x800 then 2 else if c < 0x10000 then 3 else 4
  }

  /** The octets a text takes when written. */
  ghost function Octets(s: Text): nat {
    |Utf8Text(s)|
  }

  /** The line that pieces continue: each but the first starts with a space of its own. */
  function Continued(pieces: seq<Text>): Text {
    if pieces == [] then []
    else if |pieces| == 1 then pieces[0]
    else Continued(pieces[..|pieces| - 1]) + if pieces[|pieces| - 1] == [] then [] else pieces[|pieces| - 1][1..]
  }

  /** Pieces of at most 75 octets, each but the last so full that the next character would not fit. */
  ghost predicate IsFold(line: Text, pieces: seq<Text>) {
    && pieces != []
    && Continued(pieces) == line
    && (forall k :: 0 <= k < |pieces| ==> Octets(pieces[k]) <= MAX_OCTETS)
    &&
       (forall k :: 1 <= k < |pieces| ==>
                      |pieces[k]| >= 2 && pieces[k][0] == SPACE &&
                      Octets(pieces[k - 1]) + |Utf8(pieces[k][1])| > MAX_OCTETS)
  }

  lemma OctetsMore(s: Text, c: Code)
    ensures Octets(s + [c]) == Octets(s) + Utf8Length(c)
  {
    assert (s + [c])[..|s|] == s;
  }

  lemma ContinuedGrows(out: seq<Text>, current: Text, c: Code)
    requires out != [] ==> current != []
    ensures Continued(out + [current + [c]]) == Continued(out + [current]) + [c]
  {
    assert (out + [current])[..|out|] == out && (out + [current + [c]])[..|out|] == out;
    if out != [] {
      assert (current + [c])[1..] == current[1..] + [c];
    }
  }

  /** The character read next goes on the current piece, which it does not overfill. */
  lemma PieceGrows(line: Text, out: seq<Text>, current: Text, c: Code)
    requires IsFold(line, out + [current]) && Octets(current) + Utf8Length(c) <= MAX_OCTETS
    ensures IsFold(line + [c], out + [current + [c]])
    ensures Octets(current + [c]) == Octets(current) + Utf8Length(c)
  {
    var pieces, grown := out + [current], out + [current + [c]];
    assert pieces[|out|] == current;
    OctetsMore(current, c);
    ContinuedGrows(out, current, c);
    forall k | 1 <= k < |grown|
      ensures |grown[k]| >= 2 && grown[k][0] == SPACE && Octets(grown[k - 1]) + Utf8Length(grown[k][1]) > MAX_OCTETS
    {
      assert grown[k - 1] == pieces[k - 1] && |pieces[k]| >= 2;
    }
  }

  lemma NewPiece(pieces: seq<Text>, c: Code)
    requires pieces != []
    ensures Octets([SPACE] + [c]) == 1 + Utf8Length(c) <= MAX_OCTETS
    ensures Continued(pieces + [[SPACE] + [c]]) == Continued(pieces) + [c]
  {
    assert [] + [SPACE] == [SPACE];
    OctetsMore([], SPACE);
    OctetsMore([SPACE], c);
    assert Utf8Length(c) == |Utf8(c)|;
    assert (pieces + [[SPACE] + [c]])[..|pieces|] == pieces;
    assert ([SPACE] + [c])[1..] == [c];
  }

  /** The character that does not fit starts a piece of its own. */
  lemma PieceStarts(line: Text, pieces: seq<Text>, c: Code)
    requires IsFold(line, pieces) && Octets(pieces[|pieces| - 1]) + Utf8Length(c) > MAX_OCTETS
    ensures IsFold(line + [c], pieces + [[SPACE] + [c]])
    ensures Octets([SPACE] + [c]) == 1 + Utf8Length(c)
  {
    NewPiece(pieces, c);
  }

  method Fold(line: Text) returns (pieces: seq<Text>)
    ensures IsFold(line, pieces)
  {
    var out: seq<Text> := [];
    var current: Text := [];
    var octets := 0;
    for i := 0 to |line|
      invariant octets == Octets(current)
      invariant IsFold(line[..i], out + [current])
    {
      var c := line[i];
      var size := Utf8Length(c);
      assert line[..i + 1] == line[..i] + [c];
      if octets + size > MAX_OCTETS {
        PieceStarts(line[..i], out + [current], c);
        out := out + [current];
        current, octets := [SPACE], 1;
      } else {
        PieceGrows(line[..i], out, current, c);
      }
      current := current + [c];
      octets := octets + size;
    }
    assert line[..|line|] == line;
    pieces := out + [current];
  }

  // ------------------------------------------------------------------ lines of a file

  /** Lines, each ended by CRLF. */
  function Ended(lines: seq<Text>): Text {
    if lines == [] then [] else lines[0] + [CR, LF] + Ended(lines[1..])
  }

  /** Reading lines: cut at each CRLF. */
  function Split(t: Text): (r: seq<Text>)
    ensures r != []
    decreases |t|
  {
    if t == [] then [[]]
    else if |t| >= 2 && t[0] == CR && t[1] == LF then [[]] + Split(t[2..])
    else
      var r := Split(t[1..]);
      [[t[0]] + r[0]] + r[1..]
  }

  /** Unfolding: a CRLF with one space or tab after it is removed. */
  function Unfold(t: Text): Text
    decreases |t|
  {
    if t == [] then []
    else if |t| >= 3 && t[0] == CR && t[1] == LF && t[2] in {SPACE, TAB} then Unfold(t[3..])
    else [t[0]] + Unfold(t[1..])
  }

  lemma {:induction false} SplitFirstLine(line: Text, rest: Text)
    requires LF !in line
    ensures Split(line + [CR, LF] + rest) == [line] + Split(rest)
    decreases |line|
  {
    var t := line + [CR, LF] + rest;
    if line == [] {
      assert t[2..] == rest;
    } else {
      SplitFirstLine(line[1..], rest);
      assert t[1..] == line[1..] + [CR, LF] + rest;
      assert t[0] == line[0] && (if |line| > 1 then t[1] == line[1] else t[1] == CR);
      assert [t[0]] + line[1..] == line;
    }
  }

  /** Lines that hold no LF are read back as they were. */
  lemma {:induction false} SplitEnded(lines: seq<Text>)
    requires forall k :: 0 <= k < |lines| ==> LF !in lines[k]
    ensures Split(Ended(lines)) == lines + [[]]
    decreases |lines|
  {
    if lines != [] {
      SplitFirstLine(lines[0], Ended(lines[1..]));
      SplitEnded(lines[1..]);
    }
  }

  lemma {:induction false} UnfoldPasses(a: Text, rest: Text)
    requires LF !in a && (rest == [] || rest[0] != LF)
    ensures Unfold(a + rest) == a + Unfold(rest)
    decreases |a|
  {
    var t := a + rest;
    if a == [] {
      assert t == rest;
    } else {
      UnfoldPasses(a[1..], rest);
      assert t[1..] == a[1..] + rest;
      assert t[0] == a[0] && (|t| > 1 ==> t[1] == if |a| > 1 then a[1] else rest[0]);
    }
  }

  /** A fold within a line leaves no trace. */
  lemma UnfoldJoins(rest: Text)
    ensures Unfold([CR, LF, SPACE] + rest) == Unfold(rest)
  {
    assert ([CR, LF, SPACE] + rest)[3..] == rest;
  }

  lemma UnfoldKeeps(c: Code, rest: Text)
    requires c != CR || |rest| < 2 || rest[0] != LF || rest[1] !in {SPACE, TAB}
    ensures Unfold([c] + rest) == [c] + Unfold(rest)
  {
    assert ([c] + rest)[1..] == rest;
  }

  /** A line's end stays when no space or tab follows. */
  lemma UnfoldEnds(rest: Text)
    requires rest == [] || rest[0] !in {SPACE, TAB}
    ensures Unfold([CR, LF] + rest) == [CR, LF] + Unfold(rest)
  {
    UnfoldKeeps(LF, rest);
    UnfoldKeeps(CR, [LF] + rest);
    assert [CR] + ([LF] + rest) == [CR, LF] + rest;
    assert [CR] + ([LF] + Unfold(rest)) == [CR, LF] + Unfold(rest);
  }

  lemma {:induction false} EndedAppend(a: seq<Text>, b: seq<Text>)
    ensures Ended(a + b) == Ended(a) + Ended(b)
    decreases |a|
  {
    if a == [] {
      assert a + b == b;
    } else {
      EndedAppend(a[1..], b);
      assert (a + b)[1..] == a[1..] + b;
    }
  }

  lemma EndedOne(line: Text)
    ensures Ended([line]) == line + [CR, LF]
  {
    assert Ended([line][1..]) == [];
  }

  /** A line's characters are those of its pieces. */
  lemma {:induction false} PiecesHoldNoLineFeed(pieces: seq<Text>)
    requires LF !in Continued(pieces) && forall k :: 1 <= k < |pieces| ==> pieces[k] != [] && pieces[k][0] == SPACE
    ensures forall k :: 0 <= k < |pieces| ==> LF !in pieces[k]
    decreases |pieces|
  {
    if |pieces| > 1 {
      var front, last := pieces[..|pieces| - 1], pieces[|pieces| - 1];
      PiecesHoldNoLineFeed(front);
      assert last == [SPACE] + last[1..];
      forall k | 0 <= k < |pieces| ensures LF !in pieces[k] {
        if k < |front| { assert pieces[k] == front[k]; }
      }
    }
  }

  /** A continuation piece, after the end of the one before, gives its text but for the space. */
  lemma LastPieceUnfolds(before: Text, piece: Text, rest: Text)
    requires LF !in piece && piece != [] && piece[0] == SPACE
    ensures before + (piece + [CR, LF]) + rest == before + ([SPACE] + (piece[1..] + ([CR, LF] + rest)))
    ensures Unfold([CR, LF] + ([SPACE] + (piece[1..] + ([CR, LF] + rest)))) == piece[1..] + Unfold([CR, LF] + rest)
  {
    var more := piece[1..] + ([CR, LF] + rest);
    assert [CR, LF] + ([SPACE] + more) == [CR, LF, SPACE] + more;
    UnfoldJoins(more);
    UnfoldPasses(piece[1..], [CR, LF] + rest);
  }

  /** Unfolding pieces gives the line they continue, whatever follows. */
  lemma {:induction false} UnfoldPieces(pieces: seq<Text>, rest: Text)
    requires pieces != []
    requires forall k :: 0 <= k < |pieces| ==> LF !in pieces[k]
    requires forall k :: 1 <= k < |pieces| ==> pieces[k] != [] && pieces[k][0] == SPACE
    ensures Unfold(Ended(pieces) + rest) == Continued(pieces) + Unfold([CR, LF] + rest)
    decreases |pieces|
  {
    var front, last := pieces[..|pieces| - 1], pieces[|pieces| - 1];
    assert pieces == front + [last];
    EndedAppend(front, [last]);
    EndedOne(last);
    if front == [] {
      UnfoldPasses(last, [CR, LF] + rest);
      assert Ended(pieces) + rest == last + ([CR, LF] + rest);
    } else {
      var x := last[1..];
      UnfoldPieces(front, [SPACE] + (x + ([CR, LF] + rest)));
      LastPieceUnfolds(Ended(front), last, rest);
    }
  }

  lemma {:induction false} ContinuedStarts(pieces: seq<Text>)
    requires pieces != []
    ensures pieces[0] <= Continued(pieces)
    decreases |pieces|
  {
    if |pieces| > 1 { ContinuedStarts(pieces[..|pieces| - 1]); }
  }

  /** A line of the file before folding: it holds no LF and starts with no space or tab. */
  predicate IsLine(line: Text) {
    LF !in line && (line == [] || line[0] !in {SPACE, TAB})
  }

  function Flat(folds: seq<seq<Text>>): seq<Text> {
    if folds == [] then [] else folds[0] + Flat(folds[1..])
  }

  ghost predicate AreFolds(lines: seq<Text>, folds: seq<seq<Text>>) {
    |folds| == |lines| && forall k :: 0 <= k < |lines| ==> IsLine(lines[k]) && IsFold(lines[k], folds[k])
  }

  lemma FoldedFileStarts(lines: seq<Text>, folds: seq<seq<Text>>)
    requires AreFolds(lines, folds)
    ensures var t := Ended(Flat(folds)); t == [] || t[0] !in {SPACE, TAB}
  {
    if folds != [] {
      assert IsFold(lines[0], folds[0]);
      ContinuedStarts(folds[0]);
      assert Flat(folds)[0] == folds[0][0];
    }
  }

  /** One folded line at the head of a file unfolds, its end kept. */
  lemma UnfoldFirstLine(line: Text, pieces: seq<Text>, rest: Text)
    requires IsLine(line) && IsFold(line, pieces) && (rest == [] || rest[0] !in {SPACE, TAB})
    ensures Unfold(Ended(pieces) + rest) == line + [CR, LF] + Unfold(rest)
  {
    PiecesHoldNoLineFeed(pieces);
    UnfoldPieces(pieces, rest);
    UnfoldEnds(rest);
  }

  /** Unfolding a file of folded lines gives the file of the lines. */
  lemma {:induction false} UnfoldFile(lines: seq<Text>, folds: seq<seq<Text>>)
    requires AreFolds(lines, folds)
    ensures Unfold(Ended(Flat(folds))) == Ended(lines)
    decreases |lines|
  {
    if lines != [] {
      var pieces, rest := folds[0], Ended(Flat(folds[1..]));
      assert IsLine(lines[0]) && IsFold(lines[0], pieces);
      EndedAppend(pieces, Flat(folds[1..]));
      FoldedFileStarts(lines[1..], folds[1..]);
      UnfoldFirstLine(lines[0], pieces, rest);
      UnfoldFile(lines[1..], folds[1..]);
    }
  }

  /** The physical lines of a folded file are its pieces: none is longer than 75 octets. */
  lemma {:induction false} PiecesAreShort(lines: seq<Text>, folds: seq<seq<Text>>)
    requires AreFolds(lines, folds)
    ensures forall k :: 0 <= k < |Flat(folds)| ==> LF !in Flat(folds)[k] && Octets(Flat(folds)[k]) <= MAX_OCTETS
    decreases |lines|
  {
    if lines != [] {
      assert IsLine(lines[0]) && IsFold(lines[0], folds[0]);
      PiecesHoldNoLineFeed(folds[0]);
      PiecesAreShort(lines[1..], folds[1..]);
    }
  }

  lemma {:induction false} FlatMore(folds: seq<seq<Text>>, pieces: seq<Text>)
    ensures Flat(folds + [pieces]) == Flat(folds) + pieces
    decreases |folds|
  {
    if folds == [] {
      assert folds + [pieces] == [pieces] && Flat([pieces][1..]) == [];
    } else {
      FlatMore(folds[1..], pieces);
      assert (folds + [pieces])[1..] == folds[1..] + [pieces];
    }
  }

  const SUMMARY: Text := [83, 85, 77, 77, 65, 82, 89, 58]

  lemma OneMoreFold(lines: seq<Text>, folds: seq<seq<Text>>, line: Text, pieces: seq<Text>)
    requires AreFolds(lines, folds) && IsLine(line) && IsFold(line, pieces)
    ensures AreFolds(lines + [line], folds + [pieces])
    ensures Ended(Flat(folds + [pieces])) == Ended(Flat(folds)) + Ended(pieces)
  {
    FlatMore(folds, pieces);
    EndedAppend(Flat(folds), pieces);
  }

  /** A file of folded lines reads back as the lines, and its physical lines are short. */
  lemma FoldedFileReadsBack(lines: seq<Text>, folds: seq<seq<Text>>)
    requires AreFolds(lines, folds)
    ensures Split(Unfold(Ended(Flat(folds)))) == lines + [[]]
    ensures forall k :: 0 <= k < |Split(Ended(Flat(folds)))| ==> Octets(Split(Ended(Flat(folds)))[k]) <= MAX_OCTETS
  {
    UnfoldFile(lines, folds);
    assert forall k :: 0 <= k < |lines| ==> IsLine(lines[k]);
    SplitEnded(lines);
    PiecesAreShort(lines, folds);
    SplitEnded(Flat(folds));
  }

  /** Writes lines folded, each ended by CRLF. */
  method WriteLines(lines: seq<Text>) returns (text: Text)
    requires forall k :: 0 <= k < |lines| ==> IsLine(lines[k])
    ensures Split(Unfold(text)) == lines + [[]]
    ensures forall k :: 0 <= k < |Split(text)| ==> Octets(Split(text)[k]) <= MAX_OCTETS
  {
    text := [];
    ghost var folds: seq<seq<Text>> := [];
    for i := 0 to |lines|
      invariant AreFolds(lines[..i], folds) && text == Ended(Flat(folds))
    {
      var pieces := Fold(lines[i]);
      assert lines[..i + 1] == lines[..i] + [lines[i]];
      OneMoreFold(lines[..i], folds, lines[i], pieces);
      folds := folds + [pieces];
      text := text + Ended(pieces);
    }
    assert lines[..|lines|] == lines;
    FoldedFileReadsBack(lines, folds);
  }

  /**
   The file of an event, its title between lines of its own. Read by unfolding, cutting into lines and unescaping, it
   gives every line back and the title with each CRLF as LF; and no physical line is longer than 75 octets.
   */
  method EventFile(before: seq<Text>, title: Text, after: seq<Text>) returns (text: Text)
    requires forall k :: 0 <= k < |before| ==> IsLine(before[k])
    requires forall k :: 0 <= k < |after| ==> IsLine(after[k])
    ensures forall k :: 0 <= k < |Split(text)| ==> Octets(Split(text)[k]) <= MAX_OCTETS
    ensures |Split(Unfold(text))| == |before| + |after| + 2
    ensures Split(Unfold(text))[..|before|] == before
    ensures Split(Unfold(text))[|before| + 1..] == after + [[]]
    ensures var line := Split(Unfold(text))[|before|];
            SUMMARY <= line && Unescape(line[|SUMMARY|..]) == CrlfAsLf(title)
  {
    IcsTextIsEscape(title);
    EscapedHasNoLineFeed(title);
    EscapeReadsBack(title);
    var lines := before + [SUMMARY + IcsText(title)] + after;
    text := WriteLines(lines);
    assert (SUMMARY + IcsText(title))[|SUMMARY|..] == IcsText(title);
  }
}
