// mailer.go (encodeSubject, and the body of buildMessage): subjects as encoded
// words after sections 2 and 5 of RFC 2047, and bodies in base64 lines.
module Subject {
  import opened Options

  type Byte = b: int | 0 <= b < 256

  // ----- base64 -----

  type Sextet = v: int | 0 <= v < 64

  // The standard alphabet: letters, digits, plus and slash.
  function Digit(v: Sextet): char {
    if v < 26 then (v + 65) as char
    else if v < 52 then (v + 71) as char
    else if v < 62 then (v - 4) as char
    else if v == 62 then '+'
    else '/'
  }

  function Value(c: char): Option<Sextet> {
    if 'A' <= c <= 'Z' then Some(c as int - 65)
    else if 'a' <= c <= 'z' then Some(c as int - 71)
    else if '0' <= c <= '9' then Some(c as int + 4)
    else if c == '+' then Some(62)
    else if c == '/' then Some(63)
    else None
  }

  lemma DigitValue(v: Sextet)
    ensures Value(Digit(v)) == Some(v) && Digit(v) != '=' && Printable(Digit(v))
  {
  }

  function Encode64(s: seq<Byte>): string {
    if |s| == 0 then ""
    else if |s| == 1 then [Digit(s[0] / 4), Digit(s[0] % 4 * 16), '=', '=']
    else if |s| == 2 then [Digit(s[0] / 4), Digit(s[0] % 4 * 16 + s[1] / 16), Digit(s[1] % 16 * 4), '=']
    else
      [Digit(s[0] / 4), Digit(s[0] % 4 * 16 + s[1] / 16), Digit(s[1] % 16 * 4 + s[2] / 64), Digit(s[2] % 64)]
      + Encode64(s[3..])
  }

  function Decode64(t: string): Option<seq<Byte>> {
    if |t| == 0 then Some([])
    else if |t| < 4 then None
    else
      var a, b, c, d := Value(t[0]), Value(t[1]), Value(t[2]), Value(t[3]);
      if a.None? || b.None? then None
      else if t[3] == '=' then
        if |t| > 4 then None
        else if t[2] == '=' then Some([a.value * 4 + b.value / 16])
        else if c.None? then None
        else Some([a.value * 4 + b.value / 16, b.value % 16 * 16 + c.value / 4])
      else if c.None? || d.None? then None
      else
        match Decode64(t[4..])
        case None => None
        case Some(rest) =>
          Some([a.value * 4 + b.value / 16, b.value % 16 * 16 + c.value / 4, c.value % 4 * 64 + d.value] + rest)
  }

  lemma {:induction false} Base64Length(s: seq<Byte>)
    ensures |Encode64(s)| == (|s| + 2) / 3 * 4
  {
    hide Digit;
    if |s| > 2 {
      Base64Length(s[3..]);
      var rest := Encode64(s[3..]);
      assert |Encode64(s)| == 4 + |rest|;
      Thirds(|s| - 1);
    } else if |s| == 2 {
      assert (2 + 2) / 3 * 4 == 4;
    }
  }

  lemma Thirds(n: int)
    ensures (n + 3) / 3 == n / 3 + 1
  {
  }

  lemma {:induction false} Base64RoundTrip(s: seq<Byte>)
    ensures Decode64(Encode64(s)) == Some(s)
  {
    if |s| == 1 {
      OneReads(s[0]);
      assert s == [s[0]];
    } else if |s| == 2 {
      TwoRead(s[0], s[1]);
      assert s == [s[0], s[1]];
    } else if |s| > 2 {
      Base64RoundTrip(s[3..]);
      hide Decode64;
      GroupReads(s[0], s[1], s[2], Encode64(s[3..]), s[3..]);
      assert [s[0], s[1], s[2]] + s[3..] == s;
    }
  }

  lemma OneReads(a: Byte)
    ensures Decode64([Digit(a / 4), Digit(a % 4 * 16), '=', '=']) == Some([a])
  {
    hide Digit;
    DigitValue(a / 4);
    DigitValue(a % 4 * 16);
  }

  lemma TwoRead(a: Byte, b: Byte)
    ensures Decode64([Digit(a / 4), Digit(a % 4 * 16 + b / 16), Digit(b % 16 * 4), '=']) == Some([a, b])
  {
    hide Digit;
    DigitValue(a / 4);
    DigitValue(a % 4 * 16 + b / 16);
    DigitValue(b % 16 * 4);
  }

  lemma GroupReads(a: Byte, b: Byte, c: Byte, t: string, rest: seq<Byte>)
    requires Decode64(t) == Some(rest)
    ensures Decode64([Digit(a / 4), Digit(a % 4 * 16 + b / 16), Digit(b % 16 * 4 + c / 64), Digit(c % 64)] + t)
         == Some([a, b, c] + rest)
  {
    hide Digit, Value;
    var u := [Digit(a / 4), Digit(a % 4 * 16 + b / 16), Digit(b % 16 * 4 + c / 64), Digit(c % 64)] + t;
    DigitValue(a / 4);
    DigitValue(a % 4 * 16 + b / 16);
    DigitValue(b % 16 * 4 + c / 64);
    DigitValue(c % 64);
    assert u[4..] == t;
  }

  predicate Printable(c: char) { ' ' < c <= '~' }

  lemma {:induction false} Base64IsPrintable(s: seq<Byte>)
    ensures forall i :: 0 <= i < |Encode64(s)| ==> Printable(Encode64(s)[i])
  {
    hide Digit;
    forall v: Sextet ensures Printable(Digit(v)) { DigitValue(v); }
    if |s| > 2 { Base64IsPrintable(s[3..]); }
  }

  // ----- UTF-8 -----

  predicate RuneStart(b: Byte) { b / 64 != 2 }

  predicate Continues(s: seq<Byte>, n: nat) {
    |s| >= n && forall i :: 1 <= i < n ==> !RuneStart(s[i])
  }

  // The length of the character that s starts with, 0 when it starts with none
  // (section 4 of RFC 3629).
  function RuneLength(s: seq<Byte>): (n: nat)
    ensures n <= 4 && n <= |s|
    ensures n > 0 ==> RuneStart(s[0]) && forall i :: 1 <= i < n ==> !RuneStart(s[i])
  {
    if |s| == 0 then 0
    else if s[0] < 0x80 then 1
    else if 0xC2 <= s[0] <= 0xDF then (if Continues(s, 2) then 2 else 0)
    else if 0xE0 <= s[0] <= 0xEF then
      if Continues(s, 3) && (s[0] == 0xE0 ==> s[1] >= 0xA0) && (s[0] == 0xED ==> s[1] <= 0x9F) then 3 else 0
    else if 0xF0 <= s[0] <= 0xF4 then
      if Continues(s, 4) && (s[0] == 0xF0 ==> s[1] >= 0x90) && (s[0] == 0xF4 ==> s[1] <= 0x8F) then 4 else 0
    else 0
  }

  predicate ValidUtf8(s: seq<Byte>) {
    |s| == 0 || (RuneLength(s) > 0 && ValidUtf8(s[RuneLength(s)..]))
  }

  lemma RuneLengthOfPrefix(s: seq<Byte>, n: nat)
    requires RuneLength(s) <= n <= |s| && RuneLength(s) > 0
    ensures RuneLength(s[..n]) == RuneLength(s)
  {
  }

  // Cut where a character starts, and both sides are whole characters.
  lemma {:induction false} CutAtRune(s: seq<Byte>, n: nat)
    requires ValidUtf8(s) && n <= |s| && (n == |s| || RuneStart(s[n]))
    ensures ValidUtf8(s[..n]) && ValidUtf8(s[n..])
  {
    if n == 0 {
      assert s[0..] == s;
    } else {
      var k := RuneLength(s);
      assert n >= k;
      RuneLengthOfPrefix(s, n);
      CutAtRune(s[k..], n - k);
      assert s[k..][n - k..] == s[n..] && s[..n][k..] == s[k..][..n - k];
    }
  }

  // No more than three bytes in a row continue a character.
  lemma {:induction false} RuneStartsNearby(s: seq<Byte>, i: nat)
    requires ValidUtf8(s) && i + 4 <= |s|
    ensures RuneStart(s[i]) || RuneStart(s[i + 1]) || RuneStart(s[i + 2]) || RuneStart(s[i + 3])
  {
    var k := RuneLength(s);
    if i >= k {
      RuneStartsNearby(s[k..], i - k);
      assert s[k..][i - k] == s[i] && s[k..][i - k + 1] == s[i + 1] && s[k..][i - k + 2] == s[i + 2]
        && s[k..][i - k + 3] == s[i + 3];
    } else if i > 0 && k < |s| {
      assert RuneLength(s[k..]) > 0 && RuneStart(s[k..][0]) && s[k..][0] == s[k];
    }
  }

  // ----- encoded words -----

  const PREFIX: string := "=?UTF-8?B?"
  const SUFFIX: string := "?="
  const FOLD: string := "\r\n "
  const MAX_WORD: nat := 75

  function Word(chunk: seq<Byte>): string { PREFIX + Encode64(chunk) + SUFFIX }

  function Flatten(chunks: seq<seq<Byte>>): seq<Byte> {
    if |chunks| == 0 then [] else chunks[0] + Flatten(chunks[1..])
  }

  lemma {:induction false} FlattenSnoc(chunks: seq<seq<Byte>>, x: seq<Byte>)
    ensures Flatten(chunks + [x]) == Flatten(chunks) + x
  {
    if |chunks| > 0 {
      FlattenSnoc(chunks[1..], x);
      assert (chunks + [x])[1..] == chunks[1..] + [x];
    } else {
      assert (chunks + [x])[1..] == [];
    }
  }

  function Words(chunks: seq<seq<Byte>>): seq<string> {
    seq(|chunks|, i requires 0 <= i < |chunks| => Word(chunks[i]))
  }

  function Join(words: seq<string>): string {
    if |words| == 0 then "" else if |words| == 1 then words[0] else words[0] + FOLD + Join(words[1..])
  }

  // What a reader makes of a header: words set apart by folding are put together.
  predicate StartsWithFold(s: string) { |s| >= 3 && s[0] == '\r' && s[1] == '\n' && s[2] == ' ' }

  // Where the first fold begins; |s| when there is none.
  function FoldAt(s: string): (i: nat)
    ensures i <= |s| && (i < |s| ==> i + 3 <= |s|)
  {
    if |s| == 0 || StartsWithFold(s) then 0 else 1 + FoldAt(s[1..])
  }

  function ReadWord(w: string): Option<seq<Byte>> {
    if |w| < |PREFIX| + |SUFFIX| || w[..|PREFIX|] != PREFIX || w[|w| - |SUFFIX|..] != SUFFIX then None
    else Decode64(w[|PREFIX|..|w| - |SUFFIX|])
  }

  function ReadSubject(s: string): Option<seq<Byte>> {
    if |s| == 0 then Some([])
    else
      var i := FoldAt(s);
      match ReadWord(s[..i])
      case None => None
      case Some(chunk) =>
        if i == |s| then Some(chunk)
        else
          match ReadSubject(s[i + 3..])
          case None => None
          case Some(rest) => Some(chunk + rest)
  }

  lemma WordReads(chunk: seq<Byte>)
    ensures ReadWord(Word(chunk)) == Some(chunk)
    ensures |Word(chunk)| == 12 + (|chunk| + 2) / 3 * 4
    ensures forall i :: 0 <= i < |Word(chunk)| ==> Printable(Word(chunk)[i])
  {
    Base64RoundTrip(chunk);
    Base64Length(chunk);
    Base64IsPrintable(chunk);
    hide Encode64, Decode64;
    Wrapped(Encode64(chunk));
  }

  lemma Wrapped(t: string)
    requires forall i :: 0 <= i < |t| ==> Printable(t[i])
    ensures var w := PREFIX + t + SUFFIX;
            && |w| == |t| + 12 && w[..|PREFIX|] == PREFIX && w[|w| - |SUFFIX|..] == SUFFIX
              && w[|PREFIX|..|w| - |SUFFIX|] == t
            && forall i :: 0 <= i < |w| ==> Printable(w[i])
  {
    assert |PREFIX| == 10 && |SUFFIX| == 2;
    assert PREFIX == ['=', '?', 'U', 'T', 'F', '-', '8', '?', 'B', '?'] && SUFFIX == ['?', '='];
    assert Printable('=') && Printable('?') && Printable('U') && Printable('T') && Printable('F') && Printable('-')
      && Printable('8') && Printable('B');
    hide Printable;
    var w := PREFIX + t + SUFFIX;
    forall i | 0 <= i < |w| ensures Printable(w[i]) {
      if i < 10 {
        assert w[i] == PREFIX[i];
      } else if i < |w| - 2 {
        assert w[i] == t[i - 10];
      } else {
        assert w[i] == SUFFIX[i - |w| + 2];
      }
    }
  }

  lemma {:induction false} NoFoldInWord(w: string, rest: string)
    requires forall i :: 0 <= i < |w| ==> Printable(w[i])
    ensures FoldAt(w) == |w|
    ensures FoldAt(w + FOLD + rest) == |w|
    decreases |w|
  {
    var s := w + FOLD + rest;
    assert FOLD == ['\r', '\n', ' '];
    if |w| == 0 {
      assert StartsWithFold(s);
    } else {
      NoFoldInWord(w[1..], rest);
      assert s[1..] == w[1..] + FOLD + rest && s[0] == w[0];
      assert !StartsWithFold(s) && !StartsWithFold(w);
    }
  }

  lemma {:induction false} SubjectReads(chunks: seq<seq<Byte>>)
    ensures ReadSubject(Join(Words(chunks))) == Some(Flatten(chunks))
  {
    hide ReadWord, Word;
    if |chunks| > 0 {
      var w := Word(chunks[0]);
      WordReads(chunks[0]);
      assert Words(chunks)[1..] == Words(chunks[1..]);
      assert |w| > 0;
      if |chunks| == 1 {
        NoFoldInWord(w, "");
        assert Flatten(chunks[1..]) == [] && Flatten(chunks) == chunks[0];
        assert Join(Words(chunks)) == w && w[..|w|] == w;
      } else {
        var rest := Join(Words(chunks[1..]));
        NoFoldInWord(w, rest);
        SubjectReads(chunks[1..]);
        var s := w + FOLD + rest;
        assert s[..|w|] == w && s[|w| + 3..] == rest;
      }
    }
  }

  ghost predicate Fits(chunks: seq<seq<Byte>>) {
    forall i :: 0 <= i < |chunks| ==> 0 < |chunks[i]| && |Word(chunks[i])| <= 75
  }

  ghost predicate Whole(chunks: seq<seq<Byte>>) {
    forall i :: 0 <= i < |chunks| ==> ValidUtf8(chunks[i])
  }

  // encodeSubject. Whatever bytes the subject holds the loop ends and a reader
  // gets them back; when they are valid UTF-8 no word splits a character, and the
  // one-byte fallback is never taken.
  method EncodeSubject(subject: seq<Byte>) returns (out: string, ghost chunks: seq<seq<Byte>>)
    ensures out == Join(Words(chunks)) && Flatten(chunks) == subject
    ensures ReadSubject(out) == Some(subject)
    ensures Fits(chunks)
    ensures ValidUtf8(subject) ==> Whole(chunks)
    ensures |subject| > 0 ==> |chunks| > 0 && (ValidUtf8(subject) ==> (ShortLines(chunks) <==> |subject| <= 39))
  {
    hide Encode64, ValidUtf8, ShortLines, ReadSubject, Flatten, Join, Word, Words, Fits, Whole;
    var b64PerWord := (MAX_WORD - |PREFIX| - |SUFFIX|) / 4 * 4;
    var rawPerWord := b64PerWord / 4 * 3;
    if rawPerWord <= 0 {
      assert false;
    }
    var words: seq<string> := [];
    chunks := [];
    Nothing(subject);
    var src := subject;
    while |src| > 0
      invariant words == Words(chunks) && Flatten(chunks) + src == subject && Fits(chunks)
      invariant ValidUtf8(subject) ==> ValidUtf8(src) && Whole(chunks)
      invariant if |chunks| == 0 then src == subject else ValidUtf8(subject) ==>
        (|chunks[0]| <= 39 <==> |subject| <= 39)
      decreases |src|
    {
      var n := Chunk(src, rawPerWord);
      var word := WordOf(src[..n]);
      OneMore(chunks, src, n);
      words := words + [word];
      chunks := chunks + [src[..n]];
      src := src[n..];
    }
    out := JoinAll(words);
    SubjectReads(chunks);
    if |chunks| > 0 { LinesAreShort(chunks); }
    assert Flatten(chunks) + [] == Flatten(chunks);
  }

  // ----- the lines of the header -----

  const HEADER: string := "Subject: "
  const MAX_HEADER_LINE: nat := 76

  function HeaderLines(chunks: seq<seq<Byte>>): seq<string> {
    seq(|chunks|, i requires 0 <= i < |chunks| => (if i == 0 then HEADER else " ") + Word(chunks[i]))
  }

  function JoinLines(lines: seq<string>): string {
    if |lines| == 0 then "" else if |lines| == 1 then lines[0] else lines[0] + "\r\n" + JoinLines(lines[1..])
  }

  // A line that holds an encoded word has at most 76 characters (section 2 of
  // RFC 2047).
  ghost predicate ShortLines(chunks: seq<seq<Byte>>) {
    forall i :: 0 <= i < |chunks| ==> |HeaderLines(chunks)[i]| <= 76
  }

  lemma Regroup(first: string, word: string, rest: string)
    ensures first + (word + FOLD + rest) == (first + word) + "\r\n" + (" " + rest)
  {
    assert FOLD == "\r\n" + " ";
  }

  // The header's lines are the words, the first one after the header's name.
  lemma {:induction false} HeaderIsLines(chunks: seq<seq<Byte>>, first: string)
    requires |chunks| > 0
    ensures first + Join(Words(chunks)) == JoinLines(HeaderLines(chunks)[0 := first + Word(chunks[0])])
  {
    hide Word;
    assert FOLD == "\r\n" + " ";
    if |chunks| > 1 {
      HeaderIsLines(chunks[1..], " ");
      var lines := HeaderLines(chunks)[0 := first + Word(chunks[0])];
      assert lines[1..] == HeaderLines(chunks[1..])[0 := " " + Word(chunks[1])];
      assert Words(chunks)[1..] == Words(chunks[1..]);
      assert Join(Words(chunks)) == Word(chunks[0]) + FOLD + Join(Words(chunks[1..]));
      Regroup(first, Word(chunks[0]), Join(Words(chunks[1..])));
      hide HeaderLines, Words, Join;
    }
  }

  // Every line after the first keeps the limit; the first one, which also holds the
  // header's name, does so exactly when its word is short enough.
  lemma LinesAreShort(chunks: seq<seq<Byte>>)
    requires Fits(chunks) && |chunks| > 0
    ensures HEADER + Join(Words(chunks)) == JoinLines(HeaderLines(chunks))
    ensures forall i :: 0 < i < |chunks| ==> |HeaderLines(chunks)[i]| <= 76
    ensures ShortLines(chunks) <==> |chunks[0]| <= 39
  {
    hide Word, Encode64, Join, JoinLines, Fits, ShortLines, ReadWord;
    HeaderIsLines(chunks, HEADER);
    assert HeaderLines(chunks)[0 := HEADER + Word(chunks[0])] == HeaderLines(chunks);
    LinesMeasure(chunks);
    hide HeaderLines;
    ShortIff(chunks);
  }

  lemma LinesMeasure(chunks: seq<seq<Byte>>)
    requires Fits(chunks) && |chunks| > 0
    ensures |HeaderLines(chunks)| == |chunks|
    ensures |HeaderLines(chunks)[0]| <= MAX_HEADER_LINE <==> |chunks[0]| <= 39
    ensures forall i :: 0 < i < |chunks| ==> |HeaderLines(chunks)[i]| <= 76
  {
    hide Word;
    WordReads(chunks[0]);
    assert |HEADER| == 9;
    FirstLine(|chunks[0]|);
  }

  lemma FirstLine(n: nat)
    ensures 9 + 12 + (n + 2) / 3 * 4 <= 76 <==> n <= 39
  {
  }

  lemma ShortIff(chunks: seq<seq<Byte>>)
    requires |chunks| > 0 && |HeaderLines(chunks)| == |chunks|
    requires forall i :: 0 < i < |chunks| ==> |HeaderLines(chunks)[i]| <= 76
    ensures ShortLines(chunks) <==> |HeaderLines(chunks)[0]| <= MAX_HEADER_LINE
  {
    hide HeaderLines;
  }

  method WordOf(chunk: seq<Byte>) returns (word: string)
    ensures word == Word(chunk)
  {
    word := PREFIX + Encode64(chunk) + SUFFIX;
  }

  lemma Nothing(subject: seq<Byte>)
    ensures Flatten([]) + subject == subject && Words([]) == [] && Fits([]) && Whole([])
  {
  }

  // What one turn of the loop keeps.
  lemma OneMore(chunks: seq<seq<Byte>>, src: seq<Byte>, n: nat)
    requires Fits(chunks) && 0 < n <= |src| && n <= 45
    requires ValidUtf8(src) ==> n == |src| || RuneStart(src[n])
    ensures var after := chunks + [src[..n]];
            && Words(after) == Words(chunks) + [Word(src[..n])]
            && Flatten(after) + src[n..] == Flatten(chunks) + src
            && Fits(after)
            && (ValidUtf8(src) ==> ValidUtf8(src[n..]) && (Whole(chunks) ==> Whole(after)))
  {
    hide Word, Words, ValidUtf8, Flatten, Fits, Whole;
    var chunk := src[..n];
    FlattenSnoc(chunks, chunk);
    assert Flatten(chunks) + chunk + src[n..] == Flatten(chunks) + src;
    WordsSnoc(chunks, chunk);
    FitsSnoc(chunks, chunk);
    if ValidUtf8(src) {
      CutAtRune(src, n);
      if Whole(chunks) { WholeSnoc(chunks, chunk); }
    }
  }

  lemma WordsSnoc(chunks: seq<seq<Byte>>, chunk: seq<Byte>)
    ensures Words(chunks + [chunk]) == Words(chunks) + [Word(chunk)]
  {
  }

  lemma FitsSnoc(chunks: seq<seq<Byte>>, chunk: seq<Byte>)
    requires Fits(chunks) && 0 < |chunk| <= 45
    ensures Fits(chunks + [chunk])
  {
    WordReads(chunk);
  }

  lemma WholeSnoc(chunks: seq<seq<Byte>>, chunk: seq<Byte>)
    requires Whole(chunks) && ValidUtf8(chunk)
    ensures Whole(chunks + [chunk])
  {
  }

  // How much of src goes into the next word: up to limit bytes, less the start of
  // a character that does not fit.
  method Chunk(src: seq<Byte>, limit: nat) returns (n: nat)
    requires |src| > 0 && limit >= 4
    ensures 0 < n <= |src| && n <= limit
    ensures ValidUtf8(src) ==> n == |src| || RuneStart(src[n])
    ensures ValidUtf8(src) ==> n == |src| || n + 3 >= limit
  {
    n := limit;
    if n > |src| {
      n := |src|;
    }
    ghost var top := n;
    while n > 0 && n < |src| && !RuneStart(src[n])
      invariant n <= top && (n < top ==> top < |src|)
      invariant forall i :: n < i <= top && i < |src| ==> !RuneStart(src[i])
      invariant ValidUtf8(src) && top < |src| ==> n + 3 >= top
    {
      if ValidUtf8(src) && n + 3 == top { RuneStartsNearby(src, n); }
      n := n - 1;
    }
    if n == 0 {
      n := 1;
    }
  }

  // strings.Join.
  method JoinAll(words: seq<string>) returns (out: string)
    ensures out == Join(words)
  {
    if |words| == 0 {
      return "";
    }
    var i := |words| - 1;
    out := words[i];
    while i > 0
      invariant 0 <= i < |words| && out == Join(words[i..])
    {
      i := i - 1;
      assert words[i..][1..] == words[i + 1..];
      out := words[i] + FOLD + out;
    }
    assert words[0..] == words;
  }

  // ----- the body -----

  const MAX_LINE: nat := 76

  function Lines(lines: seq<string>): string {
    if |lines| == 0 then "" else Lines(lines[..|lines| - 1]) + lines[|lines| - 1] + "\r\n"
  }

  // What a reader of the body does with its line ends.
  function Unwrapped(s: string): string {
    if |s| == 0 then ""
    else
      var rest, c := Unwrapped(s[..|s| - 1]), s[|s| - 1];
      if c == '\r' || c == '\n' then rest else rest + [c]
  }

  lemma {:induction false} UnwrappedLine(s: string, line: string)
    requires forall i :: 0 <= i < |line| ==> Printable(line[i])
    ensures Unwrapped(s + line) == Unwrapped(s) + line
  {
    if |line| == 0 {
      assert s + line == s;
    } else {
      var n := |line| - 1;
      UnwrappedLine(s, line[..n]);
      assert (s + line)[..|s| + n] == s + line[..n];
      assert line == line[..n] + [line[n]];
    }
  }

  lemma UnwrappedEnd(s: string)
    ensures Unwrapped(s + "\r\n") == Unwrapped(s)
  {
    assert (s + "\r\n")[..|s| + 1] == s + "\r" && (s + "\r")[..|s|] == s;
  }

  // The body of buildMessage: every line but the last is full, none is longer, and
  // without its line ends it decodes to the body.
  method EncodeBody(body: seq<Byte>) returns (out: string, ghost lines: seq<string>)
    ensures Decode64(Unwrapped(out)) == Some(body)
    ensures out == Lines(lines) && |lines| > 0
    ensures forall i :: 0 <= i < |lines| ==> |lines[i]| <= 76 && (i < |lines| - 1 ==> |lines[i]| == 76)
  {
    hide Encode64, Decode64, Unwrapped, Printable;
    var enc := Encode64(body);
    Base64IsPrintable(body);
    Base64RoundTrip(body);
    out := "";
    lines := [];
    assert Unwrapped("") == "" by { NothingUnwrapped(); }
    while |enc| > MAX_LINE
      invariant out == Lines(lines) && Unwrapped(out) + enc == Encode64(body)
      invariant forall i :: 0 <= i < |enc| ==> Printable(enc[i])
      invariant forall i :: 0 <= i < |lines| ==> |lines[i]| == MAX_LINE
      decreases |enc|
    {
      var line := enc[..MAX_LINE];
      assert (lines + [line])[..|lines|] == lines && line + enc[MAX_LINE..] == enc;
      UnwrappedLine(out, line);
      UnwrappedEnd(out + line);
      assert out + (line + "\r\n") == out + line + "\r\n";
      assert Unwrapped(out) + line + enc[MAX_LINE..] == Unwrapped(out) + enc;
      out := out + (line + "\r\n");
      lines := lines + [line];
      enc := enc[MAX_LINE..];
    }
    assert (lines + [enc])[..|lines|] == lines;
    UnwrappedLine(out, enc);
    UnwrappedEnd(out + enc);
    assert out + (enc + "\r\n") == out + enc + "\r\n";
    out := out + (enc + "\r\n");
    lines := lines + [enc];
  }

  lemma NothingUnwrapped()
    ensures Unwrapped("") == ""
  {
  }
}
