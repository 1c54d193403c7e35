/** Text as the agent reads it: splitting, stripping, whole numbers, and how they are printed. */
module Text {
  import opened Basics

  /** str.isspace. */
  predicate IsSpace(c: char) {
    || c == ' ' || '\t' <= c <= '\r' || '\U{1c}' <= c <= '\U{1f}' || c == '\U{85}' || c == '\U{a0}'
    || c == '\U{1680}' || '\U{2000}' <= c <= '\U{200a}' || c == '\U{2028}' || c == '\U{2029}'
    || c == '\U{202f}' || c == '\U{205f}' || c == '\U{3000}'
  }

  predicate IsDigit(c: char) {
    '0' <= c <= '9'
  }

  /** Where c first occurs, the length when it does not. */
  function IndexOf(s: string, c: char): (i: nat)
    ensures i <= |s| && c !in s[..i]
    ensures i < |s| ==> s[i] == c
  {
    if s == "" || s[0] == c then 0
    else
      var i := 1 + IndexOf(s[1..], c);
      assert s[..i] == [s[0]] + s[1..][..i - 1];
      i
  }

  lemma {:induction false} IndexAfter(a: string, c: char, b: string)
    requires c !in a
    ensures IndexOf(a + [c] + b, c) == |a|
    ensures IndexOf(a, c) == |a|
  {
    if a != "" {
      assert (a + [c] + b)[1..] == a[1..] + [c] + b;
      IndexAfter(a[1..], c, b);
    }
  }

  /** str.split(c): at every c, empty pieces kept. */
  function Split(s: string, c: char): (r: seq<string>)
    ensures |r| >= 1
    decreases |s|
  {
    var i := IndexOf(s, c);
    if i == |s| then [s] else [s[..i]] + Split(s[i + 1..], c)
  }

  function Join(parts: seq<string>, c: char): string
    requires |parts| >= 1
  {
    if |parts| == 1 then parts[0] else parts[0] + [c] + Join(parts[1..], c)
  }

  lemma {:induction false} SplitJoin(parts: seq<string>, c: char)
    requires |parts| >= 1 && forall p :: p in parts ==> c !in p
    ensures Split(Join(parts, c), c) == parts
  {
    hide IndexOf;
    if |parts| == 1 {
      IndexAfter(parts[0], c, "");
    } else {
      var rest := Join(parts[1..], c);
      IndexAfter(parts[0], c, rest);
      SplitJoin(parts[1..], c);
      var s := parts[0] + [c] + rest;
      assert s[|parts[0]| + 1..] == rest && s[..|parts[0]|] == parts[0];
    }
  }

  /** Where the leading run of spaces (or of non-spaces) ends. */
  function RunLength(s: string, spaces: bool): (n: nat)
    ensures n <= |s|
    ensures forall k :: 0 <= k < n ==> IsSpace(s[k]) == spaces
    ensures n < |s| ==> IsSpace(s[n]) != spaces
  {
    if s == "" || IsSpace(s[0]) != spaces then 0 else 1 + RunLength(s[1..], spaces)
  }

  /** str.split(): the words between runs of white space. */
  function Words(s: string): (r: seq<string>)
    ensures forall w :: w in r ==> IsWord(w)
    decreases |s|
  {
    var skip := RunLength(s, true);
    var t := s[skip..];
    var n := RunLength(t, false);
    if n == 0 then [] else [t[..n]] + Words(t[n..])
  }

  /** str.strip(). */
  function Strip(s: string): string
    decreases |s|
  {
    if s == "" then ""
    else if IsSpace(s[0]) then Strip(s[1..])
    else if IsSpace(s[|s| - 1]) then Strip(s[..|s| - 1])
    else s
  }

  /** strip('"'). */
  function StripQuotes(s: string): string
    decreases |s|
  {
    if s == "" then ""
    else if s[0] == '"' then StripQuotes(s[1..])
    else if s[|s| - 1] == '"' then StripQuotes(s[..|s| - 1])
    else s
  }

  /** str.lower on Latin-1 text. */
  function LowerChar(c: char): char {
    if 'A' <= c <= 'Z' || ('\U{c0}' <= c <= '\U{de}' && c != '\U{d7}') then c + ' ' else c
  }

  function Lower(s: string): string {
    seq(|s|, i requires 0 <= i < |s| => LowerChar(s[i]))
  }

  predicate IsWord(w: string) {
    w != "" && forall k :: 0 <= k < |w| ==> !IsSpace(w[k])
  }

  lemma {:induction false} RunOfWord(w: string, rest: string)
    requires (forall k :: 0 <= k < |w| ==> !IsSpace(w[k])) && (rest == "" || IsSpace(rest[0]))
    ensures RunLength(w + rest, false) == |w|
  {
    if w == "" {
      assert w + rest == rest;
    } else {
      assert (w + rest)[1..] == w[1..] + rest;
      RunOfWord(w[1..], rest);
    }
  }

  lemma {:induction false} WordsJoin(words: seq<string>)
    requires |words| >= 1 && forall w :: w in words ==> IsWord(w)
    ensures Words(Join(words, ' ')) == words
  {
    var w := words[0];
    assert w in words;
    if |words| == 1 {
      RunOfWord(w, "");
      assert w + "" == w == w[0..] && w[..|w|] == w && w[|w|..] == "";
    } else {
      var tail := Join(words[1..], ' ');
      RunOfWord(w, [' '] + tail);
      var s := w + [' '] + tail;
      assert s == w + ([' '] + tail) && s[0..] == s && s[..|w|] == w && s[|w|..] == [' '] + tail;
      WordsJoin(words[1..]);
      WordsSkip(tail);
    }
  }

  lemma WordsSkip(s: string)
    ensures Words([' '] + s) == Words(s)
  {
    assert ([' '] + s)[1..] == s;
    var skip := RunLength(s, true);
    assert RunLength([' '] + s, true) == skip + 1;
    assert ([' '] + s)[skip + 1..] == s[skip..];
  }

  lemma StripWord(w: string)
    requires IsWord(w)
    ensures Strip(w) == w
  {
  }

  // ------------------------------------------------------------ whole numbers

  /** Digits, with single underscores between them. */
  function Digits(s: string): Option<nat>
    decreases |s|
  {
    if s == "" || !IsDigit(s[|s| - 1]) then None
    else
      var d := (s[|s| - 1] as int) - ('0' as int);
      if |s| == 1 then Some(d)
      else
        var rest := if s[|s| - 2] == '_' then s[..|s| - 2] else s[..|s| - 1];
        match Digits(rest)
        case None => None
        case Some(v) => Some(v * 10 + d)
  }

  /** int(s) on text without white space. */
  function ParseInt(s: string): Option<int> {
    if s != "" && (s[0] == '-' || s[0] == '+') then
      match Digits(s[1..])
      case None => None
      case Some(v) => if s[0] == '-' then Some(-(v as int)) else Some(v)
    else
      match Digits(s)
      case None => None
      case Some(v) => Some(v)
  }

  function Digit(d: nat): char
    requires d < 10
  {
    ('0' as int + d) as char
  }

  function PrintNat(n: nat): (s: string)
    ensures s != "" && forall c :: c in s ==> IsDigit(c)
  {
    if n < 10 then [Digit(n)] else PrintNat(n / 10) + [Digit(n % 10)]
  }

  lemma {:induction false} DigitsOfPrinted(n: nat)
    ensures Digits(PrintNat(n)) == Some(n)
  {
    if n >= 10 {
      var s, front := PrintNat(n), PrintNat(n / 10);
      assert s[..|s| - 1] == front && s[|s| - 2] == front[|front| - 1];
      assert front[|front| - 1] in front;
      DigitsOfPrinted(n / 10);
    }
  }

  /** Reading back a printed number gives the number. */
  lemma ParseIntPrinted(n: nat)
    ensures ParseInt(PrintNat(n)) == Some(n)
  {
    DigitsOfPrinted(n);
    assert PrintNat(n)[0] in PrintNat(n);
  }

  function PrintInt(n: int): string {
    if n < 0 then "-" + PrintNat(-n) else PrintNat(n)
  }

  lemma IntReadsBack(n: int)
    ensures ParseInt(PrintInt(n)) == Some(n)
  {
    if n < 0 {
      var s := PrintInt(n);
      DigitsOfPrinted(-n);
      assert s[1..] == PrintNat(-n);
    } else {
      ParseIntPrinted(n);
    }
  }

  lemma NoQuotesToStrip(s: string)
    requires '"' !in s
    ensures StripQuotes(s) == s
  {
  }
}
