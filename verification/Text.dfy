/** The string functions of the Go standard library that the program relies on. */
module Text {

  // ---------- decimal numerals, as fmt prints integers ----------

  function Digit(d: nat): char
    requires d < 10
  {
    ['0', '1', '2', '3', '4', '5', '6', '7', '8', '9'][d]
  }

  function Digits(n: nat): string {
    if n < 10 then [Digit(n)] else Digits(n / 10) + [Digit(n % 10)]
  }

  function Show(n: int): string {
    if n < 0 then "-" + Digits(-n) else Digits(n)
  }

  lemma {:induction false} DigitsAreDigits(n: nat)
    ensures Digits(n) != [] && forall i :: 0 <= i < |Digits(n)| ==> '0' <= Digits(n)[i] <= '9'
  {
    if n >= 10 {
      DigitsAreDigits(n / 10);
    }
  }

  /** The number a decimal numeral stands for. */
  function Value(s: string): int {
    if s == "" then 0 else 10 * Value(s[..|s| - 1]) + (s[|s| - 1] as int - '0' as int)
  }

  /** The digits of a number stand for it, and do not start with a zero unless it is zero. */
  lemma {:induction false} DigitsMean(n: nat)
    ensures Value(Digits(n)) == n
    ensures Digits(n) != [] && (Digits(n)[0] == '0' ==> n == 0)
  {
    if n >= 10 {
      DigitsMean(n / 10);
      assert Digits(n)[..|Digits(n)| - 1] == Digits(n / 10);
    } else {
      assert Digits(n)[..0] == "";
    }
  }

  lemma DigitsAreInjective(m: nat, n: nat)
    requires Digits(m) == Digits(n)
    ensures m == n
  {
    DigitsMean(m);
    DigitsMean(n);
  }

  /** `Show` prints the decimal numeral of a number. */
  lemma ShowMeans(n: int)
    ensures n >= 0 ==> Value(Show(n)) == n && (Show(n)[0] == '0' ==> n == 0)
    ensures n < 0 ==> Show(n) == "-" + Show(-n)
  {
    if n >= 0 {
      DigitsMean(n);
    }
  }

  lemma ShowSign(n: int)
    ensures Show(n) != "" && (Show(n)[0] == '-' <==> n < 0)
  {
    DigitsAreDigits(if n < 0 then -n else n);
  }

  lemma ShowIsInjective(m: int, n: int)
    requires Show(m) == Show(n)
    ensures m == n
  {
    ShowSign(m);
    ShowSign(n);
    if m < 0 {
      assert Show(m)[1..] == Digits(-m) && Show(n)[1..] == Digits(-n);
      DigitsAreInjective(-m, -n);
    } else {
      DigitsAreInjective(m, n);
    }
  }

  lemma NoColonBefore(a: string, x: string, i: nat)
    requires ':' !in a && i < |a|
    ensures (a + ":" + x)[i] != ':'
  {
    assert (a + ":" + x)[i] == a[i];
  }

  lemma ColonAfter(a: string, x: string)
    ensures (a + ":" + x)[|a|] == ':' && (a + ":" + x)[..|a|] == a && (a + ":" + x)[|a| + 1..] == x
  {
  }

  /** A text before the first colon, and the text after it, are determined by the whole. */
  lemma FirstColon(a: string, b: string, x: string, y: string)
    requires ':' !in a && ':' !in b && a + ":" + x == b + ":" + y
    ensures a == b && x == y
  {
    ColonAfter(a, x);
    ColonAfter(b, y);
    var m: nat, n: nat := |a|, |b|;
    if m < n {
      NoColonBefore(b, y, m);
    } else if n < m {
      NoColonBefore(a, x, n);
    }
  }

  // ---------- whitespace ----------

  /** unicode.IsSpace. */
  predicate IsSpace(c: char) {
    || c in {' ', '\t', '\n', '\r', '\U{0B}', '\U{0C}', '\U{85}', '\U{A0}', '\U{1680}'}
    || '\U{2000}' <= c <= '\U{200A}'
    || c in {'\U{2028}', '\U{2029}', '\U{202F}', '\U{205F}', '\U{3000}'}
  }

  predicate Blank(s: string) {
    forall i :: 0 <= i < |s| ==> IsSpace(s[i])
  }

  predicate IsWord(s: string) {
    s != "" && forall i :: 0 <= i < |s| ==> !IsSpace(s[i])
  }

  function TrimLeft(s: string): string {
    if s == "" || !IsSpace(s[0]) then s else TrimLeft(s[1..])
  }

  function TrimRight(s: string): string {
    if s == "" || !IsSpace(s[|s| - 1]) then s else TrimRight(s[..|s| - 1])
  }

  function TrimSpace(s: string): string {
    TrimRight(TrimLeft(s))
  }

  function WordLength(s: string): (n: nat)
    ensures n <= |s|
    ensures s != "" && !IsSpace(s[0]) ==> n > 0
    ensures forall i :: 0 <= i < n ==> !IsSpace(s[i])
    ensures n < |s| ==> IsSpace(s[n])
  {
    if s == "" || IsSpace(s[0]) then 0 else 1 + WordLength(s[1..])
  }

  /** strings.Fields. */
  function Fields(s: string): seq<string>
    decreases |s|
  {
    if s == "" then []
    else if IsSpace(s[0]) then Fields(s[1..])
    else [s[..WordLength(s)]] + Fields(s[WordLength(s)..])
  }

  lemma {:induction false} FieldsSkipBlank(gap: string, s: string)
    requires Blank(gap)
    ensures Fields(gap + s) == Fields(s)
  {
    if gap == "" {
      assert gap + s == s;
    } else {
      assert (gap + s)[1..] == gap[1..] + s;
      FieldsSkipBlank(gap[1..], s);
    }
  }

  lemma CharacterOf(word: string, s: string, i: nat)
    requires i < |word + s|
    ensures (word + s)[i] == if i < |word| then word[i] else s[i - |word|]
  {
  }

  lemma WordLengthOf(word: string, s: string)
    requires IsWord(word) && (s == "" || IsSpace(s[0]))
    ensures WordLength(word + s) == |word|
  {
    var n, m: nat := WordLength(word + s), |word|;
    if n < m {
      CharacterOf(word, s, n);
    } else if n > m {
      CharacterOf(word, s, m);
    }
  }

  lemma FieldsTakeWord(word: string, s: string)
    requires IsWord(word) && (s == "" || IsSpace(s[0]))
    ensures Fields(word + s) == [word] + Fields(s)
  {
    WordLengthOf(word, s);
    assert (word + s)[0] == word[0];
    assert (word + s)[..|word|] == word && (word + s)[|word|..] == s;
  }

  /** Words separated by gaps: one gap before each word and one at the end. */
  function Layout(words: seq<string>, gaps: seq<string>): string
    requires |gaps| == |words| + 1
  {
    if words == [] then gaps[0] else gaps[0] + words[0] + Layout(words[1..], gaps[1..])
  }

  predicate IsLayout(words: seq<string>, gaps: seq<string>) {
    && |gaps| == |words| + 1
    && (forall i :: 0 <= i < |words| ==> IsWord(words[i]))
    && (forall i :: 0 <= i < |gaps| ==> Blank(gaps[i]))
    && (forall i :: 0 < i < |words| ==> gaps[i] != "")
  }

  /** Splitting a layout gives back its words, whatever the gaps. */
  lemma {:induction false} FieldsOfLayout(words: seq<string>, gaps: seq<string>)
    requires IsLayout(words, gaps)
    ensures Fields(Layout(words, gaps)) == words
    decreases |words|
  {
    if words == [] {
      FieldsSkipBlank(gaps[0], "");
      assert gaps[0] + "" == gaps[0];
    } else {
      var rest := Layout(words[1..], gaps[1..]);
      FieldsOfLayout(words[1..], gaps[1..]);
      LayoutStartsBlank(words[1..], gaps[1..]);
      FieldsTakeWord(words[0], rest);
      FieldsSkipBlank(gaps[0], words[0] + rest);
      assert gaps[0] + words[0] + rest == gaps[0] + (words[0] + rest);
    }
  }

  lemma LayoutStartsBlank(words: seq<string>, gaps: seq<string>)
    requires |gaps| == |words| + 1 && Blank(gaps[0]) && (words == [] || gaps[0] != "")
    ensures Layout(words, gaps) == "" || IsSpace(Layout(words, gaps)[0])
  {
  }

  lemma LayoutStartsWithWord(words: seq<string>, gaps: seq<string>)
    requires |gaps| == |words| + 1 && words != [] && IsWord(words[0]) && gaps[0] == ""
    ensures Layout(words, gaps) != "" && !IsSpace(Layout(words, gaps)[0])
  {
    var rest := Layout(words[1..], gaps[1..]);
    assert gaps[0] + words[0] == words[0];
    CharacterOf(words[0], rest, 0);
  }

  /** Every text is a layout of its fields. */
  lemma {:induction false} TextIsLayout(s: string) returns (gaps: seq<string>)
    ensures IsLayout(Fields(s), gaps) && s == Layout(Fields(s), gaps)
    decreases |s|
  {
    if s == "" {
      gaps := [""];
    } else if IsSpace(s[0]) {
      var inner := TextIsLayout(s[1..]);
      gaps := [[s[0]] + inner[0]] + inner[1..];
      WiderGap(s[0], Fields(s), inner);
      assert s == [s[0]] + s[1..];
    } else {
      var n := WordLength(s);
      var inner := TextIsLayout(s[n..]);
      gaps := [""] + inner;
      assert s == s[..n] + s[n..];
      WordInFront(s[..n], s[n..], Fields(s[n..]), inner);
    }
  }

  /** A space in front is one more character of the first gap. */
  lemma WiderGap(c: char, words: seq<string>, gaps: seq<string>)
    requires IsSpace(c) && IsLayout(words, gaps)
    ensures var wider := [[c] + gaps[0]] + gaps[1..];
            IsLayout(words, wider) && Layout(words, wider) == [c] + Layout(words, gaps)
  {
    var wider := [[c] + gaps[0]] + gaps[1..];
    assert wider[1..] == gaps[1..];
  }

  lemma WordInFront(word: string, rest: string, words: seq<string>, gaps: seq<string>)
    requires IsWord(word) && IsLayout(words, gaps) && rest == Layout(words, gaps) && (rest == "" || IsSpace(rest[0]))
    ensures IsLayout([word] + words, [""] + gaps) && Layout([word] + words, [""] + gaps) == word + rest
  {
    assert ([word] + words)[1..] == words && ([""] + gaps)[1..] == gaps;
    if words != [] && gaps[0] == "" {
      LayoutStartsWithWord(words, gaps);
    }
  }

  lemma {:induction false} FieldsOfTrimLeft(s: string)
    ensures Fields(TrimLeft(s)) == Fields(s)
  {
    if s != "" && IsSpace(s[0]) {
      FieldsOfTrimLeft(s[1..]);
    }
  }

  /** A trailing space is one more character of the last gap. */
  lemma FieldsSkipLast(s: string, c: char)
    requires IsSpace(c)
    ensures Fields(s + [c]) == Fields(s)
  {
    var gaps := TextIsLayout(s);
    var words := Fields(s);
    var n := |words|;
    var wider := gaps[n := gaps[n] + [c]];
    LayoutWidened(words, gaps, c);
    FieldsOfLayout(words, wider);
  }

  lemma {:induction false} LayoutWidened(words: seq<string>, gaps: seq<string>, c: char)
    requires |gaps| == |words| + 1
    ensures Layout(words, gaps[|words| := gaps[|words|] + [c]]) == Layout(words, gaps) + [c]
    decreases |words|
  {
    var wider := gaps[|words| := gaps[|words|] + [c]];
    if words != [] {
      LayoutWidened(words[1..], gaps[1..], c);
      assert wider[1..] == gaps[1..][|words[1..]| := gaps[1..][|words[1..]|] + [c]];
    }
  }

  lemma {:induction false} FieldsOfTrimRight(s: string)
    ensures Fields(TrimRight(s)) == Fields(s)
  {
    if s != "" && IsSpace(s[|s| - 1]) {
      FieldsOfTrimRight(s[..|s| - 1]);
      FieldsSkipLast(s[..|s| - 1], s[|s| - 1]);
      assert s == s[..|s| - 1] + [s[|s| - 1]];
    }
  }

  lemma FieldsOfTrimSpace(s: string)
    ensures Fields(TrimSpace(s)) == Fields(s)
  {
    FieldsOfTrimLeft(s);
    FieldsOfTrimRight(TrimLeft(s));
  }

  lemma {:induction false} TrimLeftOfPadded(gap: string, s: string)
    requires Blank(gap)
    ensures TrimLeft(gap + s) == TrimLeft(s)
  {
    if gap == "" {
      assert gap + s == s;
    } else {
      assert (gap + s)[1..] == gap[1..] + s;
      TrimLeftOfPadded(gap[1..], s);
    }
  }

  lemma {:induction false} TrimRightOfPadded(s: string, gap: string)
    requires Blank(gap)
    ensures TrimRight(s + gap) == TrimRight(s)
  {
    if gap == "" {
      assert s + gap == s;
    } else {
      assert (s + gap)[..|s + gap| - 1] == s + gap[..|gap| - 1];
      TrimRightOfPadded(s, gap[..|gap| - 1]);
    }
  }

  predicate Trimmed(s: string) {
    s != "" ==> !IsSpace(s[0]) && !IsSpace(s[|s| - 1])
  }

  /** Trimming a padded text gives the text, when it is already trimmed. */
  lemma TrimSpaceOfPadded(before: string, s: string, after: string)
    requires Blank(before) && Blank(after) && Trimmed(s)
    ensures TrimSpace(before + s + after) == s
  {
    assert before + s + after == before + (s + after);
    TrimLeftOfPadded(before, s + after);
    if s == "" {
      TrimLeftOfPadded(after, "");
      assert s + after == after + "";
    } else {
      assert TrimLeft(s + after) == s + after;
      TrimRightOfPadded(s, after);
    }
  }

  lemma {:induction false} TrimSpaceIsTrimmed(s: string)
    ensures Trimmed(TrimSpace(s))
  {
    var left := TrimLeft(s);
    TrimLeftStarts(s);
    TrimRightEnds(left);
  }

  lemma {:induction false} TrimLeftStarts(s: string)
    ensures TrimLeft(s) != "" ==> !IsSpace(TrimLeft(s)[0])
  {
    if s != "" && IsSpace(s[0]) {
      TrimLeftStarts(s[1..]);
    }
  }

  lemma {:induction false} TrimRightEnds(s: string)
    ensures TrimRight(s) != "" ==> !IsSpace(TrimRight(s)[|TrimRight(s)| - 1])
    ensures TrimRight(s) <= s
  {
    if s != "" && IsSpace(s[|s| - 1]) {
      TrimRightEnds(s[..|s| - 1]);
    }
  }

  // ---------- counting the characters that are not spaces ----------

  function Ink(s: string): nat {
    if s == "" then 0 else (if IsSpace(s[0]) then 0 else 1) + Ink(s[1..])
  }

  function TotalLength(words: seq<string>): nat {
    if words == [] then 0 else |words[0]| + TotalLength(words[1..])
  }

  lemma {:induction false} InkAppends(a: string, b: string)
    ensures Ink(a + b) == Ink(a) + Ink(b)
  {
    if a == "" {
      assert a + b == b;
    } else {
      assert (a + b)[1..] == a[1..] + b;
      InkAppends(a[1..], b);
    }
  }

  lemma {:induction false} InkOfWord(word: string)
    requires forall i :: 0 <= i < |word| ==> !IsSpace(word[i])
    ensures Ink(word) == |word|
  {
    if word != "" {
      InkOfWord(word[1..]);
    }
  }

  lemma {:induction false} InkOfBlank(s: string)
    ensures Ink(s) == 0 <==> Blank(s)
  {
    if s != "" {
      InkOfBlank(s[1..]);
      if IsSpace(s[0]) {
        assert Blank(s[1..]) ==> forall i :: 0 < i < |s| ==> s[i] == s[1..][i - 1];
      }
    }
  }

  /** Splitting into fields loses nothing but spaces. */
  lemma {:induction false} InkIsFields(s: string)
    ensures TotalLength(Fields(s)) == Ink(s)
    decreases |s|
  {
    if s != "" && IsSpace(s[0]) {
      InkIsFields(s[1..]);
    } else if s != "" {
      var n := WordLength(s);
      InkIsFields(s[n..]);
      InkOfWord(s[..n]);
      InkAppends(s[..n], s[n..]);
      assert s == s[..n] + s[n..];
      assert Fields(s)[1..] == Fields(s[n..]);
    }
  }

  // ---------- case ----------

  function LowerChar(c: char): char {
    if 'A' <= c <= 'Z' then (c as int + 32) as char else c
  }

  /** strings.ToLower on ASCII letters; other characters are left as they are. */
  function ToLower(s: string): (r: string)
    ensures |r| == |s| && forall i :: 0 <= i < |s| ==> r[i] == LowerChar(s[i])
  {
    seq(|s|, i requires 0 <= i < |s| => LowerChar(s[i]))
  }

  function TrimPrefix(s: string, prefix: string): string {
    if prefix <= s then s[|prefix|..] else s
  }
}
