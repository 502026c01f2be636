/**
 * The string primitives the query processor, the scorer and the synthesizer rely on,
 * restricted to ASCII: `str.lower`, `str.strip`, `str.split()`, `' '.join`, the `in`
 * substring test, and the character classes `\s` and `\w` of Python's `re`.
 */
module Text {

  /** `\s` / `str.isspace` on ASCII: tab, line feed, vertical tab, form feed, carriage
      return, the four separators 0x1C-0x1F, and space. */
  predicate IsSpace(c: char) {
    c == ' ' || '\t' <= c <= '\r' || 28 <= c as int <= 31
  }

  predicate IsUpper(c: char) { 'A' <= c <= 'Z' }

  /** `\w` on ASCII: letters, digits and underscore. */
  predicate IsWordChar(c: char) {
    'a' <= c <= 'z' || 'A' <= c <= 'Z' || '0' <= c <= '9' || c == '_'
  }

  predicate NoUpper(s: string) { forall i :: 0 <= i < |s| ==> !IsUpper(s[i]) }

  /** Every whitespace character of `s` is a plain space. */
  predicate PlainSpaces(s: string) { forall i :: 0 <= i < |s| ==> IsSpace(s[i]) ==> s[i] == ' ' }

  predicate NoSpace(s: string) { forall i :: 0 <= i < |s| ==> !IsSpace(s[i]) }

  function LowerChar(c: char): (d: char)
    ensures !IsUpper(d)
    ensures !IsUpper(c) ==> d == c
    ensures IsSpace(d) <==> IsSpace(c)
  {
    if IsUpper(c) then (c as int + 32) as char else c
  }

  /** `str.lower` on ASCII. */
  function Lower(s: string): string {
    seq(|s|, i requires 0 <= i < |s| => LowerChar(s[i]))
  }

  /** Lower-casing keeps the length and the whitespace and leaves no upper-case letter. */
  lemma LowerShape(s: string)
    ensures |Lower(s)| == |s| && NoUpper(Lower(s))
    ensures forall i :: 0 <= i < |s| ==> (IsSpace(Lower(s)[i]) <==> IsSpace(s[i]))
  {
  }

  /** Drops leading whitespace. */
  function TrimLeft(s: string): string {
    if s != [] && IsSpace(s[0]) then TrimLeft(s[1..]) else s
  }

  /** What `TrimLeft` drops is a whitespace prefix, and what it keeps is the rest of `s`,
      starting with a non-space. */
  lemma {:induction false} TrimLeftShape(s: string)
    ensures |TrimLeft(s)| <= |s| && TrimLeft(s) == s[|s| - |TrimLeft(s)|..]
    ensures TrimLeft(s) == [] || !IsSpace(TrimLeft(s)[0])
    ensures forall i :: 0 <= i < |s| - |TrimLeft(s)| ==> IsSpace(s[i])
  {
    if s != [] && IsSpace(s[0]) {
      TrimLeftShape(s[1..]);
      assert s[1..][|s| - 1 - |TrimLeft(s)|..] == s[|s| - |TrimLeft(s)|..];
      assert forall i :: 1 <= i < |s| - |TrimLeft(s)| ==> s[i] == s[1..][i - 1];
    }
  }

  /** Drops trailing whitespace. */
  function TrimRight(s: string): string {
    if s != [] && IsSpace(s[|s| - 1]) then TrimRight(s[..|s| - 1]) else s
  }

  /** What `TrimRight` keeps is a prefix of `s` ending in a non-space, and what it drops is
      whitespace. */
  lemma {:induction false} TrimRightShape(s: string)
    ensures |TrimRight(s)| <= |s| && TrimRight(s) == s[..|TrimRight(s)|]
    ensures TrimRight(s) == [] || !IsSpace(TrimRight(s)[|TrimRight(s)| - 1])
    ensures forall i :: |TrimRight(s)| <= i < |s| ==> IsSpace(s[i])
  {
    if s != [] && IsSpace(s[|s| - 1]) {
      TrimRightShape(s[..|s| - 1]);
      assert s[..|s| - 1][..|TrimRight(s)|] == s[..|TrimRight(s)|];
      assert forall i :: |TrimRight(s)| <= i < |s| - 1 ==> s[i] == s[..|s| - 1][i];
    }
  }

  /** `str.strip()` with no argument. */
  function Strip(s: string): string {
    TrimRight(TrimLeft(s))
  }

  /** A stripped string neither starts nor ends with whitespace, and keeps a lower-case
      string lower-case. */
  lemma StripShape(s: string)
    ensures NoUpper(s) ==> NoUpper(Strip(s))
    ensures Strip(s) == [] || (!IsSpace(Strip(s)[0]) && !IsSpace(Strip(s)[|Strip(s)| - 1]))
  {
    var l := TrimLeft(s);
    TrimLeftShape(s);
    TrimRightShape(l);
    assert forall i :: 0 <= i < |Strip(s)| ==> Strip(s)[i] == s[|s| - |l| + i];
  }

  /** The character classes above survive concatenation. */
  lemma ConcatClasses(a: string, b: string)
    ensures NoUpper(a) && NoUpper(b) ==> NoUpper(a + b)
    ensures PlainSpaces(a) && PlainSpaces(b) ==> PlainSpaces(a + b)
  {
    assert forall i :: 0 <= i < |a + b| ==> (a + b)[i] == if i < |a| then a[i] else b[i - |a|];
  }

  /** `re.sub(r'\s+', ' ', s)`: every maximal run of whitespace becomes one space. */
  function CollapseSpaces(s: string): string
    decreases |s|
  {
    if s == [] then []
    else if IsSpace(s[0]) then
      TrimLeftShape(s[1..]);
      " " + CollapseSpaces(TrimLeft(s[1..]))
    else [s[0]] + CollapseSpaces(s[1..])
  }

  /** One step of the collapse: a whitespace run becomes one space, any other character
      is kept. */
  lemma CollapseStep(s: string)
    requires s != []
    ensures IsSpace(s[0]) ==> CollapseSpaces(s) == " " + CollapseSpaces(TrimLeft(s[1..]))
    ensures !IsSpace(s[0]) ==> CollapseSpaces(s) == [s[0]] + CollapseSpaces(s[1..])
  {
  }

  /** After the collapse every whitespace character is a plain space; the collapse never
      lengthens the string and keeps a lower-case string lower-case. */
  lemma {:induction false} CollapseSpacesShape(s: string)
    ensures PlainSpaces(CollapseSpaces(s))
    ensures NoUpper(s) ==> NoUpper(CollapseSpaces(s))
    ensures |CollapseSpaces(s)| <= |s|
    decreases |s|
  {
    if s != [] {
      var head := if IsSpace(s[0]) then " " else [s[0]];
      var tail := if IsSpace(s[0]) then TrimLeft(s[1..]) else s[1..];
      TrimLeftShape(s[1..]);
      assert tail == s[|s| - |tail|..];
      assert NoUpper(s) ==> NoUpper(head) && NoUpper(tail);
      CollapseSpacesShape(tail);
      ConcatClasses(head, CollapseSpaces(tail));
    }
  }

  /** The characters `re.sub(r'[^\w\s\-\?]', '', s)` keeps. */
  predicate Kept(c: char) { IsWordChar(c) || IsSpace(c) || c == '-' || c == '?' }

  /** `re.sub(r'[^\w\s\-\?]', '', s)`: deletes every character that is not kept. */
  function RemoveSpecial(s: string): string {
    if s == [] then []
    else if Kept(s[0]) then [s[0]] + RemoveSpecial(s[1..])
    else RemoveSpecial(s[1..])
  }

  /** Only kept characters survive the deletion, which never lengthens the string and
      keeps the other two classes. */
  lemma {:induction false} RemoveSpecialShape(s: string)
    ensures forall i :: 0 <= i < |RemoveSpecial(s)| ==> Kept(RemoveSpecial(s)[i])
    ensures NoUpper(s) ==> NoUpper(RemoveSpecial(s))
    ensures PlainSpaces(s) ==> PlainSpaces(RemoveSpecial(s))
    ensures |RemoveSpecial(s)| <= |s|
  {
    if s != [] {
      RemoveSpecialShape(s[1..]);
      var rest := RemoveSpecial(s[1..]);
      assert NoUpper(s) ==> NoUpper(s[1..]);
      assert PlainSpaces(s) ==> PlainSpaces(s[1..]);
      if Kept(s[0]) {
        ConcatClasses([s[0]], rest);
        assert forall i :: 1 <= i < |rest| + 1 ==> ([s[0]] + rest)[i] == rest[i - 1];
      }
    }
  }

  /** The longest prefix of `s` holding no whitespace. */
  function TakeWord(s: string): string {
    if s == [] || IsSpace(s[0]) then [] else [s[0]] + TakeWord(s[1..])
  }

  /** The word taken is a whitespace-free prefix of `s`, followed by whitespace or the end. */
  lemma {:induction false} TakeWordShape(s: string)
    ensures |TakeWord(s)| <= |s| && TakeWord(s) == s[..|TakeWord(s)|] && NoSpace(TakeWord(s))
    ensures |TakeWord(s)| == |s| || IsSpace(s[|TakeWord(s)|])
  {
    if s != [] && !IsSpace(s[0]) {
      TakeWordShape(s[1..]);
      var w := TakeWord(s[1..]);
      assert [s[0]] + s[1..][..|w|] == s[..|w| + 1];
      assert forall i :: 1 <= i < |w| + 1 ==> ([s[0]] + w)[i] == w[i - 1];
    }
  }

  /** `str.split()` with no argument: the maximal runs of non-whitespace, in order. */
  function Words(s: string): seq<string>
    decreases |s|
  {
    if s == [] then []
    else if IsSpace(s[0]) then Words(s[1..])
    else
      var w := TakeWord(s);
      TakeWordShape(s);
      [w] + Words(s[|w|..])
  }

  /** Every word is non-empty and holds no whitespace. */
  lemma {:induction false} WordsShape(s: string)
    ensures forall i :: 0 <= i < |Words(s)| ==> Words(s)[i] != [] && NoSpace(Words(s)[i])
    decreases |s|
  {
    if s != [] {
      if IsSpace(s[0]) {
        WordsShape(s[1..]);
      } else {
        var w := TakeWord(s);
        TakeWordShape(s);
        WordsShape(s[|w|..]);
        assert forall i :: 1 <= i < |Words(s)| ==> Words(s)[i] == Words(s[|w|..])[i - 1];
      }
    }
  }

  /** `sep.join(ws)`. */
  function Join(ws: seq<string>, sep: string): string {
    if ws == [] then []
    else if |ws| == 1 then ws[0]
    else ws[0] + sep + Join(ws[1..], sep)
  }

  /** Python's `pat in text` for strings: `pat` occurs contiguously in `text`. */
  predicate Contains(text: string, pat: string)
    decreases |text|
  {
    pat <= text || (text != [] && Contains(text[1..], pat))
  }
}
