/** Text helpers shared by the models: Option/Result values and the parts of Python's
    string methods that the sources rely on. */
module Text {

  datatype Option<+T> = None | Some(value: T)

  datatype Result<+T, +E> = Ok(value: T) | Err(error: E)

  predicate IsDigit(c: char) { '0' <= c <= '9' }

  predicate AllDigits(s: string) { forall i :: 0 <= i < |s| ==> IsDigit(s[i]) }

  /** The characters that `str.isspace` accepts, which is what `str.strip()` removes. */
  predicate IsSpace(c: char) {
    var n := c as int;
    || 0x09 <= n <= 0x0D || 0x1C <= n <= 0x20 || n == 0x85 || n == 0xA0 || n == 0x1680
    || 0x2000 <= n <= 0x200A || n == 0x2028 || n == 0x2029 || n == 0x202F || n == 0x205F || n == 0x3000
  }

  function LStrip(s: string): (r: string)
    ensures |r| <= |s|
  {
    if s != [] && IsSpace(s[0]) then LStrip(s[1..]) else s
  }

  function RStrip(s: string): (r: string)
    ensures |r| <= |s|
  {
    if s != [] && IsSpace(s[|s| - 1]) then RStrip(s[..|s| - 1]) else s
  }

  function Strip(s: string): (r: string)
    ensures |r| <= |s|
  {
    RStrip(LStrip(s))
  }

  lemma {:induction false} LStripIs(s: string)
    ensures LStrip(s) == s[|s| - |LStrip(s)|..]
    ensures LStrip(s) != [] ==> !IsSpace(LStrip(s)[0])
  {
    if s == [] {
    } else if IsSpace(s[0]) {
      LStripIs(s[1..]);
    }
  }

  lemma {:induction false} RStripIs(s: string)
    ensures RStrip(s) <= s
    ensures RStrip(s) != [] ==> !IsSpace(RStrip(s)[|RStrip(s)| - 1])
  {
    if s == [] {
    } else if IsSpace(s[|s| - 1]) {
      RStripIs(s[..|s| - 1]);
    }
  }

  /** A stripped text is a part of the text with no space at either end. */
  lemma StripIs(s: string)
    ensures Strip(s) != [] ==> !IsSpace(Strip(s)[0]) && !IsSpace(Strip(s)[|Strip(s)| - 1])
    ensures forall c :: c in Strip(s) ==> c in s
  {
    hide IsSpace;
    LStripIs(s);
    RStripIs(LStrip(s));
  }

  lemma StripFixes(s: string)
    requires s != [] ==> !IsSpace(s[0]) && !IsSpace(s[|s| - 1])
    ensures Strip(s) == s
  {
  }

  /** `str.rstrip` with a single character. */
  function RStripChar(s: string, c: char): (r: string)
    ensures r <= s
  {
    if s != [] && s[|s| - 1] == c then RStripChar(s[..|s| - 1], c) else s
  }

  function Repeat(c: char, n: nat): (r: string)
    ensures |r| == n && forall i :: 0 <= i < n ==> r[i] == c
  {
    if n == 0 then [] else Repeat(c, n - 1) + [c]
  }

  function Remove(s: string, c: char): (r: string)
    ensures c !in s ==> r == s
    ensures |r| <= |s|
  {
    if s == [] then []
    else if s[0] == c then Remove(s[1..], c)
    else [s[0]] + Remove(s[1..], c)
  }

  /** Length of the UTF-8 encoding of a text. */
  function Utf8Length(s: string): (n: nat)
    ensures n >= |s|
  {
    if s == [] then 0
    else
      var code := s[0] as int;
      (if code < 0x80 then 1 else if code < 0x800 then 2 else if code < 0x10000 then 3 else 4)
      + Utf8Length(s[1..])
  }

  function LowerChar(c: char): char {
    if 'A' <= c <= 'Z' then ((c as int) + 32) as char else c
  }

  /** `str.lower` on the ASCII letters. */
  function Lower(s: string): (r: string)
    ensures |r| == |s|
    ensures forall i :: 0 <= i < |s| ==> r[i] == LowerChar(s[i])
  {
    if s == [] then [] else [LowerChar(s[0])] + Lower(s[1..])
  }

  /** Python orders texts by code point, a proper prefix first. */
  predicate TextLess(a: string, b: string) {
    b != [] && (a == [] || a[0] < b[0] || (a[0] == b[0] && TextLess(a[1..], b[1..])))
  }

  /** Reading a text file turns `\r\n` and `\r` into `\n`. */
  function ReadText(raw: string): (s: string)
    ensures '\r' !in s
  {
    if raw == [] then []
    else if |raw| >= 2 && raw[0] == '\r' && raw[1] == '\n' then "\n" + ReadText(raw[2..])
    else (if raw[0] == '\r' then "\n" else [raw[0]]) + ReadText(raw[1..])
  }

  lemma {:induction false} ReadTextKeeps(s: string)
    requires '\r' !in s
    ensures ReadText(s) == s
  {
    if s == [] {
    } else {
      ReadTextKeeps(s[1..]);
    }
  }
}
