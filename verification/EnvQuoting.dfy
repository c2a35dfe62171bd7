/** Quoting a credential into an environment file, reading it back, and preparing twice. */
module EnvQuoting {
  import opened Text

  const BINDING := "LIVECOOL_API_KEY"
  const INTRO := "QINTOPIA_QIWE_IMAGE_SEND_INTRO_TEXT_ENABLED"

  // ---------------------------------------------------------------- str.replace

  /** Replace one character by a text. */
  function ReplaceChar(s: string, c: char, with: string): string {
    if s == [] then [] else (if s[0] == c then with else [s[0]]) + ReplaceChar(s[1..], c, with)
  }

  /** Replace a pair of characters by one, scanning from the left without overlaps. */
  function ReplacePair(s: string, a: char, b: char, c: char): string {
    if |s| >= 2 && s[0] == a && s[1] == b then [c] + ReplacePair(s[2..], a, b, c)
    else if s == [] then []
    else [s[0]] + ReplacePair(s[1..], a, b, c)
  }

  // ---------------------------------------------------------------- quoting

  predicate Quotable(v: string) { '\n' !in v && '\r' !in v && '\0' !in v }

  /** The two passes of `quote_env`, without the surrounding quotes. */
  function Escaped(v: string): string { ReplaceChar(ReplaceChar(v, '\\', "\\\\"), '"', "\\\"") }

  /** `quote_env`; None when it raises. */
  function QuoteEnv(v: string): Option<string> {
    if Quotable(v) then Some("\"" + Escaped(v) + "\"") else None
  }

  /** `value[1:-1]` */
  function Inner(s: string): string { if |s| < 2 then "" else s[1..|s| - 1] }

  function StartsAndEndsWith(s: string, c: char): bool { s != [] && s[0] == c && s[|s| - 1] == c }

  function BeforeHash(s: string): string {
    if s == [] || s[0] == '#' then [] else [s[0]] + BeforeHash(s[1..])
  }

  /** `binding_value` */
  function BindingValue(raw: string): string {
    var s := Strip(raw);
    if StartsAndEndsWith(s, '\'') then Inner(s)
    else if StartsAndEndsWith(s, '"') then ReplacePair(ReplacePair(Inner(s), '\\', '"', '"'), '\\', '\\', '\\')
    else Strip(BeforeHash(s))
  }

  /** `nonempty_binding` */
  predicate NonemptyBinding(s: string) {
    s != [] &&
    if s[0] == '\'' || s[0] == '"' then |s| >= 2 && s[|s| - 1] == s[0] && Strip(Inner(s)) != ""
    else Strip(BeforeHash(s)) != ""
  }

  function EscapedChar(c: char): string { if c == '\\' then "\\\\" else if c == '"' then "\\\"" else [c] }

  lemma Joined<T>(x: seq<T>, y: seq<T>, z: seq<T>)
    ensures x + (y + z) == (x + y) + z
  {
  }

  lemma {:induction false} ReplaceCharJoins(a: string, b: string, c: char, with: string)
    ensures ReplaceChar(a + b, c, with) == ReplaceChar(a, c, with) + ReplaceChar(b, c, with)
  {
    if a == [] {
      assert a + b == b;
    } else {
      ReplaceCharJoins(a[1..], b, c, with);
      assert (a + b)[1..] == a[1..] + b;
      var head := if a[0] == c then with else [a[0]];
      Joined(head, ReplaceChar(a[1..], c, with), ReplaceChar(b, c, with));
    }
  }

  lemma CharEscapes(c: char)
    ensures ReplaceChar(ReplaceChar([c], '\\', "\\\\"), '"', "\\\"") == EscapedChar(c)
  {
    assert ReplaceChar([c], '\\', "\\\\") == if c == '\\' then "\\\\" else [c];
  }

  /** The second pass does not touch what the first one wrote: escaping works char by char. */
  lemma EscapedUnfolds(v: string)
    requires v != []
    ensures Escaped(v) == EscapedChar(v[0]) + Escaped(v[1..])
  {
    hide ReplaceChar, EscapedChar;
    assert v == [v[0]] + v[1..];
    ReplaceCharJoins([v[0]], v[1..], '\\', "\\\\");
    ReplaceCharJoins(ReplaceChar([v[0]], '\\', "\\\\"), ReplaceChar(v[1..], '\\', "\\\\"), '"', "\\\"");
    CharEscapes(v[0]);
  }

  lemma EscapedEmpty()
    ensures Escaped("") == ""
  {
  }

  lemma NoLeadingQuote(v: string)
    ensures Escaped(v) == [] || Escaped(v)[0] != '"'
  {
    hide Escaped;
    if v == [] { EscapedEmpty(); } else { EscapedUnfolds(v); }
  }

  lemma PairStep(s: string, a: char, b: char, c: char)
    requires s != [] && !(|s| >= 2 && s[0] == a && s[1] == b)
    ensures ReplacePair(s, a, b, c) == [s[0]] + ReplacePair(s[1..], a, b, c)
  {
  }

  /** The first pass of reading: the quotes come back, the backslashes are still doubled. */
  lemma {:induction false} QuotesComeBack(v: string)
    ensures ReplacePair(Escaped(v), '\\', '"', '"') == ReplaceChar(v, '\\', "\\\\")
  {
    hide Escaped;
    if v == [] {
      EscapedEmpty();
    } else {
      var rest := Escaped(v[1..]);
      EscapedUnfolds(v);
      NoLeadingQuote(v[1..]);
      QuotesComeBack(v[1..]);
      if v[0] == '\\' {
        var s := "\\" + rest;
        assert Escaped(v) == "\\" + s && s[1..] == rest && Escaped(v)[1..] == s;
        PairStep(Escaped(v), '\\', '"', '"');
        PairStep(s, '\\', '"', '"');
        assert "\\" + ("\\" + ReplacePair(rest, '\\', '"', '"')) == "\\\\" + ReplacePair(rest, '\\', '"', '"');
      } else if v[0] == '"' {
        assert Escaped(v)[2..] == rest;
      } else {
        assert Escaped(v)[1..] == rest;
      }
    }
  }

  /** The second pass: pairs of backslashes come back as one. */
  lemma {:induction false} BackslashesComeBack(v: string)
    ensures ReplacePair(ReplaceChar(v, '\\', "\\\\"), '\\', '\\', '\\') == v
  {
    if v == [] {
    } else {
      var rest := ReplaceChar(v[1..], '\\', "\\\\");
      BackslashesComeBack(v[1..]);
      if v[0] == '\\' {
        assert ("\\\\" + rest)[2..] == rest;
      } else {
        assert ([v[0]] + rest)[1..] == rest;
      }
    }
  }

  /** Reading undoes quoting, for every credential that can be quoted. */
  lemma QuotingRoundTrip(v: string)
    ensures QuoteEnv(v).Some? <==> Quotable(v)
    ensures QuoteEnv(v).Some? ==> BindingValue(QuoteEnv(v).value) == v
  {
    hide Escaped, ReplacePair, ReplaceChar, Strip;
    if Quotable(v) {
      var q := QuoteEnv(v).value;
      StripFixes(q);
      assert Inner(q) == Escaped(v);
      QuotesComeBack(v);
      BackslashesComeBack(v);
    }
  }

  // ---------------------------------------------------------------- lines

  /** The separators of `str.splitlines`. */
  predicate IsBreak(c: char) {
    var n := c as int;
    0x0A <= n <= 0x0D || 0x1C <= n <= 0x1E || n == 0x85 || n == 0x2028 || n == 0x2029
  }

  predicate HasBreak(s: string) { exists i :: 0 <= i < |s| && IsBreak(s[i]) }

  function UntilBreak(s: string): (n: nat)
    ensures n <= |s| && (n < |s| ==> IsBreak(s[n])) && forall i :: 0 <= i < n ==> !IsBreak(s[i])
  {
    if s == [] || IsBreak(s[0]) then 0 else 1 + UntilBreak(s[1..])
  }

  /** Where the next line starts. */
  function NextLine(s: string): (n: nat)
    requires s != []
    ensures 0 < n <= |s|
  {
    var n := UntilBreak(s);
    if n == |s| then n
    else if s[n] == '\r' && n + 1 < |s| && s[n + 1] == '\n' then n + 2
    else n + 1
  }

  function Lines(s: string): seq<string> {
    if s == [] then [] else [s[..UntilBreak(s)]] + Lines(s[NextLine(s)..])
  }

  lemma UntilBreakIs(s: string, n: nat)
    requires n <= |s| && (n < |s| ==> IsBreak(s[n])) && forall i :: 0 <= i < n ==> !IsBreak(s[i])
    ensures UntilBreak(s) == n
  {
  }

  lemma FirstLineJoins(a: string, b: string)
    requires a != [] && a[|a| - 1] == '\n'
    ensures UntilBreak(a + b) == UntilBreak(a) && NextLine(a + b) == NextLine(a)
  {
    hide UntilBreak;
    var n := UntilBreak(a);
    assert IsBreak(a[|a| - 1]);
    assert n < |a|;
    assert forall i :: 0 <= i < |a| ==> (a + b)[i] == a[i];
    UntilBreakIs(a + b, n);
  }

  /** After a finished line the rest is split on its own. */
  lemma {:induction false} LinesJoin(a: string, b: string)
    requires a == [] || a[|a| - 1] == '\n'
    ensures Lines(a + b) == Lines(a) + Lines(b)
    decreases |a|
  {
    hide UntilBreak, NextLine;
    if a == [] {
      assert a + b == b;
    } else {
      FirstLineJoins(a, b);
      var n, k := UntilBreak(a), NextLine(a);
      assert (a + b)[k..] == a[k..] + b && (a + b)[..n] == a[..n];
      LinesJoin(a[k..], b);
      Joined([a[..n]], Lines(a[k..]), Lines(b));
    }
  }

  lemma OneLine(s: string)
    requires !HasBreak(s)
    ensures Lines(s + "\n") == [s]
  {
    hide UntilBreak;
    var t := s + "\n";
    UntilBreakIs(t, |s|);
    assert t[..|s|] == s && t[NextLine(t)..] == [];
  }

  /** A line holds no separator. */
  lemma {:induction false} LinesAreWhole(s: string)
    ensures forall l :: l in Lines(s) ==> !HasBreak(l)
  {
    if s == [] {
    } else {
      LinesAreWhole(s[NextLine(s)..]);
    }
  }

  // ---------------------------------------------------------------- bindings of a file

  /** `^\s*(?:export\s+)?NAME\s*=`; the stripped text behind the sign. */
  function Match(line: string, name: string): Option<string> {
    var s := LStrip(line);
    var t := if "export" <= s && |s| > 6 && IsSpace(s[6]) then LStrip(s[6..]) else s;
    if !(name <= t) then None
    else
      var u := LStrip(t[|name|..]);
      if u != [] && u[0] == '=' then Some(Strip(u[1..])) else None
  }

  function Matches(lines: seq<string>, name: string): seq<string> {
    if lines == [] then []
    else
      Matches(lines[..|lines| - 1], name) +
      match Match(lines[|lines| - 1], name) { case Some(v) => [v] case None => [] }
  }

  /** The values bound to a name, in order. */
  function Bindings(text: string, name: string): seq<string> { Matches(Lines(text), name) }

  /** Add a line at the end, finishing the last line first. */
  function Append(text: string, line: string): string {
    text + (if text == [] || text[|text| - 1] == '\n' then "" else "\n") + line + "\n"
  }

  lemma {:induction false} MatchesJoin(a: seq<string>, b: seq<string>, name: string)
    ensures Matches(a + b, name) == Matches(a, name) + Matches(b, name)
  {
    hide Match;
    if b == [] {
      assert a + b == a;
    } else {
      MatchesJoin(a, b[..|b| - 1], name);
      assert (a + b)[..|a + b| - 1] == a + b[..|b| - 1];
    }
  }

  lemma BlankLine(name: string)
    requires name != ""
    ensures Matches([""], name) == []
  {
    assert [""][..0] == [];
  }

  lemma FirstLineStays(text: string)
    requires '\r' !in text && text != []
    ensures UntilBreak(text + "\n") == UntilBreak(text)
    ensures NextLine(text + "\n") == if UntilBreak(text) < |text| then NextLine(text) else |text| + 1
  {
    hide UntilBreak;
    var t := text + "\n";
    assert forall i :: 0 <= i < |text| ==> t[i] == text[i];
    UntilBreakIs(t, UntilBreak(text));
    if UntilBreak(text) < |text| { assert text[UntilBreak(text)] in text; }
  }

  /** Finishing the last line adds a blank line at most. */
  lemma {:induction false} FinishedLines(text: string)
    requires '\r' !in text
    ensures Lines(text + "\n") == Lines(text) || Lines(text + "\n") == Lines(text) + [""]
    decreases |text|
  {
    hide UntilBreak, NextLine;
    if text == [] {
      OneLine("");
      assert "" + "\n" == "\n";
    } else {
      FirstLineStays(text);
      var t := text + "\n";
      var n, k := UntilBreak(text), NextLine(text);
      assert t[..n] == text[..n];
      if n < |text| {
        assert t[k..] == text[k..] + "\n";
        FinishedLines(text[k..]);
        Joined([text[..n]], Lines(text[k..]), [""]);
      } else {
        assert t[|text| + 1..] == [];
        LastLine(text);
      }
    }
  }

  lemma LastLine(text: string)
    requires text != [] && UntilBreak(text) == |text|
    ensures Lines(text) == [text]
  {
    assert text[NextLine(text)..] == [] && text[..|text|] == text;
  }

  /** What a file binds after a line was added. */
  lemma AppendBinds(text: string, line: string, name: string)
    requires '\r' !in text && name != ""
    ensures Bindings(Append(text, line), name) == Bindings(text, name) + Matches(Lines(line + "\n"), name)
  {
    hide Lines, Matches;
    if text == [] || text[|text| - 1] == '\n' {
      assert Append(text, line) == text + (line + "\n");
      LinesJoin(text, line + "\n");
      MatchesJoin(Lines(text), Lines(line + "\n"), name);
    } else {
      assert Append(text, line) == (text + "\n") + (line + "\n");
      LinesJoin(text + "\n", line + "\n");
      MatchesJoin(Lines(text + "\n"), Lines(line + "\n"), name);
      FinishedLines(text);
      MatchesJoin(Lines(text), [""], name);
      BlankLine(name);
    }
  }

  lemma OneMatch(line: string, name: string)
    requires !HasBreak(line)
    ensures Matches(Lines(line + "\n"), name) == match Match(line, name) { case Some(v) => [v] case None => [] }
  {
    hide Match, Lines;
    OneLine(line);
    assert [line][..0] == [];
  }

  /** A name that no space and no `export` can be confused with. */
  predicate PlainName(name: string) { name != "" && !IsSpace(name[0]) && name[0] != 'e' }

  lemma LStripKeeps(s: string)
    requires s != [] && !IsSpace(s[0])
    ensures LStrip(s) == s
  {
  }

  lemma MatchOwn(name: string, value: string)
    requires PlainName(name)
    ensures Match(name + "=" + value, name) == Some(Strip(value))
  {
    hide Strip, LStrip, IsSpace;
    var rest := "=" + value;
    var line := name + rest;
    assert name + "=" + value == line && line[0] == name[0];
    LStripKeeps(line);
    assert !("export" <= line);
    assert name <= line && line[|name|..] == rest;
    LStripKeeps(rest) by { assert !IsSpace('=') by { EqualsIsNoSpace(); } }
    assert rest[1..] == value;
  }

  lemma EqualsIsNoSpace()
    ensures !IsSpace('=')
  {
  }

  lemma MatchOther(name: string, other: string, value: string)
    requires PlainName(name) && PlainName(other) && name[0] != other[0]
    ensures Match(name + "=" + value, other) == None
  {
    hide Strip, LStrip, IsSpace;
    var line := name + "=" + value;
    assert line[0] == name[0];
    LStripKeeps(line);
    assert !("export" <= line);
    assert !(other <= line);
  }

  // ---------------------------------------------------------------- prepare and check

  datatype Fault = DuplicateBinding | EmptyBinding | NoCredential | ControlCharacters | Conflict | DuplicateIntro

  /** The text written, and which of the two lines were added. */
  datatype Done = Done(text: string, migrated: bool, introAdded: bool)

  function BindingLine(credential: string): string { BINDING + "=" + "\"" + Escaped(credential) + "\"" }

  const INTRO_LINE := INTRO + "=1"

  /** The intro flag is added unless it is there; twice is refused. */
  function WithIntro(text: string, migrated: bool): Result<Done, Fault> {
    var found := Bindings(text, INTRO);
    if |found| > 1 then Err(DuplicateIntro)
    else if found == [] then Ok(Done(Append(text, INTRO_LINE), migrated, true))
    else Ok(Done(text, migrated, false))
  }

  function Prepared(raw: string, credential: Option<string>): Result<Done, Fault> {
    var text := ReadText(raw);
    var bindings := Bindings(text, BINDING);
    if |bindings| > 1 then Err(DuplicateBinding)
    else if |bindings| == 1 && !NonemptyBinding(bindings[0]) then Err(EmptyBinding)
    else if credential.None? || Strip(credential.value) == "" then Err(NoCredential)
    else if bindings != [] then
      if BindingValue(bindings[0]) != credential.value then Err(Conflict) else WithIntro(text, false)
    else if !Quotable(credential.value) then Err(ControlCharacters)
    else WithIntro(Append(text, BindingLine(credential.value)), true)
  }

  /** `check` */
  predicate Check(raw: string) {
    var bindings := Bindings(ReadText(raw), BINDING);
    |bindings| == 1 && NonemptyBinding(bindings[0])
  }

  /** What an accepted file is after `prepare`: nothing was taken away, the intro flag is bound
      once, and the credential is bound once and reads back, unless it was just written and holds
      a line separator. */
  predicate Provides(raw: string, credential: string, done: Done) {
    var text := ReadText(raw);
    && text <= done.text && (!done.migrated && !done.introAdded ==> done.text == text)
    && (done.migrated <==> Bindings(text, BINDING) == [])
    && |Bindings(done.text, INTRO)| == 1
    && (!done.migrated || !HasBreak(credential) ==>
          |Bindings(done.text, BINDING)| == 1 && BindingValue(Bindings(done.text, BINDING)[0]) == credential)
  }

  /** The file binds one nonempty value, which reads as something else than the credential. */
  predicate Disagrees(raw: string, credential: string) {
    var bindings := Bindings(ReadText(raw), BINDING);
    && |bindings| == 1 && NonemptyBinding(bindings[0]) && Strip(credential) != ""
    && BindingValue(bindings[0]) != credential
  }

  lemma ConflictMeans(raw: string, credential: Option<string>)
    ensures Prepared(raw, credential) == Err(Conflict) <==> credential.Some? && Disagrees(raw, credential.value)
  {
    hide Bindings, ReadText, NonemptyBinding, BindingValue, Strip, Quotable, Append, BindingLine;
  }

  /** The text part of `prepare`. A conflict is refused exactly when the file already binds one
      nonempty value that reads as another credential. */
  method Prepare(raw: string, credential: Option<string>) returns (r: Result<Done, Fault>)
    ensures r == Prepared(raw, credential)
    ensures r.Ok? ==> credential.Some? && Provides(raw, credential.value, r.value)
    ensures r == Err(Conflict) <==> credential.Some? && Disagrees(raw, credential.value)
  {
    if Prepared(raw, credential).Ok? { PreparedProvides(raw, credential.value); }
    ConflictMeans(raw, credential);
    hide Provides, Disagrees;
    hide Bindings, ReadText, NonemptyBinding, BindingValue, Escaped, Strip, Quotable, WithIntro, Append, BindingLine;
    var text := ReadText(raw);
    var bindings := Bindings(text, BINDING);
    if |bindings| > 1 { return Err(DuplicateBinding); }
    if bindings != [] && !NonemptyBinding(bindings[0]) { return Err(EmptyBinding); }
    if credential.None? || Strip(credential.value) == "" { return Err(NoCredential); }
    var migrated := false;
    if bindings == [] {
      var quoted := QuoteEnv(credential.value);
      if quoted.None? { return Err(ControlCharacters); }
      assert BINDING + "=" + quoted.value == BindingLine(credential.value) by { LineIs(credential.value); }
      text := AddLine(text, BINDING + "=" + quoted.value);
      migrated := true;
    } else if BindingValue(bindings[0]) != credential.value {
      return Err(Conflict);
    }
    r := EnableIntro(text, migrated);
  }

  lemma LineIs(credential: string)
    requires QuoteEnv(credential).Some?
    ensures BINDING + "=" + QuoteEnv(credential).value == BindingLine(credential)
  {
    hide Escaped, Quotable;
  }

  method AddLine(text: string, line: string) returns (r: string)
    ensures r == Append(text, line)
  {
    var suffix := if text == [] || text[|text| - 1] == '\n' then "" else "\n";
    r := text + suffix + line + "\n";
  }

  /** The second half of `prepare`. */
  method EnableIntro(text: string, migrated: bool) returns (r: Result<Done, Fault>)
    ensures r == WithIntro(text, migrated)
  {
    hide Bindings, Append;
    var introLines := Bindings(text, INTRO);
    if |introLines| > 1 { return Err(DuplicateIntro); }
    if introLines != [] { return Ok(Done(text, migrated, false)); }
    var extended := AddLine(text, INTRO_LINE);
    r := Ok(Done(extended, migrated, true));
  }

  // ---------------------------------------------------------------- preparing twice

  /** No value of a binding spans lines. */
  lemma {:induction false} MatchesAreWhole(lines: seq<string>, name: string)
    requires forall l :: l in lines ==> !HasBreak(l)
    ensures forall v :: v in Matches(lines, name) ==> !HasBreak(v)
  {
    hide Match, HasBreak;
    if lines == [] {
    } else {
      var n := |lines| - 1;
      assert forall l :: l in lines[..n] ==> l in lines;
      MatchesAreWhole(lines[..n], name);
      if Match(lines[n], name).Some? {
        MatchIsPart(lines[n], name);
        PartIsWhole(lines[n], Match(lines[n], name).value);
      }
    }
  }

  lemma PartIsWhole(whole: string, part: string)
    requires !HasBreak(whole) && forall c :: c in part ==> c in whole
    ensures !HasBreak(part)
  {
    forall i | 0 <= i < |part|
      ensures !IsBreak(part[i])
    {
      assert part[i] in whole;
    }
  }

  lemma MatchIsPart(line: string, name: string)
    requires Match(line, name).Some?
    ensures forall c :: c in Match(line, name).value ==> c in line
  {
    hide LStrip, Strip, IsSpace;
    var s := LStrip(line);
    LStripIs(line);
    var t := if "export" <= s && |s| > 6 && IsSpace(s[6]) then LStrip(s[6..]) else s;
    if |s| > 6 { LStripIs(s[6..]); }
    LStripIs(t[|name|..]);
    StripIs(LStrip(t[|name|..])[1..]);
  }

  lemma BindingsAreWhole(text: string, name: string)
    ensures forall v :: v in Bindings(text, name) ==> !HasBreak(v)
  {
    LinesAreWhole(text);
    MatchesAreWhole(Lines(text), name);
  }

  lemma {:induction false} PairIsPart(s: string, a: char, b: char, c: char)
    requires c == a || c == b
    ensures forall x :: x in ReplacePair(s, a, b, c) ==> x in s
  {
    if |s| >= 2 && s[0] == a && s[1] == b {
      PairIsPart(s[2..], a, b, c);
    } else if s != [] {
      PairIsPart(s[1..], a, b, c);
    }
  }

  lemma {:induction false} BeforeHashIsPart(s: string)
    ensures forall x :: x in BeforeHash(s) ==> x in s
  {
    if s == [] {
    } else {
      BeforeHashIsPart(s[1..]);
    }
  }

  /** Reading a value invents no characters. */
  lemma ValueIsPart(raw: string)
    ensures forall c :: c in BindingValue(raw) ==> c in raw
  {
    hide ReplacePair, BeforeHash;
    hide Strip;
    var s := Strip(raw);
    StripIs(raw);
    StripIs(BeforeHash(s));
    PairIsPart(Inner(s), '\\', '"', '"');
    PairIsPart(ReplacePair(Inner(s), '\\', '"', '"'), '\\', '\\', '\\');
    BeforeHashIsPart(s);
  }

  /** So a credential with a separator is never what a binding reads as. */
  lemma BrokenIsNeverRead(text: string, v: string, credential: string)
    requires v in Bindings(text, BINDING) && HasBreak(credential)
    ensures BindingValue(v) != credential
  {
    hide BindingValue, Bindings, HasBreak;
    BindingsAreWhole(text, BINDING);
    ValueIsPart(v);
    PartIsWhole(v, BindingValue(v));
  }

  lemma {:induction false} EscapedChars(v: string)
    ensures forall c :: c in v ==> c in Escaped(v)
    ensures forall c :: c in Escaped(v) ==> c in v || c == '\\' || c == '"'
  {
    hide Escaped;
    if v == [] {
      EscapedEmpty();
    } else {
      EscapedChars(v[1..]);
      EscapedUnfolds(v);
    }
  }

  lemma {:induction false} NotBlank(s: string)
    ensures LStrip(s) != "" <==> exists c :: c in s && !IsSpace(c)
  {
    if s == [] {
    } else {
      assert s == [s[0]] + s[1..];
      if IsSpace(s[0]) { NotBlank(s[1..]); } else { assert s[0] in s; }
    }
  }

  lemma NotBlankBothEnds(s: string)
    ensures Strip(s) != "" <==> exists c :: c in s && !IsSpace(c)
  {
    hide IsSpace;
    NotBlank(s);
    LStripIs(s);
    var l := LStrip(s);
    if l != [] { assert !IsSpace(l[0]) && RStrip(l) != [] by { RStripKeepsHead(l); } }
  }

  lemma {:induction false} RStripKeepsHead(s: string)
    requires s != [] && !IsSpace(s[0])
    ensures RStrip(s) != []
  {
    hide IsSpace;
    if IsSpace(s[|s| - 1]) { RStripKeepsHead(s[..|s| - 1]); }
  }

  lemma IntroIsWhole()
    ensures forall i :: 0 <= i < |INTRO| ==> !IsBreak(INTRO[i])
  {
  }

  lemma NamesAreWhole()
    ensures !HasBreak(BINDING) && !HasBreak(INTRO_LINE)
    ensures PlainName(BINDING) && PlainName(INTRO) && BINDING[0] != INTRO[0]
  {
    IntroIsWhole();
    assert forall i :: 0 <= i < |INTRO| ==> INTRO_LINE[i] == INTRO[i];
  }

  function Quoted(credential: string): string { "\"" + Escaped(credential) + "\"" }

  /** A quoted credential counts as present, and reads back. */
  lemma QuotedIsRead(credential: string)
    requires Quotable(credential) && Strip(credential) != ""
    ensures Strip(Quoted(credential)) == Quoted(credential)
    ensures NonemptyBinding(Quoted(credential)) && BindingValue(Quoted(credential)) == credential
  {
    hide Escaped, Strip, BindingValue, IsSpace;
    var q := Quoted(credential);
    QuotingRoundTrip(credential);
    assert !IsSpace('"') by { QuoteIsNoSpace(); }
    StripFixes(q);
    assert Inner(q) == Escaped(credential);
    EscapedChars(credential);
    NotBlankBothEnds(credential);
    NotBlankBothEnds(Escaped(credential));
  }

  lemma QuoteIsNoSpace()
    ensures !IsSpace('"')
  {
  }

  lemma LineIsWhole(credential: string)
    requires !HasBreak(credential)
    ensures !HasBreak(BindingLine(credential))
  {
    hide Escaped;
    EscapedChars(credential);
    NamesAreWhole();
    var line := BindingLine(credential);
    forall i | 0 <= i < |line|
      ensures !IsBreak(line[i])
    {
      if i < |BINDING| {
        assert line[i] == BINDING[i];
      } else if i > |BINDING| + 1 && i < |line| - 1 {
        assert line[i] == Escaped(credential)[i - |BINDING| - 2];
        assert line[i] in Escaped(credential);
      }
    }
  }

  lemma CleanLineBinds(credential: string)
    requires Quotable(credential) && Strip(credential) != "" && !HasBreak(credential)
    ensures Matches(Lines(BindingLine(credential) + "\n"), BINDING) == [Quoted(credential)]
  {
    hide Escaped, HasBreak, Lines, Matches, Match, Strip, NonemptyBinding, BindingValue, Quotable;
    LineIsWhole(credential);
    OneMatch(BindingLine(credential), BINDING);
    assert BindingLine(credential) == BINDING + "=" + Quoted(credential);
    NamesAreWhole();
    MatchOwn(BINDING, Quoted(credential));
    QuotedIsRead(credential);
  }

  /** A broken line still binds the name: its first part does. */
  lemma BrokenLineBinds(value: string)
    ensures Matches(Lines(BINDING + "=" + value + "\n"), BINDING) != []
  {
    hide Lines, Matches, Match, UntilBreak;
    NamesAreWhole();
    var t := BINDING + "=" + value + "\n";
    var n := UntilBreak(t);
    assert forall i :: 0 <= i < |BINDING| ==> t[i] == BINDING[i];
    assert t[|BINDING|] == '=';
    assert n > |BINDING|;
    assert t[..n] == BINDING + "=" + t[|BINDING| + 1..n];
    MatchOwn(BINDING, t[|BINDING| + 1..n]);
    FirstLine(t, BINDING);
  }

  lemma FirstLine(t: string, name: string)
    requires t != [] && Match(t[..UntilBreak(t)], name).Some?
    ensures Matches(Lines(t), name) != []
  {
    hide Match, UntilBreak;
    var first := t[..UntilBreak(t)];
    MatchesJoin([first], Lines(t[NextLine(t)..]), name);
    assert [first][..0] == [];
  }

  lemma IntroBinds(text: string)
    requires '\r' !in text
    ensures Bindings(Append(text, INTRO_LINE), BINDING) == Bindings(text, BINDING)
    ensures Bindings(Append(text, INTRO_LINE), INTRO) == Bindings(text, INTRO) + ["1"]
  {
    hide Bindings, Append, Lines, Matches, Match, HasBreak, Strip;
    NamesAreWhole();
    assert INTRO_LINE == INTRO + "=" + "1";
    AppendBinds(text, INTRO_LINE, BINDING);
    AppendBinds(text, INTRO_LINE, INTRO);
    OneMatch(INTRO_LINE, BINDING);
    OneMatch(INTRO_LINE, INTRO);
    MatchOwn(INTRO, "1");
    MatchOther(INTRO, BINDING, "1");
    assert Strip("1") == "1" by { OneIsStripped(); }
  }

  lemma OneIsStripped()
    ensures Strip("1") == "1"
  {
    StripFixes("1");
  }

  lemma AppendKeepsText(text: string, line: string)
    requires '\r' !in text && '\r' !in line
    ensures '\r' !in Append(text, line)
  {
  }

  /** After a successful intro step: the same bindings, and the flag exactly once. */
  lemma IntroOnce(text: string, migrated: bool)
    requires '\r' !in text && WithIntro(text, migrated).Ok?
    ensures var done := WithIntro(text, migrated).value;
            done.migrated == migrated && '\r' !in done.text
            && Bindings(done.text, BINDING) == Bindings(text, BINDING)
            && WithIntro(done.text, false) == Ok(Done(done.text, false, false))
  {
    hide Bindings, Append;
    IntroBinds(text);
    assert '\r' !in INTRO_LINE;
    AppendKeepsText(text, INTRO_LINE);
  }

  lemma IntroAppends(text: string, migrated: bool)
    requires '\r' !in text && WithIntro(text, migrated).Ok?
    ensures var done := WithIntro(text, migrated).value;
            text <= done.text && |Bindings(done.text, INTRO)| == 1 && (!done.introAdded ==> done.text == text)
  {
    hide Bindings;
    IntroBinds(text);
  }

  lemma AppendExtends(text: string, line: string)
    ensures text <= Append(text, line)
  {
  }

  lemma PreparedProvides(raw: string, credential: string)
    requires Prepared(raw, Some(credential)).Ok?
    ensures Provides(raw, credential, Prepared(raw, Some(credential)).value)
  {
    hide Bindings, Append, ReadText, HasBreak, WithIntro, Strip, NonemptyBinding, BindingValue, BindingLine, Quotable;
    var text := ReadText(raw);
    if Bindings(text, BINDING) != [] {
      IntroOnce(text, false);
      IntroAppends(text, false);
    } else {
      var written := Append(text, BindingLine(credential));
      LineHasNoReturn(credential);
      AppendKeepsText(text, BindingLine(credential));
      AppendExtends(text, BindingLine(credential));
      IntroOnce(written, true);
      IntroAppends(written, true);
      MigratedBinds(text, credential);
      if !HasBreak(credential) { QuotedIsRead(credential); }
    }
  }

  /** Preparing the result again changes nothing, and `check` accepts it, unless the credential
      was written and holds a line separator; then the second run is refused. */
  lemma PreparingTwice(raw: string, credential: string)
    requires Prepared(raw, Some(credential)).Ok?
    ensures var done := Prepared(raw, Some(credential)).value;
            if done.migrated && HasBreak(credential) then Prepared(done.text, Some(credential)).Err?
            else Prepared(done.text, Some(credential)) == Ok(Done(done.text, false, false)) && Check(done.text)
  {
    hide Bindings, Append, ReadText, HasBreak, WithIntro, Strip, NonemptyBinding, BindingValue, BindingLine, Quotable;
    var text := ReadText(raw);
    var done := Prepared(raw, Some(credential)).value;
    if Bindings(text, BINDING) != [] {
      IntroOnce(text, false);
      ReadTextKeeps(done.text);
    } else {
      var written := Append(text, BindingLine(credential));
      LineHasNoReturn(credential);
      AppendKeepsText(text, BindingLine(credential));
      IntroOnce(written, true);
      ReadTextKeeps(done.text);
      MigratedBinds(text, credential);
      if HasBreak(credential) {
        var found := Bindings(written, BINDING);
        if |found| == 1 { BrokenIsNeverRead(written, found[0], credential); }
      } else {
        QuotedIsRead(credential);
      }
    }
  }

  lemma LineHasNoReturn(credential: string)
    requires Quotable(credential)
    ensures '\r' !in BindingLine(credential)
  {
    hide Escaped;
    EscapedChars(credential);
  }

  /** What the migrated file binds. */
  lemma MigratedBinds(text: string, credential: string)
    requires '\r' !in text && Bindings(text, BINDING) == [] && Quotable(credential) && Strip(credential) != ""
    ensures var found := Bindings(Append(text, BindingLine(credential)), BINDING);
            found != [] && (!HasBreak(credential) ==> found == [Quoted(credential)])
  {
    hide Bindings, Append, Lines, Matches, HasBreak, Strip, Quotable, Escaped;
    AppendBinds(text, BindingLine(credential), BINDING);
    assert BindingLine(credential) == BINDING + "=" + Quoted(credential);
    BrokenLineBinds(Quoted(credential));
    if !HasBreak(credential) { CleanLineBinds(credential); }
  }

  const BROKEN := "a\U{0B}b"

  /** Such a credential, with a vertical tab, is accepted and written into an empty file. */
  lemma BrokenIsWritten()
    ensures HasBreak(BROKEN) && Prepared("", Some(BROKEN)).Ok? && Prepared("", Some(BROKEN)).value.migrated
  {
    hide Bindings, Append, Escaped, Strip, Lines, Matches;
    assert IsBreak(BROKEN[1]);
    assert Strip(BROKEN) != "" by {
      assert BROKEN[0] in BROKEN && !IsSpace(BROKEN[0]);
      NotBlankBothEnds(BROKEN);
    }
    assert Bindings("", BINDING) == [] && Bindings("", INTRO) == [] by { NothingBound(); }
    AppendBinds("", BindingLine(BROKEN), INTRO);
    BrokenLineHasNoIntro();
  }

  lemma NothingBound()
    ensures Bindings("", BINDING) == [] && Bindings("", INTRO) == []
  {
  }

  lemma BrokenEscapes()
    ensures Escaped(BROKEN) == BROKEN
  {
    hide Escaped;
    EscapedUnfolds(BROKEN);
    assert BROKEN[1..] == "\U{0B}b";
    EscapedUnfolds("\U{0B}b");
    assert "\U{0B}b"[1..] == "b";
    EscapedUnfolds("b");
    assert "b"[1..] == "";
    EscapedEmpty();
  }

  lemma BrokenLineHasNoIntro()
    ensures Matches(Lines(BindingLine(BROKEN) + "\n"), INTRO) == []
  {
    hide Escaped, Lines, Matches, Match, UntilBreak;
    BrokenEscapes();
    NamesAreWhole();
    var first, second := BINDING + "=" + "\"a", "b\"";
    var t := BindingLine(BROKEN) + "\n";
    assert t == first + "\U{0B}" + (second + "\n");
    assert forall i :: 0 <= i < |BINDING| ==> first[i] == BINDING[i];
    TwoLines(first, second);
    MatchOther(BINDING, INTRO, "\"a");
    NoIntroIn(second);
    assert [first, second] == [first] + [second];
    MatchesJoin([first], [second], INTRO);
    OneLineMatches(first, INTRO);
    OneLineMatches(second, INTRO);
  }

  lemma OneLineMatches(line: string, name: string)
    ensures Matches([line], name) == match Match(line, name) { case Some(v) => [v] case None => [] }
  {
    hide Match;
    assert [line][..0] == [];
  }

  lemma NoIntroIn(line: string)
    requires line == "b\""
    ensures Match(line, INTRO) == None
  {
    hide Strip;
    LStripKeeps(line);
  }

  lemma TwoLines(first: string, second: string)
    requires !HasBreak(first) && !HasBreak(second)
    ensures Lines(first + "\U{0B}" + (second + "\n")) == [first, second]
  {
    hide UntilBreak;
    var t := first + "\U{0B}" + (second + "\n");
    UntilBreakIs(t, |first|);
    assert t[..|first|] == first && t[NextLine(t)..] == second + "\n";
    OneLine(second);
  }
}
