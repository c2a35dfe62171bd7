/** What values mean, said with the values themselves: what a field accepts, what is stored for it
    and what a reader is shown. The functions of CsvFields are proved to compute exactly this. */
module CsvMeaning {
  import opened Text
  import opened Decimals
  import opened CsvFields

  // ---------------------------------------------------------------- texts and numbers

  /** A text as it is stored: without the spaces around it; a blank one is shown as nothing. */
  function TextShown(s: string): Value { if Strip(s) == "" then Null else Str(Strip(s)) }

  /** The stripped text is short enough and harmless. */
  predicate TextTaken(s: string, maximum: nat) {
    Utf8Length(Strip(s)) <= maximum && '\0' !in Strip(s) && !StartsFormula(Strip(s))
  }

  /** The exact number a value stands for, if it stands for one. */
  function NumberOf(v: Value): Option<real> {
    match v
    case Null => None
    case Bool(_) => None
    case Int(i) => Some(i as real)
    case Float(s) => NumberInText(s)
    case Str(s) => NumberInText(s)
    case Composite(s) => NumberInText(s)
  }

  function NumberInText(s: string): Option<real> {
    match ParseDec(Strip(s)) case None => None case Some(d) => Some(Val(d))
  }

  /** The text is a non-negative integer in its shortest form, possibly after a plus sign. */
  predicate WritesInteger(s: string, i: int) {
    i >= 0 && |Digits(i)| <= 4300 && (Strip(s) == Digits(i) || Strip(s) == "+" + Digits(i))
  }

  // ---------------------------------------------------------------- what a reader is shown

  /** What a field of this type shows for a value that is not blank. */
  predicate TypedMeans(cal: Calendar, f: Field, v: Value, seen: Value) {
    match f.ftype
    case BooleanType => v.Bool? && seen == v
    case IntegerType =>
      seen.Int?
      && (match v
          case Int(i) => i >= 0 && seen.i == i
          case Str(s) => WritesInteger(s, seen.i)
          case Float(s) => WritesInteger(s, seen.i)
          case Composite(s) => WritesInteger(s, seen.i)
          case _ => false)
    case TextType =>
      (match v
       case Str(s) => seen == TextShown(s)
       case Null => seen == Null
       case Bool(b) => seen == Str(if b then "True" else "False")
       case Int(i) => i >= 0 && seen == Str(Digits(i))
       case Float(s) => seen == TextShown(s)
       case Composite(s) => seen == TextShown(s))
    case EnumType => v.Str? && Strip(v.s) in f.enum && Strip(v.s) != "" && seen == Str(Strip(v.s))
    case DateType => v.Str? && cal.date(Strip(v.s)).Some? && seen == Dated(cal.date(Strip(v.s)).value)
    case DatetimeType => v.Str? && cal.datetime(Strip(v.s)).Some? && seen == Dated(cal.datetime(Strip(v.s)).value)
    case DecimalType => seen.Str? && NumberOf(seen).Some? && NumberOf(v) == NumberOf(seen) && Plain(PyStr(v), seen.s)
  }

  /** The number of the first text, written out in plain notation without needless zeros. */
  predicate Plain(s: string, plain: string) {
    ParseDec(Strip(s)).Some? && plain == ToFixed(Norm(ParseDec(Strip(s)).value)) && Strip(plain) == plain
  }

  function Dated(text: string): Value { if text == "" then Null else Str(text) }

  /** What a field shows for a value: a blank one takes the default, and without a default it shows
      nothing. */
  predicate FieldMeans(cal: Calendar, f: Field, v: Value, seen: Value) {
    if v != Null && v != Str("") then TypedMeans(cal, f, v, seen)
    else
      match f.default
      case None => seen == Null
      case Some(w) => TypedMeans(cal, f, w, seen)
  }

  // ---------------------------------------------------------------- what is accepted

  ghost predicate TypedTaken(cal: Calendar, f: Field, v: Value) {
    match f.ftype
    case BooleanType => v.Bool?
    case IntegerType =>
      (match v
       case Int(i) => i >= 0 && |Digits(i)| <= 4300
       case Str(s) => exists i :: WritesInteger(s, i)
       case Float(s) => exists i :: WritesInteger(s, i)
       case Composite(s) => exists i :: WritesInteger(s, i)
       case _ => false)
    case TextType =>
      (match v
       case Str(s) => TextTaken(s, 4096)
       case Float(s) => TextTaken(s, 4096)
       case Composite(s) => TextTaken(s, 4096)
       case Int(i) => i >= 0 && |Digits(i)| <= 4096
       case _ => true)
    case EnumType => v.Str? && Strip(v.s) != "" && TextTaken(v.s, 256) && Strip(v.s) in f.enum
    case DateType => v.Str? && Strip(v.s) != "" && TextTaken(v.s, 32) && cal.date(Strip(v.s)).Some?
    case DatetimeType => v.Str? && Strip(v.s) != "" && TextTaken(v.s, 80) && cal.datetime(Strip(v.s)).Some?
    case DecimalType =>
      (match v
       case Null => false
       case Bool(_) => false
       case _ => NumberTaken(PyStr(v)))
  }

  /** A finite number of at most 1024 characters that needs at most 1024 digits written out. */
  predicate NumberTaken(s: string) {
    var t := Strip(s);
    1 <= |t| <= 1024 && ParseDec(t).Some? && FitsFixed(ParseDec(t).value)
  }

  ghost predicate FieldTaken(cal: Calendar, f: Field, v: Value) {
    if v != Null && v != Str("") then TypedTaken(cal, f, v)
    else
      match f.default
      case None => !f.required
      case Some(w) => TypedTaken(cal, f, w)
  }

  // ---------------------------------------------------------------- the functions compute this

  lemma DigitIsNoSpace(s: string)
    requires AllDigits(s)
    ensures Strip(s) == s
  {
    if s == [] {
      assert Strip(s) == [];
    } else {
      assert IsDigit(s[0]) && IsDigit(s[|s| - 1]);
      StripFixes(s);
    }
  }

  lemma {:induction false} SpanOfDigits(s: string)
    ensures Span(s) == |s| <==> AllDigits(s)
  {
    if s == [] {
    } else {
      SpanOfDigits(s[1..]);
      assert AllDigits(s) <==> IsDigit(s[0]) && AllDigits(s[1..]) by { DigitsSplit(s); }
    }
  }

  lemma DigitsSplit(s: string)
    requires s != []
    ensures AllDigits(s) <==> IsDigit(s[0]) && AllDigits(s[1..])
  {
    if IsDigit(s[0]) && AllDigits(s[1..]) {
      forall i | 0 <= i < |s|
        ensures IsDigit(s[i])
      {
        if i > 0 { assert s[i] == s[1..][i - 1]; }
      }
    }
  }

  /** The unsigned part of an integer text. */
  function Unsigned(t: string): string { if t != [] && t[0] == '+' then t[1..] else t }

  lemma IntegerText(s: string)
    ensures var u := Unsigned(Strip(s));
            (|u| <= 4300 && Span(u) == |u| && u == Digits(ParseNat(u)) <==> exists i :: WritesInteger(s, i))
    ensures forall i :: WritesInteger(s, i) ==> Unsigned(Strip(s)) == Digits(i) && ParseNat(Unsigned(Strip(s))) == i
  {
    hide Strip, Digits, ParseNat, Span;
    var t := Strip(s);
    var u := Unsigned(t);
    forall i | WritesInteger(s, i)
      ensures u == Digits(i) && ParseNat(u) == i && Span(u) == |u|
    {
      IntegerDigits(i);
      ParseDigits(i);
    }
    if |u| <= 4300 && Span(u) == |u| && u == Digits(ParseNat(u)) {
      assert t == u || t == "+" + u;
      assert WritesInteger(s, ParseNat(u));
    }
  }

  lemma IntegerDigits(i: nat)
    ensures Span(Digits(i)) == |Digits(i)| && Digits(i) != [] && Digits(i)[0] != '+' && Strip(Digits(i)) == Digits(i)
    ensures ("+" + Digits(i))[1..] == Digits(i)
  {
    hide Strip, Digits, Span;
    DigitsAreDigits(i);
    SpanOfDigits(Digits(i));
    DigitIsNoSpace(Digits(i));
    assert IsDigit(Digits(i)[0]);
  }

  lemma CanonIntegerMeans(v: Value)
    ensures CanonInteger(v).Ok? <==> !v.Bool? && exists i :: WritesInteger(PyStr(v), i)
    ensures CanonInteger(v).Ok? ==>
              CanonInteger(v).value != "" && WritesInteger(PyStr(v), ParseNat(CanonInteger(v).value))
  {
    hide Strip, Digits, ParseNat, Span, PyStr, WritesInteger;
    IntegerText(PyStr(v));
    if CanonInteger(v).Ok? {
      var i :| WritesInteger(PyStr(v), i);
      assert CanonInteger(v).value == Digits(i);
    }
  }

  lemma IntegerOfInt(i: int)
    ensures forall j :: WritesInteger(PyStr(Int(i)), j) ==> j == i
    ensures (exists j :: WritesInteger(PyStr(Int(i)), j)) <==> i >= 0 && |Digits(i)| <= 4300
  {
    hide Strip, Digits, ParseNat;
    if i >= 0 {
      IntegerDigits(i);
      assert PyStr(Int(i)) == Digits(i);
      forall j | WritesInteger(PyStr(Int(i)), j)
        ensures j == i
      {
        SameDigits(i, j);
      }
      if |Digits(i)| <= 4300 { assert WritesInteger(PyStr(Int(i)), i); }
    } else {
      NoNegativeInteger(i);
    }
  }

  lemma NoNegativeInteger(i: int)
    requires i < 0
    ensures forall j :: !WritesInteger(PyStr(Int(i)), j)
  {
    hide Strip, Digits, PyStr;
    NegativeText(i);
    forall j
      ensures !WritesInteger(PyStr(Int(i)), j)
    {
      if j >= 0 { assert Digits(j)[0] != '-'; }
    }
  }

  lemma SameDigits(i: nat, j: nat)
    requires Digits(i) == Digits(j) || Digits(i) == "+" + Digits(j)
    ensures i == j
  {
    hide Digits, ParseNat, Strip, Span;
    IntegerDigits(i);
    ParseDigits(i);
    ParseDigits(j);
  }

  lemma NegativeText(i: int)
    requires i < 0
    ensures Strip(PyStr(Int(i))) == PyStr(Int(i)) && PyStr(Int(i))[0] == '-'
    ensures forall j: nat :: Digits(j)[0] != '-'
  {
    hide Strip, Digits;
    var t := PyStr(Int(i));
    IntegerDigits(0 - i);
    DigitsAreDigits(0 - i);
    assert t == "-" + Digits(0 - i) && IsDigit(t[|t| - 1]);
    StripFixes(t);
    forall j: nat
      ensures Digits(j)[0] != '-'
    {
      DigitsAreDigits(j);
      assert IsDigit(Digits(j)[0]);
    }
  }

  /** A text is accepted exactly when it is harmless, and then it is stored stripped. */
  lemma SafeTextMeans(s: string, maximum: nat, required: bool)
    ensures SafeText(Str(s), maximum, required).Ok? <==> TextTaken(s, maximum) && (required ==> Strip(s) != "")
    ensures SafeText(Str(s), maximum, required).Ok? ==> SafeText(Str(s), maximum, required).value == Strip(s)
  {
    hide Strip, Utf8Length, StartsFormula;
  }

  lemma {:induction false} AsciiLength(s: string)
    requires AllDigits(s)
    ensures Utf8Length(s) == |s|
  {
    if s == [] {
    } else {
      DigitsSplit(s);
      AsciiLength(s[1..]);
    }
  }

  lemma OtherTextMeans(cal: Calendar, f: Field, v: Value)
    requires f.ftype.TextType? && !v.Str?
    ensures CanonTyped(cal, f, v).Ok? <==> TypedTaken(cal, f, v)
    ensures CanonTyped(cal, f, v).Ok? ==> TypedMeans(cal, f, v, PublicValue(f.ftype, CanonTyped(cal, f, v).value))
  {
    hide Strip, Digits;
    match v {
      case Null => NothingStripped();
      case Bool(b) => WordsStripped();
      case Int(i) => IntText(i);
      case Float(s) => hide Utf8Length, StartsFormula;
      case Composite(s) => hide Utf8Length, StartsFormula;
    }
  }

  lemma NothingStripped()
    ensures Strip("") == "" && Utf8Length("") == 0
  {
  }

  lemma WordsStripped()
    ensures Strip("True") == "True" && Strip("False") == "False"
    ensures Utf8Length("True") == 4 && Utf8Length("False") == 5
  {
    StripFixes("True");
    StripFixes("False");
    assert "True"[1..] == "rue" && "rue"[1..] == "ue" && "ue"[1..] == "e" && "e"[1..] == "";
    assert "False"[1..] == "alse" && "alse"[1..] == "lse" && "lse"[1..] == "se" && "se"[1..] == "e";
  }

  lemma IntText(i: int)
    ensures i >= 0 ==>
              var t := PyStr(Int(i));
              t == Digits(i) && Strip(t) == t && Utf8Length(t) == |t| && '\0' !in t && !StartsFormula(t) && t != ""
    ensures i < 0 ==> StartsFormula(Strip(PyStr(Int(i))))
  {
    hide Strip, Digits, Utf8Length;
    if i >= 0 {
      IntegerDigits(i);
      DigitsAreDigits(i);
      AsciiLength(Digits(i));
      assert IsDigit(Digits(i)[0]);
    } else {
      NegativeText(i);
    }
  }

  lemma CanonTextTaken(s: string)
    ensures CanonText(s).Some? <==> NumberTaken(s)
    ensures CanonText(s).Some? ==> CanonText(s).value != ""
  {
    hide ParseDec, Strip, FitsFixed, ToFixed, TrimText;
    if CanonText(s).Some? {
      CanonKeepsValue(s);
      NoEmptyNumber();
    }
  }

  lemma NoEmptyNumber()
    ensures ParseDec("") == None
  {
  }

  lemma NumberOfIntText(i: int)
    ensures ParseDec(Strip(PyStr(Int(i)))).Some? && Val(ParseDec(Strip(PyStr(Int(i)))).value) == i as real
  {
    hide ParseDec, Strip, Digits, ParseNat;
    var n: nat := if i < 0 then -i else i;
    DigitsAreDigits(n);
    ParseDigits(n);
    ParseWhole(i < 0, Digits(n), None);
    assert NumberText(i < 0, Digits(n), None, None) == PyStr(Int(i)) by { WholeText(i < 0, Digits(n)); }
    assert Scale(0) == 1.0;
  }

  lemma WholeText(neg: bool, ds: string)
    ensures NumberText(neg, ds, None, None) == (if neg then "-" + ds else ds)
  {
    assert ds + ("" + "") == ds;
  }

  lemma CanonNumberMeans(v: Value)
    ensures CanonNumber(v).Ok? <==> !v.Null? && !v.Bool? && NumberTaken(PyStr(v))
    ensures CanonNumber(v).Ok? ==>
              var t := CanonNumber(v).value;
              t != "" && Plain(PyStr(v), t) && NumberInText(t).Some? && NumberOf(v) == NumberInText(t)
  {
    hide ParseDec, Strip, CanonText, NumberTaken, PyStr, Val, ToFixed, Norm;
    if !v.Null? && !v.Bool? {
      CanonTextTaken(PyStr(v));
      if CanonText(PyStr(v)).Some? {
        CanonKeepsValue(PyStr(v));
        if v.Int? { NumberOfIntText(v.i); }
        TextOfText(v);
      }
    }
  }

  lemma TextOfText(v: Value)
    ensures v.Str? ==> PyStr(v) == v.s
    ensures v.Float? || v.Composite? ==> PyStr(v) == v.repr
  {
  }

  lemma TextsTaken(cal: Calendar, f: Field, v: Value)
    requires f.ftype.TextType? || f.ftype.EnumType?
    ensures CanonTyped(cal, f, v).Ok? <==> TypedTaken(cal, f, v)
    ensures CanonTyped(cal, f, v).Ok? ==> TypedMeans(cal, f, v, PublicValue(f.ftype, CanonTyped(cal, f, v).value))
  {
    if !v.Str? && f.ftype.TextType? {
      OtherTextMeans(cal, f, v);
    } else if v.Str? {
      hide SafeText, Strip, TextTaken;
      SafeTextMeans(v.s, 4096, false);
      SafeTextMeans(v.s, 256, true);
    } else {
      hide SafeText;
      OnlyTexts(v, 256);
    }
  }

  lemma NumbersTaken(cal: Calendar, f: Field, v: Value)
    requires f.ftype.DecimalType? || f.ftype.IntegerType? || f.ftype.BooleanType?
    ensures CanonTyped(cal, f, v).Ok? <==> TypedTaken(cal, f, v)
    ensures CanonTyped(cal, f, v).Ok? ==> TypedMeans(cal, f, v, PublicValue(f.ftype, CanonTyped(cal, f, v).value))
  {
    hide CanonNumber, NumberTaken, ParseDec, Strip, PyStr, Val, Plain, CanonInteger, WritesInteger, ParseNat, Digits;
    CanonNumberMeans(v);
    IntegerMeans(v);
  }

  lemma TypedIsTaken(cal: Calendar, f: Field, v: Value)
    ensures CanonTyped(cal, f, v).Ok? <==> TypedTaken(cal, f, v)
    ensures CanonTyped(cal, f, v).Ok? ==> TypedMeans(cal, f, v, PublicValue(f.ftype, CanonTyped(cal, f, v).value))
  {
    hide CanonTyped, TypedTaken, TypedMeans, PublicValue;
    match f.ftype {
      case TextType => TextsTaken(cal, f, v);
      case EnumType => TextsTaken(cal, f, v);
      case DecimalType => NumbersTaken(cal, f, v);
      case IntegerType => NumbersTaken(cal, f, v);
      case BooleanType => NumbersTaken(cal, f, v);
      case DateType => DatesTaken(cal, f, v);
      case DatetimeType => DatesTaken(cal, f, v);
    }
  }

  lemma OnlyTexts(v: Value, maximum: nat)
    requires !v.Str?
    ensures SafeText(v, maximum, true).Err?
  {
  }

  lemma IntegerMeans(v: Value)
    ensures CanonInteger(v).Ok? <==>
              (match v
               case Int(i) => i >= 0 && |Digits(i)| <= 4300
               case Str(s) => exists i :: WritesInteger(s, i)
               case Float(s) => exists i :: WritesInteger(s, i)
               case Composite(s) => exists i :: WritesInteger(s, i)
               case _ => false)
    ensures CanonInteger(v).Ok? ==>
              var i := ParseNat(CanonInteger(v).value);
              CanonInteger(v).value != "" && WritesInteger(PyStr(v), i)
              && (match v
                  case Int(j) => j == i
                  case Str(s) => WritesInteger(s, i)
                  case Float(s) => WritesInteger(s, i)
                  case Composite(s) => WritesInteger(s, i)
                  case _ => false)
  {
    hide CanonInteger, WritesInteger, ParseNat, Digits, Strip;
    CanonIntegerMeans(v);
    TextOfText(v);
    if v.Int? { IntegerOfInt(v.i); }
    if v.Null? { NoneIsNoInteger(); }
  }

  lemma NoneIsNoInteger()
    ensures forall i :: !WritesInteger(PyStr(Null), i)
  {
    hide Digits, Strip;
    StripFixes("None");
    assert "None"[0] == 'N';
    forall i
      ensures !WritesInteger(PyStr(Null), i)
    {
      if i >= 0 {
        DigitsAreDigits(i);
        assert IsDigit(Digits(i)[0]);
      }
    }
  }

  lemma DatesTaken(cal: Calendar, f: Field, v: Value)
    requires f.ftype.DateType? || f.ftype.DatetimeType?
    ensures CanonTyped(cal, f, v).Ok? <==> TypedTaken(cal, f, v)
    ensures CanonTyped(cal, f, v).Ok? ==> TypedMeans(cal, f, v, PublicValue(f.ftype, CanonTyped(cal, f, v).value))
  {
    hide SafeText, Strip, TextTaken;
    if v.Str? {
      SafeTextMeans(v.s, 32, true);
      SafeTextMeans(v.s, 80, true);
    } else {
      OnlyTexts(v, 32);
      OnlyTexts(v, 80);
    }
  }

  /** A field accepts a value exactly when it should, and what is stored for it shows what it means. */
  lemma FieldIsTaken(cal: Calendar, f: Field, v: Value)
    ensures CanonField(cal, f, v).Ok? <==> FieldTaken(cal, f, v)
    ensures CanonField(cal, f, v).Ok? ==> FieldMeans(cal, f, v, PublicValue(f.ftype, CanonField(cal, f, v).value))
  {
    hide CanonTyped, TypedTaken, TypedMeans;
    TypedIsTaken(cal, f, v);
    if f.default.Some? { TypedIsTaken(cal, f, f.default.value); }
  }

  /** A value means one thing only. */
  lemma TypedMeansOne(cal: Calendar, f: Field, v: Value, a: Value, b: Value)
    requires TypedMeans(cal, f, v, a) && TypedMeans(cal, f, v, b)
    ensures a == b
  {
    hide Strip, Digits, ParseDec, Val, ToFixed, Norm, PyStr;
    if f.ftype.IntegerType? && !v.Int? { OneInteger(if v.Str? then v.s else v.repr, a.i, b.i); }
  }

  lemma OneInteger(s: string, i: int, j: int)
    requires WritesInteger(s, i) && WritesInteger(s, j)
    ensures i == j
  {
    hide Strip, Digits, ParseNat, Span;
    IntegerText(s);
  }

  lemma FieldMeansOne(cal: Calendar, f: Field, v: Value, a: Value, b: Value)
    requires FieldMeans(cal, f, v, a) && FieldMeans(cal, f, v, b)
    ensures a == b
  {
    hide TypedMeans;
    if v != Null && v != Str("") {
      TypedMeansOne(cal, f, v, a, b);
    } else if f.default.Some? {
      TypedMeansOne(cal, f, f.default.value, a, b);
    }
  }

  // ---------------------------------------------------------------- what is stored

  /** The text that a type stores for a value, as it stands in the file. */
  predicate TypedStores(cal: Calendar, f: Field, v: Value, text: string) {
    match f.ftype
    case BooleanType => v.Bool? && text == (if v.b then "true" else "false")
    case IntegerType => (v.Int? ==> v.i >= 0 && text == Digits(v.i)) && Unsigned(Strip(PyStr(v))) == text
    case TextType => (v.Str? ==> text == Strip(v.s)) && (v.Null? ==> text == "")
    case EnumType => v.Str? && text == Strip(v.s)
    case DateType => v.Str? && cal.date(Strip(v.s)) == Some(text)
    case DatetimeType => v.Str? && cal.datetime(Strip(v.s)) == Some(text)
    case DecimalType => NumberInText(text).Some? && NumberInText(text) == NumberOf(v) && Strip(text) == text
  }

  predicate FieldStores(cal: Calendar, f: Field, v: Value, text: string) {
    if v != Null && v != Str("") then TypedStores(cal, f, v, text)
    else
      match f.default
      case None => text == ""
      case Some(w) => TypedStores(cal, f, w, text)
  }

  lemma TypedIsStored(cal: Calendar, f: Field, v: Value)
    requires CanonTyped(cal, f, v).Ok?
    ensures TypedStores(cal, f, v, CanonTyped(cal, f, v).value)
  {
    match f.ftype {
      case TextType =>
        hide SafeText, Strip;
        NothingStripped();
        if v.Str? { SafeTextMeans(v.s, 4096, false); }
        if v.Null? { NullIsEmpty(); }
      case DecimalType =>
        hide CanonNumber, ParseDec, Strip, PyStr, Val, ToFixed, Norm;
        CanonNumberMeans(v);
      case IntegerType =>
        hide ParseNat, Digits, Strip, Span;
        IntegerMeans(v);
      case BooleanType =>
      case DateType => DateStored(v, 32);
      case DatetimeType => DateStored(v, 80);
      case EnumType => DateStored(v, 256);
    }
  }

  lemma NullIsEmpty()
    ensures SafeText(Null, 4096, false) == Ok("")
  {
  }

  lemma DateStored(v: Value, maximum: nat)
    ensures SafeText(v, maximum, true).Ok? ==> v.Str? && SafeText(v, maximum, true).value == Strip(v.s)
  {
    hide Strip;
  }

  /** The stored text of an accepted value. */
  lemma FieldIsStored(cal: Calendar, f: Field, v: Value)
    requires CanonField(cal, f, v).Ok?
    ensures FieldStores(cal, f, v, CanonField(cal, f, v).value)
  {
    hide CanonTyped, TypedStores;
    if v != Null && v != Str("") {
      TypedIsStored(cal, f, v);
    } else if f.default.Some? {
      TypedIsStored(cal, f, f.default.value);
    }
  }
}
