/** Helpers that scrub the language model's noisy replies before they are
    parsed: the code-fence cleaner, the greedy JSON-object span, the
    per-phase duration digit filter with its zero fallback, and the
    bracketed-array span of the predictions page. The JSON parser itself is
    an oracle `loads` that either yields a value or fails. */
module Scrub {
  import opened Wrappers
  import opened Text

  // ---------------------------------------------------------------------
  // clean_json_string

  /** clean_json_string: strip, drop one leading "```json" and one trailing
      "```", strip again. */
  function CleanJsonString(raw: string): (r: string)
    ensures |r| <= |raw|
  {
    Strip(RemoveSuffix(RemovePrefix(Strip(raw), "```json"), "```"))
  }

  /** The cleaned text never has whitespace at either end. */
  lemma CleanJsonTrimmed(raw: string)
    ensures Trimmed(CleanJsonString(raw))
  {
    StripShape(RemoveSuffix(RemovePrefix(Strip(raw), "```json"), "```"));
  }

  /** A reply without fences is only trimmed. */
  lemma CleanUnfenced(raw: string)
    requires !StartsWith(Strip(raw), "```json") && !EndsWith(Strip(raw), "```")
    ensures CleanJsonString(raw) == Strip(raw)
  {
    StripIdempotent(raw);
  }

  /** A body wrapped in a ```json fence comes back as the trimmed body. */
  lemma CleanFenced(body: string)
    ensures CleanJsonString("```json" + body + "```") == Strip(body)
  {
    var fenced := "```json" + body + "```";
    assert fenced[0] == '`' && fenced[|fenced| - 1] == '`';
    StripTrimmed(fenced);
    assert fenced[..7] == "```json";
    assert RemovePrefix(fenced, "```json") == body + "```";
    assert (body + "```")[|body|..] == "```";
    assert RemoveSuffix(body + "```", "```") == body;
  }

  // ---------------------------------------------------------------------
  // re.search(r"\{.*\}", text, re.DOTALL)

  /** text[a..b] is a match of the pattern \{.*\} with DOTALL: it opens
      with '{' and closes with '}', whatever lies between. */
  predicate SpanMatch(text: string, a: int, b: int)
  {
    0 <= a < b <= |text| && text[a] == '{' && text[b - 1] == '}'
  }

  /** The span the search returns: from the first '{' through the last '}',
      when the last '}' comes after the first '{'. */
  function JsonSpan(text: string): (r: Option<string>)
    ensures r.Some? ==> |r.value| >= 2 && r.value[0] == '{' && r.value[|r.value| - 1] == '}'
  {
    var i, j := Find(text, '{'), RFind(text, '}');
    if 0 <= i < j then Some(text[i..j + 1]) else None
  }

  /** JsonSpan is what the regular-expression search returns: there is a
      match exactly when JsonSpan finds one, and then it is the leftmost
      match, extended as far as the greedy .* allows. */
  lemma JsonSpanIsSearch(text: string)
    ensures JsonSpan(text).Some? <==> exists a, b :: SpanMatch(text, a, b)
    ensures JsonSpan(text).Some? ==>
      exists a, b :: SpanMatch(text, a, b) && JsonSpan(text).value == text[a..b]
        && forall a', b' :: SpanMatch(text, a', b') ==> a <= a' && (a' == a ==> b' <= b)
  {
    var i, j := Find(text, '{'), RFind(text, '}');
    forall a, b | SpanMatch(text, a, b)
      ensures 0 <= i <= a && b - 1 <= j
    {
      assert text[a] == '{' && text[b - 1] == '}';
    }
    if 0 <= i < j {
      assert SpanMatch(text, i, j + 1);
    }
  }

  /** The duration values as read from the reply: JSON values whose text is
      a string, and those that are not strings (numbers, null, booleans). */
  datatype DurationValue = Text(s: string) | NonText

  /** Reading ai_durations from the stripped reply: no match gives the empty
      map; a match the JSON parser rejects is an error that ends the run. */
  function ReadDurations(reply: string, loads: string -> Option<map<string, DurationValue>>)
    : (r: Result<map<string, DurationValue>, string>)
    ensures JsonSpan(Strip(reply)).None? ==> r == Success(map[])
    ensures r.Failure? <==> JsonSpan(Strip(reply)).Some? && loads(JsonSpan(Strip(reply)).value).None?
    ensures r.Success? && JsonSpan(Strip(reply)).Some? ==> r.value == loads(JsonSpan(Strip(reply)).value).value
  {
    match JsonSpan(Strip(reply))
    case None => Success(map[])
    case Some(span) =>
      match loads(span)
      case None => Failure(span)
      case Some(durations) => Success(durations)
  }

  // ---------------------------------------------------------------------
  // The duration digit filter

  /** c.isdigit() or c == "." (ASCII digits). */
  predicate IsNumericChar(c: char)
  {
    ('0' <= c <= '9') || c == '.'
  }

  predicate IsDigit(c: char)
  {
    '0' <= c <= '9'
  }

  /** "".join(c for c in raw if c.isdigit() or c == "."). */
  function KeepNumeric(s: string): (r: string)
    ensures |r| <= |s|
    ensures forall i :: 0 <= i < |r| ==> IsNumericChar(r[i])
  {
    if s == [] then []
    else if IsNumericChar(s[0]) then [s[0]] + KeepNumeric(s[1..])
    else KeepNumeric(s[1..])
  }

  /** The filter works character by character, so it distributes over
      concatenation. */
  lemma {:induction false} KeepNumericConcat(a: string, b: string)
    ensures KeepNumeric(a + b) == KeepNumeric(a) + KeepNumeric(b)
  {
    if a != [] {
      assert (a + b)[0] == a[0];
      assert (a + b)[1..] == a[1..] + b;
      KeepNumericConcat(a[1..], b);
    } else {
      assert a + b == b;
    }
  }

  /** Text made only of digits and dots passes unchanged; in particular the
      filter is idempotent. */
  lemma {:induction false} KeepNumericKeeps(s: string)
    requires forall i :: 0 <= i < |s| ==> IsNumericChar(s[i])
    ensures KeepNumeric(s) == s
  {
    if s != [] {
      KeepNumericKeeps(s[1..]);
    }
  }

  /** Text without digits and dots filters to nothing. */
  lemma {:induction false} KeepNumericDrops(s: string)
    requires forall i :: 0 <= i < |s| ==> !IsNumericChar(s[i])
    ensures KeepNumeric(s) == []
  {
    if s != [] {
      KeepNumericDrops(s[1..]);
    }
  }

  function DigitValue(c: char): nat
    requires IsDigit(c)
  {
    (c as int - '0' as int) as nat
  }

  /** The value of a string of decimal digits ("" is 0). */
  function DigitsValue(s: string): nat
    requires forall i :: 0 <= i < |s| ==> IsDigit(s[i])
  {
    if s == [] then 0 else 10 * DigitsValue(s[..|s| - 1]) + DigitValue(s[|s| - 1])
  }

  function Pow10(n: nat): (p: nat)
    ensures p >= 1
  {
    if n == 0 then 1 else 10 * Pow10(n - 1)
  }

  /** Digits and dots without a dot are digits. */
  lemma NoDotDigits(s: string)
    requires forall i :: 0 <= i < |s| ==> IsNumericChar(s[i])
    requires '.' !in s
    ensures forall i :: 0 <= i < |s| ==> IsDigit(s[i])
  {
    forall i | 0 <= i < |s|
      ensures IsDigit(s[i])
    {
      assert s[i] in s;
    }
  }

  /** The strings of digits and dots that float() accepts: no dot and at
      least one digit, or one dot with a digit on at least one side. */
  predicate FloatSyntax(s: string)
  {
    var d := Find(s, '.');
    if d == -1 then s != "" else '.' !in s[d + 1..] && s != "."
  }

  /** The value float() gives: the digits before the dot are the whole part,
      those after it the fraction. */
  function FloatValue(s: string): (v: real)
    requires forall i :: 0 <= i < |s| ==> IsNumericChar(s[i])
    requires FloatSyntax(s)
    ensures v >= 0.0
  {
    var d := Find(s, '.');
    if d == -1 then
      NoDotDigits(s);
      DigitsValue(s) as real
    else
      var whole, frac := s[..d], s[d + 1..];
      NoDotDigits(whole);
      NoDotDigits(frac);
      DigitsValue(whole) as real + DigitsValue(frac) as real / Pow10(|frac|) as real
  }

  /** float() on a string of digits and dots; None stands for the
      ValueError it raises on a malformed number. */
  function ParseFloat(s: string): (r: Option<real>)
    requires forall i :: 0 <= i < |s| ==> IsNumericChar(s[i])
    ensures r.Some? <==> FloatSyntax(s)
    ensures r.Some? ==> r.value >= 0.0
  {
    if FloatSyntax(s) then Some(FloatValue(s)) else None
  }

  /** float() accepts exactly the strings with at most one dot and at least
      one digit ("5", "5.", ".5", "5.25"). */
  lemma ParseFloatAccepts(s: string)
    ensures FloatSyntax(s) <==> Count(s, '.') <= 1 && s != "" && s != "."
  {
    if Find(s, '.') == -1 {
      AcceptsWithoutDot(s);
    } else {
      AcceptsWithDot(s);
    }
  }

  lemma AcceptsWithoutDot(s: string)
    requires Find(s, '.') == -1
    ensures FloatSyntax(s) <==> Count(s, '.') <= 1 && s != "" && s != "."
  {
    CountAbsent(s, '.');
  }

  lemma AcceptsWithDot(s: string)
    requires Find(s, '.') >= 0
    ensures FloatSyntax(s) <==> Count(s, '.') <= 1 && s != "" && s != "."
  {
    var d := Find(s, '.');
    var frac := s[d + 1..];
    CountAround(s, d);
    if '.' in frac {
      CountPositive(frac, '.');
    } else {
      CountAbsent(frac, '.');
    }
  }

  lemma {:induction false} CountAbsent(s: string, c: char)
    requires c !in s
    ensures Count(s, c) == 0
  {
    if s != [] {
      CountAbsent(s[1..], c);
    }
  }

  lemma {:induction false} CountPositive(s: string, c: char)
    requires c in s
    ensures Count(s, c) >= 1
  {
    if s[0] != c {
      CountPositive(s[1..], c);
    }
  }

  lemma {:induction false} CountConcat(a: string, b: string, c: char)
    ensures Count(a + b, c) == Count(a, c) + Count(b, c)
  {
    if a != [] {
      assert (a + b)[0] == a[0];
      assert (a + b)[1..] == a[1..] + b;
      CountConcat(a[1..], b, c);
    } else {
      assert a + b == b;
    }
  }

  /** Counting around the first occurrence of a character. */
  lemma CountAround(s: string, d: int)
    requires 0 <= d < |s| && s[d] == '.' && '.' !in s[..d]
    ensures Count(s, '.') == 1 + Count(s[d + 1..], '.')
  {
    assert s == s[..d] + ([s[d]] + s[d + 1..]);
    CountConcat(s[..d], [s[d]] + s[d + 1..], '.');
    CountAbsent(s[..d], '.');
  }

  /** The weeks for one phase: the value's digits and dots are kept and
      parsed; no digits, a malformed number, or a value that is not a
      string all give 0. */
  function ParseWeeks(raw: DurationValue): (w: real)
    ensures w >= 0.0
  {
    match raw
    case NonText => 0.0
    case Text(s) =>
      var numeric := KeepNumeric(s);
      if numeric == "" then 0.0
      else
        match ParseFloat(numeric)
        case None => 0.0
        case Some(v) => v
  }

  /** ai_durations.get(phase_code, "0"). */
  function DurationOf(durations: map<string, DurationValue>, code: string): (v: DurationValue)
    ensures code in durations ==> v == durations[code]
    ensures code !in durations ==> v == Text("0")
  {
    if code in durations then durations[code] else Text("0")
  }

  /** A missing phase counts as zero weeks. */
  lemma MissingPhaseIsZero(durations: map<string, DurationValue>, code: string)
    requires code !in durations
    ensures ParseWeeks(DurationOf(durations, code)) == 0.0
  {
    assert KeepNumeric("0") == "0";
    assert Find("0", '.') == -1;
    assert DigitsValue("0") == 0;
  }

  /** A malformed number, such as "1.2.3", falls back to zero. */
  lemma SeveralDotsIsZero(s: string)
    requires Count(KeepNumeric(s), '.') >= 2
    ensures ParseWeeks(Text(s)) == 0.0
  {
    ParseFloatAccepts(KeepNumeric(s));
  }

  /** Decimal digits of a natural number, most significant first. */
  function ShowNat(n: nat): (r: string)
    ensures r != []
    ensures forall i :: 0 <= i < |r| ==> IsDigit(r[i])
  {
    var last := ['0' + (n % 10) as char];
    if n < 10 then last else ShowNat(n / 10) + last
  }

  lemma {:induction false} ShowNatValue(n: nat)
    ensures DigitsValue(ShowNat(n)) == n
  {
    if n >= 10 {
      ShowNatValue(n / 10);
      var r := ShowNat(n);
      assert r[..|r| - 1] == ShowNat(n / 10);
    }
  }

  /** A whole number of weeks written in decimal and followed by any text
      without digits or dots ("12 weeks") reads back as that number. */
  lemma ParseWeeksShowNat(n: nat, suffix: string)
    requires forall i :: 0 <= i < |suffix| ==> !IsNumericChar(suffix[i])
    ensures ParseWeeks(Text(ShowNat(n) + suffix)) == n as real
  {
    var digits := ShowNat(n);
    KeepNumericConcat(digits, suffix);
    KeepNumericKeeps(digits);
    KeepNumericDrops(suffix);
    assert KeepNumeric(digits + suffix) == digits;
    assert Find(digits, '.') == -1;
    ShowNatValue(n);
  }

  /** The value of two digit strings written one after the other. */
  lemma {:induction false} DigitsValueConcat(x: string, y: string)
    requires forall i :: 0 <= i < |x| ==> IsDigit(x[i])
    requires forall i :: 0 <= i < |y| ==> IsDigit(y[i])
    ensures DigitsValue(x + y) == DigitsValue(x) * Pow10(|y|) + DigitsValue(y)
  {
    if y == [] {
      assert x + y == x;
    } else {
      var init := y[..|y| - 1];
      assert (x + y)[..|x + y| - 1] == x + init;
      assert (x + y)[|x + y| - 1] == y[|y| - 1];
      DigitsValueConcat(x, init);
      var a, p, b, d := DigitsValue(x), Pow10(|init|), DigitsValue(init), DigitValue(y[|y| - 1]);
      assert DigitsValue(x + y) == 10 * (a * p + b) + d;
      assert Pow10(|y|) == 10 * p;
      assert DigitsValue(y) == 10 * b + d;
      ShiftDecimal(a, p, b, d);
    }
  }

  /** One more digit multiplies the value so far by ten. */
  lemma ShiftDecimal(a: int, p: int, b: int, d: int)
    ensures 10 * (a * p + b) + d == a * (10 * p) + (10 * b + d)
  {
  }

  /** A range such as "3-4 weeks" is not read as a range: the separator is
      dropped and the two bounds run together, so "3-4 weeks" reads as 34. */
  lemma RangeRunsTogether(x: string, sep: string, y: string, suffix: string)
    requires forall i :: 0 <= i < |x| ==> IsDigit(x[i])
    requires forall i :: 0 <= i < |y| ==> IsDigit(y[i])
    requires forall i :: 0 <= i < |sep| ==> !IsNumericChar(sep[i])
    requires forall i :: 0 <= i < |suffix| ==> !IsNumericChar(suffix[i])
    requires x + y != []
    ensures ParseWeeks(Text(x + sep + y + suffix)) == (DigitsValue(x) * Pow10(|y|) + DigitsValue(y)) as real
  {
    FilterRange(x, sep, y, suffix);
    DigitsWeeks(x + sep + y + suffix, x + y);
    DigitsValueConcat(x, y);
  }

  /** The filter keeps the two runs of digits and drops the rest. */
  lemma FilterRange(x: string, sep: string, y: string, suffix: string)
    requires forall i :: 0 <= i < |x| ==> IsDigit(x[i])
    requires forall i :: 0 <= i < |y| ==> IsDigit(y[i])
    requires forall i :: 0 <= i < |sep| ==> !IsNumericChar(sep[i])
    requires forall i :: 0 <= i < |suffix| ==> !IsNumericChar(suffix[i])
    ensures KeepNumeric(x + sep + y + suffix) == x + y
  {
    FilterKeepsDrops(x, sep);
    FilterKeepsDrops(y, suffix);
    RegroupFour(x, sep, y, suffix);
    KeepNumericConcat(x + sep, y + suffix);
  }

  lemma RegroupFour(a: string, b: string, c: string, d: string)
    ensures a + b + c + d == (a + b) + (c + d)
  {
  }

  /** Digits followed by text without digits or dots filter to the
      digits. */
  lemma FilterKeepsDrops(x: string, rest: string)
    requires forall i :: 0 <= i < |x| ==> IsDigit(x[i])
    requires forall i :: 0 <= i < |rest| ==> !IsNumericChar(rest[i])
    ensures KeepNumeric(x + rest) == x
  {
    KeepNumericConcat(x, rest);
    KeepNumericKeeps(x);
    KeepNumericDrops(rest);
    assert x + [] == x;
  }

  /** Text whose filter leaves a non-empty run of digits is read as the
      decimal value of that run. */
  lemma DigitsWeeks(s: string, digits: string)
    requires forall i :: 0 <= i < |digits| ==> IsDigit(digits[i])
    requires digits != [] && KeepNumeric(s) == digits
    ensures ParseWeeks(Text(s)) == DigitsValue(digits) as real
  {
    assert Find(digits, '.') == -1;
  }

  // ---------------------------------------------------------------------
  // detailed_json[detailed_json.find("["):detailed_json.rfind("]") + 1]

  /** The bracketed span of the predictions page, with Python's slice
      semantics: a missing '[' gives start -1, which a slice reads as the
      last character; a missing ']' gives end 0. */
  function BracketSpan(text: string): (r: string)
    ensures |r| <= |text|
    ensures r != [] ==> r[|r| - 1] == ']'
  {
    PySlice(text, Find(text, '['), RFind(text, ']') + 1)
  }

  /** When the first '[' (at i) comes before the last ']' (at j), the
      span runs from i through j inclusive: it opens with '[' and closes
      with ']' (and by the contracts of Find and RFind, no '[' comes before
      it and no ']' after it). */
  lemma BracketSpanFound(text: string, i: int, j: int)
    requires i == Find(text, '[') && j == RFind(text, ']') && 0 <= i <= j
    ensures var r := BracketSpan(text);
      && r == text[i..j + 1]
      && r[0] == '[' && r[|r| - 1] == ']'
  {
    assert SliceBound(i, |text|) == i && SliceBound(j + 1, |text|) == j + 1;
    var r := text[i..j + 1];
    assert r[0] == text[i] && r[|r| - 1] == text[j];
  }

  /** Without a ']' the span is empty; without a '[' it is at most the last
      character. Either way it holds no array for the parser. */
  lemma BracketSpanMissing(text: string)
    ensures ']' !in text ==> BracketSpan(text) == []
    ensures '[' !in text ==> |BracketSpan(text)| <= 1
  {
  }
}
