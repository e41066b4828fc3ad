/** The E.164 canonicaliser. Which non-ASCII characters Unicode calls numeric, and
    which characters it calls white space, are parameters: the tables are not part of
    this model, only what the code relies on. */
module Phone {
  import opened Vocabulary

  /** The two Unicode tables. Neither calls a phone character white space. */
  datatype Unicode = Unicode(isNumeric: char -> bool, isSpace: char -> bool) {
    ghost predicate Sane() {
      forall c :: IsDigit(c) || c == '+' || c == '(' || c == ')' ==> !isSpace(c)
    }
  }

  predicate IsDigit(c: char) { '0' <= c <= '9' }

  predicate IsAscii(c: char) { c < '\U{80}' }

  predicate AllDigits(s: string) { forall i :: 0 <= i < |s| ==> IsDigit(s[i]) }

  // ----- the pieces -----------------------------------------------------------

  /** `\D+` stripped. */
  function Digits(s: string): (d: string)
    ensures AllDigits(d) && |d| <= |s|
  {
    if s == "" then "" else (if IsDigit(s[0]) then [s[0]] else "") + Digits(s[1..])
  }

  function StripLeft(s: string, isSpace: char -> bool): string {
    if s != "" && isSpace(s[0]) then StripLeft(s[1..], isSpace) else s
  }

  function StripRight(s: string, isSpace: char -> bool): string {
    if s != "" && isSpace(s[|s| - 1]) then StripRight(s[..|s| - 1], isSpace) else s
  }

  function Strip(s: string, isSpace: char -> bool): string {
    StripRight(StripLeft(s, isSpace), isSpace)
  }

  /** `_contains_non_ascii_digit` */
  predicate ContainsNonAsciiDigit(s: string, u: Unicode) {
    exists i :: 0 <= i < |s| && u.isNumeric(s[i]) && !IsAscii(s[i])
  }

  /** Area code and exchange start 2-9 and neither is a service code. */
  predicate IsPlausibleNanp(d: string) {
    && |d| == 10 && AllDigits(d)
    && '2' <= d[0] && d[1..3] != "11"
    && '2' <= d[3] && d[4..6] != "11"
  }

  /** The separator class around the (0), character by character: ASCII blanks and the
      hyphen, the Unicode spaces and dashes, and the invisible format characters. */
  predicate IsSeparator(c: char) {
    || c == ' ' || c == '\t' || c == '\n' || c == '\r' || c == '-'
    || c == '\U{A0}' || c == '\U{1680}' || '\U{2000}' <= c <= '\U{200A}' || c == '\U{202F}' || c == '\U{205F}' || c == '\U{3000}'
    || c == '\U{AD}' || c == '\U{200B}' || c == '\U{2060}' || c == '\U{FEFF}' || c == '\U{200E}' || c == '\U{200F}'
    || '\U{2010}' <= c <= '\U{2015}' || c == '\U{2212}' || c == '\U{FF0D}'
  }

  /** Countries whose trunk zero is dropped when dialled from abroad. */
  predicate DropsTrunkZero(country: string) {
    country in {
      "44", "49", "33", "31", "32", "41", "43", "45", "46", "47", "48", "351", "353", "61", "64", "27", "91", "81", "86",
      "7", "20", "30", "36", "40", "420", "421"
    }
  }

  predicate AllSeparators(s: string) { forall i :: 0 <= i < |s| ==> IsSeparator(s[i]) }

  function DigitRun(s: string): (r: string)
    ensures r <= s && AllDigits(r)
    ensures |r| < |s| ==> !IsDigit(s[|r|])
  {
    if s != "" && IsDigit(s[0]) then [s[0]] + DigitRun(s[1..]) else ""
  }

  function SkipSeparators(s: string): (r: string)
    ensures |r| <= |s| && r == s[|s| - |r|..] && AllSeparators(s[..|s| - |r|])
    ensures r != "" ==> !IsSeparator(r[0])
  {
    if s != "" && IsSeparator(s[0]) then SkipSeparators(s[1..]) else s
  }

  /** The trunk-zero pattern, anchored at the start: a plus, a country code of one to
      three digits, separators, a literal (0), separators. */
  datatype Trunk = NoTrunk | Trunk(country: string, rest: string)

  function TrunkZero(v: string): Trunk {
    if v == "" || v[0] != '+' then NoTrunk
    else
      var country := DigitRun(v[1..]);
      var after := SkipSeparators(v[1 + |country|..]);
      if 1 <= |country| <= 3 && "(0)" <= after then Trunk(country, SkipSeparators(after[3..])) else NoTrunk
  }

  /** `_drop_parenthesized_trunk_zero` */
  function DropTrunkZero(v: string): string {
    match TrunkZero(v)
    case NoTrunk => v
    case Trunk(country, rest) => if DropsTrunkZero(country) then "+" + country + rest else v
  }

  /** What a plus-prefixed value with these digits comes to. */
  function International(digits: string): Option<string> {
    if digits != "" && digits[0] == '1' then
      if |digits| == 11 && IsPlausibleNanp(digits[1..]) then Some("+" + digits) else None
    else if 8 <= |digits| <= 15 then Some("+" + digits)
    else None
  }

  function Bare(digits: string): Option<string> {
    if |digits| == 10 && IsPlausibleNanp(digits) then Some("+1" + digits)
    else if |digits| == 11 && digits[0] == '1' && IsPlausibleNanp(digits[1..]) then Some("+" + digits)
    else None
  }

  /** `to_e164` */
  function ToE164(raw: string, u: Unicode): Option<string> {
    if ContainsNonAsciiDigit(raw, u) then None
    else
      var trimmed := Strip(raw, u.isSpace);
      if "+" <= trimmed then International(Digits(DropTrunkZero(trimmed)))
      else Bare(Digits(trimmed))
  }

  // ----- the image is the set of fixed points ------------------------------------

  /** E.164 as this code means it: +1 and a plausible NANP number, or a plus and 8 to
      15 digits (clause 6 of ITU-T E.164) that do not start with 1. */
  predicate Canonical(s: string) {
    && "+" <= s && AllDigits(s[1..])
    && (if |s| > 1 && s[1] == '1' then |s| == 12 && IsPlausibleNanp(s[2..]) else 8 <= |s| - 1 <= 15)
  }

  lemma InternationalIsCanonical(d: string)
    requires AllDigits(d)
    ensures International(d).Some? ==> Canonical(International(d).value)
  {
    var s := "+" + d;
    assert s[1..] == d;
    if |d| > 0 { assert s[2..] == d[1..]; }
    hide IsPlausibleNanp;
  }

  lemma BareIsCanonical(d: string)
    requires AllDigits(d)
    ensures Bare(d).Some? ==> Canonical(Bare(d).value)
  {
    var s := "+1" + d;
    assert s[1..] == "1" + d && s[2..] == d;
    InternationalIsCanonical(d);
    hide IsPlausibleNanp;
  }

  lemma ImageIsCanonical(raw: string, u: Unicode)
    ensures ToE164(raw, u).Some? ==> Canonical(ToE164(raw, u).value)
  {
    var trimmed := Strip(raw, u.isSpace);
    InternationalIsCanonical(Digits(DropTrunkZero(trimmed)));
    BareIsCanonical(Digits(trimmed));
    hide International, Bare, Canonical, Strip, DropTrunkZero, Digits;
  }

  lemma {:induction false} DigitsOfDigits(s: string)
    requires AllDigits(s)
    ensures Digits(s) == s
  {
    if s != "" {
      DigitsOfDigits(s[1..]);
      assert s == [s[0]] + s[1..];
    }
  }

  lemma {:induction false} DigitsConcat(a: string, b: string)
    ensures Digits(a + b) == Digits(a) + Digits(b)
  {
    if a == "" {
      assert a + b == b;
    } else {
      assert (a + b)[1..] == a[1..] + b;
      DigitsConcat(a[1..], b);
    }
  }

  lemma PlainIsTrimmed(s: string, u: Unicode)
    requires u.Sane() && s != "" && (IsDigit(s[0]) || s[0] == '+') && IsDigit(s[|s| - 1])
    ensures Strip(s, u.isSpace) == s
  {
  }

  lemma PlainHasNoTrunk(s: string)
    requires AllDigits(s)
    ensures TrunkZero("+" + s) == NoTrunk && DropTrunkZero("+" + s) == "+" + s
  {
    var v := "+" + s;
    assert v[1..] == s;
    var country := DigitRun(s);
    assert s + "" == s;
    RunThenOther(s, "");
    assert v[1 + |country|..] == "";
  }

  lemma PlusDigits(s: string)
    requires AllDigits(s)
    ensures Digits("+" + s) == s
  {
    DigitsConcat("+", s);
    DigitsOfDigits(s);
    assert Digits("+") == "";
  }

  lemma AsciiIsKept(s: string, u: Unicode)
    requires forall i :: 0 <= i < |s| ==> IsDigit(s[i]) || s[i] == '+'
    ensures !ContainsNonAsciiDigit(s, u)
  {
  }

  /** What a plus and nothing but digits comes to. */
  lemma PlainInternational(d: string, u: Unicode)
    requires u.Sane() && AllDigits(d) && d != ""
    ensures ToE164("+" + d, u) == International(d)
  {
    AsciiIsKept("+" + d, u);
    PlainIsTrimmed("+" + d, u);
    PlainHasNoTrunk(d);
    PlusDigits(d);
  }

  /** Canonical numbers are left alone. */
  lemma CanonicalIsFixed(s: string, u: Unicode)
    requires u.Sane() && Canonical(s)
    ensures ToE164(s, u) == Some(s)
  {
    assert s == "+" + s[1..];
    PlainInternational(s[1..], u);
    if s[1] == '1' { assert s[1..][1..] == s[2..]; }
  }

  /** A string is a fixed point exactly when it is canonical, exactly when it is the
      canonical form of something; so canonicalising twice is canonicalising once. */
  lemma FixedPointsAreTheImage(s: string, u: Unicode)
    requires u.Sane()
    ensures ToE164(s, u) == Some(s) <==> Canonical(s)
    ensures Canonical(s) <==> exists raw :: ToE164(raw, u) == Some(s)
    ensures ToE164(s, u).Some? ==> ToE164(ToE164(s, u).value, u) == ToE164(s, u)
  {
    ImageIsCanonical(s, u);
    if Canonical(s) { CanonicalIsFixed(s, u); }
    if ToE164(s, u).Some? { CanonicalIsFixed(ToE164(s, u).value, u); }
    if raw :| ToE164(raw, u) == Some(s) { ImageIsCanonical(raw, u); }
  }

  // ----- the three spellings of a NANP number -------------------------------------

  /** Ten digits, the same with a leading 1, and with a leading +1, agree. */
  lemma NanpFormsAgree(d: string, u: Unicode)
    requires u.Sane() && AllDigits(d) && |d| == 10
    ensures ToE164(d, u) == ToE164("1" + d, u) == ToE164("+1" + d, u)
    ensures ToE164(d, u) ==
              if '2' <= d[0] && d[1..3] != "11" && '2' <= d[3] && d[4..6] != "11" then Some("+1" + d) else None
  {
    AsciiIsKept(d, u);
    PlainIsTrimmed(d, u);
    DigitsOfDigits(d);
    AsciiIsKept("1" + d, u);
    PlainIsTrimmed("1" + d, u);
    DigitsOfDigits("1" + d);
    assert ("1" + d)[1..] == d && "+" + ("1" + d) == "+1" + d;
    PlainInternational("1" + d, u);
  }

  // ----- the parenthesised trunk zero ---------------------------------------------

  lemma {:induction false} SeparatorsHaveNoDigits(s: string)
    requires AllSeparators(s)
    ensures Digits(s) == ""
  {
    if s != "" {
      SeparatorsHaveNoDigits(s[1..]);
    }
  }

  lemma {:induction false} SkipKeepsDigits(s: string)
    ensures Digits(SkipSeparators(s)) == Digits(s)
  {
    var r := SkipSeparators(s);
    SeparatorsHaveNoDigits(s[..|s| - |r|]);
    DigitsConcat(s[..|s| - |r|], r);
    assert s == s[..|s| - |r|] + r;
  }

  lemma SplitPrefix(s: string, p: string) returns (rest: string)
    requires p <= s
    ensures rest == s[|p|..] && s == p + rest
  {
    rest := s[|p|..];
  }

  lemma SkipSplit(s: string) returns (seps: string, rest: string)
    ensures rest == SkipSeparators(s) && AllSeparators(seps) && s == seps + rest
  {
    hide IsSeparator, AllSeparators, SkipSeparators;
    rest := SkipSeparators(s);
    seps := s[..|s| - |rest|];
  }

  lemma SilentPrefix(silent: string, s: string)
    requires Digits(silent) == ""
    ensures Digits(silent + s) == Digits(s)
  {
    DigitsConcat(silent, s);
  }

  /** The digits after the country code, when what follows is separators and (0). */
  lemma AfterCountry(w: string, after: string)
    requires after == SkipSeparators(w) && "(0)" <= after
    ensures Digits(w) == "0" + Digits(SkipSeparators(after[3..]))
  {
    hide IsSeparator, IsDigit;
    var seps, rest := SkipSplit(w);
    SeparatorsHaveNoDigits(seps);
    SilentPrefix(seps, rest);
    var tail := SplitPrefix(after, "(0)");
    DigitsConcat("(0)", tail);
    LiteralZero();
    SkipKeepsDigits(tail);
    hide Digits, SkipSeparators;
  }

  lemma CountryDigits(digits: string, w: string)
    requires digits == DigitRun(digits) + w
    ensures Digits("+" + digits) == DigitRun(digits) + Digits(w)
  {
    assert Digits("+") == "";
    hide IsDigit, DigitRun;
    SilentPrefix("+", digits);
    DigitsOfDigits(DigitRun(digits));
    DigitsConcat(DigitRun(digits), w);
    hide Digits;
  }

  lemma TrunkZeroDigits(v: string)
    requires TrunkZero(v).Trunk?
    ensures Digits(v) == TrunkZero(v).country + ("0" + Digits(TrunkZero(v).rest))
  {
    hide IsSeparator, IsDigit, DigitRun, SkipSeparators, Digits;
    var digits := SplitPrefix(v, "+");
    var w := SplitPrefix(digits, DigitRun(digits));
    assert w == v[1 + |DigitRun(v[1..])|..];
    CountryDigits(digits, w);
    AfterCountry(w, SkipSeparators(w));
  }

  /** For every plus-prefixed value: the digits that count are the value's digits, except
      that a matched trunk zero of a listed country is left out right behind the
      country code. An unlisted country keeps it. */
  lemma TrunkZeroDropped(v: string)
    requires "+" <= v
    ensures match TrunkZero(v)
            case NoTrunk => Digits(DropTrunkZero(v)) == Digits(v)
            case Trunk(country, rest) =>
              && Digits(v) == country + ("0" + Digits(rest))
              && Digits(DropTrunkZero(v)) == if DropsTrunkZero(country) then country + Digits(rest) else Digits(v)
  {
    hide DropsTrunkZero, IsSeparator, IsDigit;
    if TrunkZero(v).Trunk? {
      var country, rest := TrunkZero(v).country, TrunkZero(v).rest;
      TrunkZeroDigits(v);
      assert AllDigits(country);
      PlusDigits(country);
      DigitsConcat("+" + country, rest);
      hide Digits, TrunkZero, SkipSeparators;
    }
  }

  lemma LiteralZero()
    ensures Digits("(0)") == "0"
  {
    assert "(0)"[1..] == "0)" && "0)"[1..] == ")" && ")"[1..] == "";
  }

  lemma {:induction false} RunThenOther(run: string, tail: string)
    requires AllDigits(run) && (tail != "" ==> !IsDigit(tail[0]))
    ensures DigitRun(run + tail) == run
  {
    if run == "" {
      assert run + tail == tail;
    } else {
      assert (run + tail)[1..] == run[1..] + tail;
      RunThenOther(run[1..], tail);
    }
  }

  lemma {:induction false} SkipExactly(seps: string, tail: string)
    requires AllSeparators(seps) && (tail != "" ==> !IsSeparator(tail[0]))
    ensures SkipSeparators(seps + tail) == tail
  {
    if seps == "" {
      assert seps + tail == tail;
    } else {
      assert (seps + tail)[1..] == seps[1..] + tail;
      SkipExactly(seps[1..], tail);
    }
  }

  lemma RestStartsWithoutDigit(before: string, tail: string)
    requires AllSeparators(before) && tail != "" && !IsDigit(tail[0])
    ensures !IsDigit((before + tail)[0])
  {
    if before != "" { assert IsSeparator(before[0]); }
  }

  /** The parts of a plus-prefixed value, as the pattern reads them. */
  lemma ReadAsWritten(country: string, before: string, tail: string)
    requires AllDigits(country) && AllSeparators(before)
    ensures var written := country + (before + ("(0)" + tail));
            && DigitRun(written) == country
            && SkipSeparators(written[|country|..]) == "(0)" + tail
  {
    var w := "(0)" + tail;
    assert w[0] == '(' && !IsSeparator('(') && !IsDigit('(');
    RestStartsWithoutDigit(before, w);
    RunThenOther(country, before + w);
    SkipExactly(before, w);
    hide DigitRun, SkipSeparators, IsSeparator, IsDigit;
    assert (country + (before + w))[|country|..] == before + w;
  }

  lemma AsWritten(country: string, before: string, tail: string) returns (v: string)
    ensures v == "+" + country + before + "(0)" + tail && "+" <= v
    ensures var written := country + (before + ("(0)" + tail));
            v[1..] == written && v[1 + |country|..] == written[|country|..]
    ensures ("(0)" + tail)[3..] == tail
  {
    v := "+" + (country + (before + ("(0)" + tail)));
    assert v == "+" + country + before + "(0)" + tail;
  }

  lemma TrunkZeroRead(v: string, country: string, after: string)
    requires v != "" && v[0] == '+' && 1 <= |country| <= 3 && 3 <= |after| && "(0)" <= after
    requires DigitRun(v[1..]) == country && SkipSeparators(v[1 + |country|..]) == after
    ensures TrunkZero(v) == Trunk(country, SkipSeparators(after[3..]))
  {
    hide DigitRun, SkipSeparators, IsSeparator, IsDigit, AllDigits, AllSeparators;
    assert SkipSeparators(v[1 + |DigitRun(v[1..])|..]) == after;
  }

  /** And the pattern matches exactly as written: a country code of one to three
      digits, any separators, a literal (0), any separators, any tail. */
  lemma TrunkZeroMatches(country: string, before: string, tail: string)
    requires AllDigits(country) && 1 <= |country| <= 3 && AllSeparators(before)
    ensures TrunkZero("+" + country + before + "(0)" + tail) == Trunk(country, SkipSeparators(tail))
  {
    hide DigitRun, SkipSeparators, TrunkZero, AllDigits, AllSeparators;
    var v := AsWritten(country, before, tail);
    ReadAsWritten(country, before, tail);
    TrunkZeroRead(v, country, "(0)" + tail);
  }

  lemma {:induction false} StripRightKeeps(s: string, u: Unicode, tail: string)
    requires s != "" && !u.isSpace(s[|s| - 1])
    ensures s <= StripRight(s + tail, u.isSpace)
    ensures StripRight(s + tail, u.isSpace) == s + StripRight(s + tail, u.isSpace)[|s|..]
  {
    if tail == "" {
      assert s + tail == s;
    } else {
      assert (s + tail)[|s + tail| - 1] == tail[|tail| - 1];
      assert (s + tail)[..|s + tail| - 1] == s + tail[..|tail| - 1];
      StripRightKeeps(s, u, tail[..|tail| - 1]);
    }
  }

  lemma {:induction false} StripRightDigits(s: string, u: Unicode)
    requires u.Sane()
    ensures Digits(StripRight(s, u.isSpace)) == Digits(s)
  {
    if s != "" && u.isSpace(s[|s| - 1]) {
      StripRightDigits(s[..|s| - 1], u);
      DigitsConcat(s[..|s| - 1], [s[|s| - 1]]);
      assert s == s[..|s| - 1] + [s[|s| - 1]];
    }
  }

  lemma TrimmedWritten(head: string, tail: string, u: Unicode) returns (left: string)
    requires u.Sane() && "+" <= head && head[|head| - 1] == ')'
    ensures Strip(head + tail, u.isSpace) == head + left && Digits(left) == Digits(tail)
  {
    var v := head + tail;
    assert v[0] == '+' && !u.isSpace('+') && !u.isSpace(')');
    assert StripLeft(v, u.isSpace) == v;
    StripRightKeeps(head, u, tail);
    StripRightDigits(v, u);
    hide StripLeft, StripRight, IsDigit;
    left := Strip(v, u.isSpace)[|head|..];
    DigitsConcat(head, tail);
    DigitsConcat(head, left);
    hide Digits;
    assert Digits(head) + Digits(left) == Digits(head) + Digits(tail);
    SameTail(Digits(head), Digits(left), Digits(tail));
  }

  lemma SameTail(a: string, b: string, c: string)
    requires a + b == a + c
    ensures b == c
  {
    assert b == (a + b)[|a|..] && c == (a + c)[|a|..];
  }

  /** The whole canonicaliser on a number written with a trunk zero: the zero is dropped
      if and only if the country is listed, and otherwise is one more digit. */
  lemma WrittenWithTrunkZero(country: string, before: string, tail: string, u: Unicode)
    requires u.Sane() && AllDigits(country) && 1 <= |country| <= 3 && AllSeparators(before)
    requires !ContainsNonAsciiDigit("+" + country + before + "(0)" + tail, u)
    ensures ToE164("+" + country + before + "(0)" + tail, u)
              == International(if DropsTrunkZero(country) then country + Digits(tail) else country + ("0" + Digits(tail)))
  {
    hide DropsTrunkZero, IsSeparator, Strip, StripLeft, StripRight, International;
    var head := "+" + country + before + "(0)";
    var left := TrimmedWritten(head, tail, u);
    TrunkZeroMatches(country, before, left);
    TrunkZeroDropped(head + left);
    SkipKeepsDigits(left);
    hide Digits, TrunkZero, SkipSeparators, DropTrunkZero, DigitRun;
  }

  /** As it is written in Britain, where the zero is not dialled from abroad. */
  lemma BritishZeroIsDropped(tail: string, u: Unicode)
    requires u.Sane() && !ContainsNonAsciiDigit("+44 (0)" + tail, u) && 6 <= |Digits(tail)| <= 13
    ensures ToE164("+44 (0)" + tail, u) == Some("+44" + Digits(tail))
  {
    hide Digits, ToE164, ContainsNonAsciiDigit;
    assert "+" + "44" + " " + "(0)" + tail == "+44 (0)" + tail;
    assert "+" + ("44" + Digits(tail)) == "+44" + Digits(tail);
    WrittenWithTrunkZero("44", " ", tail, u);
  }

  /** And in Italy, where it is. */
  lemma ItalianZeroIsKept(tail: string, u: Unicode)
    requires u.Sane() && !ContainsNonAsciiDigit("+39 (0)" + tail, u) && 5 <= |Digits(tail)| <= 12
    ensures ToE164("+39 (0)" + tail, u) == Some("+390" + Digits(tail))
  {
    hide Digits, ToE164, ContainsNonAsciiDigit;
    assert "+" + "39" + " " + "(0)" + tail == "+39 (0)" + tail;
    assert "+" + ("39" + ("0" + Digits(tail))) == "+390" + Digits(tail);
    WrittenWithTrunkZero("39", " ", tail, u);
  }

  lemma {:induction false} StripLeftDigits(s: string, u: Unicode)
    requires u.Sane()
    ensures Digits(StripLeft(s, u.isSpace)) == Digits(s)
  {
    if s != "" && u.isSpace(s[0]) { StripLeftDigits(s[1..], u); }
  }

  lemma StripDigits(s: string, u: Unicode)
    requires u.Sane()
    ensures Digits(Strip(s, u.isSpace)) == Digits(s)
  {
    StripLeftDigits(s, u);
    StripRightDigits(StripLeft(s, u.isSpace), u);
    hide Digits, StripLeft, StripRight;
  }

  lemma BareDigits(d: string, u: Unicode)
    requires u.Sane() && AllDigits(d)
    ensures ToE164(d, u) == Bare(d)
  {
    AsciiIsKept(d, u);
    DigitsOfDigits(d);
    if d != "" { PlainIsTrimmed(d, u); }
    hide Bare, International;
  }

  /** However a number is punctuated, only its digits and a leading plus matter, unless a
      trunk zero is written out; a number with digits of another script is refused. */
  lemma PunctuationIsIgnored(raw: string, u: Unicode)
    requires u.Sane()
    ensures ContainsNonAsciiDigit(raw, u) ==> ToE164(raw, u) == None
    ensures !ContainsNonAsciiDigit(raw, u) ==>
              var trimmed := Strip(raw, u.isSpace);
              && (!("+" <= trimmed) ==> ToE164(raw, u) == ToE164(Digits(raw), u))
              && ("+" <= trimmed && TrunkZero(trimmed).NoTrunk? && Digits(raw) != "" ==>
                    ToE164(raw, u) == ToE164("+" + Digits(raw), u))
  {
    StripDigits(raw, u);
    BareDigits(Digits(raw), u);
    if Digits(raw) != "" { PlainInternational(Digits(raw), u); }
    hide Digits, Strip, TrunkZero, Bare, International, ContainsNonAsciiDigit;
  }
}
