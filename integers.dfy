/** Python 2.7's `int()` applied to a string filter value: surrounding
    whitespace is ignored, an optional sign may be followed by more
    whitespace and then one or more decimal digits, and anything else is a
    ValueError (here: `None`). */
module IntegerText {
  import opened Common

  predicate IsSpace(c: char)
  {
    c == ' ' || 9 <= c as int <= 13
  }

  predicate IsDigit(c: char)
  {
    '0' <= c <= '9'
  }

  predicate AllDigits(s: string)
  {
    forall i :: 0 <= i < |s| ==> IsDigit(s[i])
  }

  /** `s` with its leading whitespace removed. */
  function TrimStart(s: string): (r: string)
    ensures |r| <= |s|
    ensures r == [] || !IsSpace(r[0])
  {
    if |s| > 0 && IsSpace(s[0]) then TrimStart(s[1..]) else s
  }

  /** `s` with its trailing whitespace removed. */
  function TrimEnd(s: string): (r: string)
    ensures |r| <= |s|
    ensures r == [] || !IsSpace(r[|r| - 1])
  {
    if |s| > 0 && IsSpace(s[|s| - 1]) then TrimEnd(s[..|s| - 1]) else s
  }

  /** Python's `str.strip()` with no argument. */
  function Strip(s: string): string
  {
    TrimEnd(TrimStart(s))
  }

  /** The value of a string of decimal digits, most significant first. */
  function DigitsValue(s: string): nat
    requires AllDigits(s)
  {
    if s == [] then 0
    else DigitsValue(s[..|s| - 1]) * 10 + (s[|s| - 1] as int - '0' as int)
  }

  /** `int(text)` in the source: `None` stands for the ValueError it raises. */
  function ParseInt(text: string): (r: Option<int>)
    ensures Strip(text) == [] ==> r.None?
    ensures |text| > 0 && AllDigits(text) ==> r == Some(DigitsValue(text))
    ensures |text| > 1 && text[0] == '-' && AllDigits(text[1..]) ==>
      r == Some(-(DigitsValue(text[1..]) as int))
  {
    ParseStripped(Strip(text))
  }

  /** An optional sign, then (after the sign only) any whitespace, then one
      or more decimal digits, and nothing else: the sign is read first and
      the digits after skipping whitespace again. */
  function ParseStripped(t: string): Option<int>
  {
    if |t| > 0 && (t[0] == '+' || t[0] == '-') then
      var digits := TrimStart(t[1..]);
      if |digits| > 0 && AllDigits(digits) then
        var magnitude: int := DigitsValue(digits);
        Some(if t[0] == '-' then -magnitude else magnitude)
      else None
    else if |t| > 0 && AllDigits(t) then Some(DigitsValue(t))
    else None
  }

  function DigitChar(d: nat): (c: char)
    requires d < 10
    ensures IsDigit(c) && c as int - '0' as int == d
  {
    ('0' as int + d) as char
  }

  /** The decimal rendering of a natural number, Python's `str(n)`. */
  function ShowNat(n: nat): (r: string)
    ensures |r| > 0 && AllDigits(r)
  {
    if n < 10 then [DigitChar(n)] else ShowNat(n / 10) + [DigitChar(n % 10)]
  }

  /** The decimal rendering of an integer, Python's `str(n)`. */
  function ShowInt(n: int): (r: string)
    ensures |r| > 0
  {
    if n < 0 then "-" + ShowNat(-n) else ShowNat(n)
  }

  /** Reading back the digits of `n` gives `n`. */
  lemma {:induction false} DigitsValueOfShowNat(n: nat)
    ensures DigitsValue(ShowNat(n)) == n
  {
    if n >= 10 {
      var s := ShowNat(n);
      assert s[..|s| - 1] == ShowNat(n / 10);
      DigitsValueOfShowNat(n / 10);
    }
  }

  /** A rendering with no surrounding whitespace is its own strip. */
  lemma StripUnpadded(s: string)
    requires |s| > 0 && !IsSpace(s[0]) && !IsSpace(s[|s| - 1])
    ensures Strip(s) == s
  {
  }

  /** `int(str(n)) == n`: every integer a client renders in decimal is read
      back as that integer. */
  lemma ParseShowRoundTrip(n: int)
    ensures ParseInt(ShowInt(n)) == Some(n)
  {
    var s := ShowInt(n);
    if n < 0 {
      var d := ShowNat(-n);
      assert s[1..] == d;
      assert s[|s| - 1] == d[|d| - 1];
      StripUnpadded(s);
      DigitsValueOfShowNat(-n);
      assert ParseStripped(s) == Some(n);
    } else {
      assert IsDigit(s[0]) && IsDigit(s[|s| - 1]);
      StripUnpadded(s);
      DigitsValueOfShowNat(n);
      assert ParseStripped(s) == Some(n);
    }
  }

  predicate AllSpace(s: string)
  {
    forall i :: 0 <= i < |s| ==> IsSpace(s[i])
  }

  /** The characters `int()` can accept at all. */
  predicate IsLiteralChar(c: char)
  {
    IsSpace(c) || IsDigit(c) || c == '+' || c == '-'
  }

  /** The value of the digits `d` after the sign `sign`. */
  function SignedValue(sign: string, d: string): int
    requires AllDigits(d)
  {
    if sign == "-" then -(DigitsValue(d) as int) else DigitsValue(d)
  }

  /** `pre + sign + mid + d + post` is an integer literal: whitespace, an
      optional sign, whitespace only after a sign, one or more digits, and
      whitespace. */
  predicate LiteralParts(pre: string, sign: string, mid: string, d: string, post: string)
  {
    && AllSpace(pre)
    && (sign == "" || sign == "+" || sign == "-")
    && AllSpace(mid) && (sign == "" ==> mid == "")
    && |d| > 0 && AllDigits(d)
    && AllSpace(post)
  }

  /** Every integer literal is read as its value: `int(" + 7 ") == 7`,
      `int("- 5") == -5`, `int("007") == 7`. */
  lemma ParseAcceptsLiteral(pre: string, sign: string, mid: string, d: string, post: string)
    requires LiteralParts(pre, sign, mid, d, post)
    ensures ParseInt(pre + sign + mid + d + post) == Some(SignedValue(sign, d))
  {
    var t := sign + mid + d;
    assert pre + sign + mid + d + post == pre + t + post;
    ParseIgnoresPadding(pre, t, post);
    assert t[|t| - 1] == d[|d| - 1];
    if sign == "" {
      assert t == d;
      StripUnpadded(t);
    } else {
      assert t[0] == sign[0];
      StripUnpadded(t);
      assert t[1..] == mid + d;
      TrimStartSkipsSpace(mid, d);
      assert TrimStart(d) == d;
    }
  }

  /** Only an integer literal is read: whatever `int()` accepts splits into
      the parts of `LiteralParts`, and its value is that of those parts. */
  lemma ParseIntShape(text: string) returns (pre: string, sign: string, mid: string, d: string, post: string)
    requires ParseInt(text).Some?
    ensures LiteralParts(pre, sign, mid, d, post)
    ensures text == pre + sign + mid + d + post
    ensures ParseInt(text) == Some(SignedValue(sign, d))
  {
    var started := TrimStart(text);
    TrimStartSuffix(text);
    pre := text[..|text| - |started|];
    assert text == pre + started && AllSpace(pre);
    var t := TrimEnd(started);
    TrimEndPrefix(started);
    post := started[|t|..];
    assert started == t + post && AllSpace(post);
    assert ParseInt(text) == ParseStripped(t);
    sign, mid, d := StrippedShape(t);
    JoinParts(text, pre, started, t, post, sign, mid, d);
  }

  /** Reassembling the literal from its two trims and its three inner parts. */
  lemma JoinParts(text: string, pre: string, started: string, t: string, post: string,
                  sign: string, mid: string, d: string)
    requires text == pre + started && started == t + post && t == sign + mid + d
    ensures text == pre + sign + mid + d + post
  {
    assert pre + (sign + mid + d) == pre + sign + mid + d;
  }

  /** What `ParseStripped` accepts: an optional sign, whitespace only after
      a sign, and one or more digits. */
  lemma StrippedShape(t: string) returns (sign: string, mid: string, d: string)
    requires ParseStripped(t).Some?
    ensures sign == "" || sign == "+" || sign == "-"
    ensures AllSpace(mid) && (sign == "" ==> mid == "")
    ensures |d| > 0 && AllDigits(d)
    ensures t == sign + mid + d
    ensures ParseStripped(t) == Some(SignedValue(sign, d))
  {
    if t[0] == '+' || t[0] == '-' {
      sign := [t[0]];
      var rest := t[1..];
      d := TrimStart(rest);
      TrimStartSuffix(rest);
      mid := rest[..|rest| - |d|];
      assert t == [t[0]] + rest;
    } else {
      sign, mid, d := "", "", t;
    }
  }

  /** A value holding any character other than whitespace, a digit or a
      sign is a ValueError: `int("1.5")`, `int("5a")`, `int("0x10")`. */
  lemma ParseRejectsOtherChars(text: string, c: char)
    requires c in text && !IsLiteralChar(c)
    ensures ParseInt(text).None?
  {
    if ParseInt(text).Some? {
      var pre, sign, mid, d, post := ParseIntShape(text);
    }
  }

  /** A second sign is a ValueError: `int("--5")`, `int("+-5")`. */
  lemma ParseRejectsTwoSigns(text: string)
    requires |text| >= 2 && (text[0] == '+' || text[0] == '-') && (text[1] == '+' || text[1] == '-')
    ensures ParseInt(text).None?
  {
    if ParseInt(text).Some? {
      var pre, sign, mid, d, post := ParseIntShape(text);
    }
  }

  /** `TrimStart(s)` is `s` after a run of whitespace. */
  lemma {:induction false} TrimStartSuffix(s: string)
    ensures |TrimStart(s)| <= |s|
    ensures s == s[..|s| - |TrimStart(s)|] + TrimStart(s)
    ensures AllSpace(s[..|s| - |TrimStart(s)|])
  {
    if |s| > 0 && IsSpace(s[0]) {
      var tail := s[1..];
      TrimStartSuffix(tail);
      var r := TrimStart(tail);
      assert TrimStart(s) == r;
      var k := |tail| - |r|;
      assert tail == tail[..k] + r;
      assert s[..k + 1] == [s[0]] + tail[..k];
      assert s == s[..k + 1] + r;
      var skipped := s[..k + 1];
      forall i | 0 <= i < |skipped| ensures IsSpace(skipped[i]) {
        if i > 0 {
          assert skipped[i] == tail[..k][i - 1];
        }
      }
    } else {
      assert s[..0] == [];
    }
  }

  /** `TrimEnd(s)` is `s` before a run of whitespace. */
  lemma {:induction false} TrimEndPrefix(s: string)
    ensures |TrimEnd(s)| <= |s|
    ensures s == TrimEnd(s) + s[|TrimEnd(s)|..]
    ensures AllSpace(s[|TrimEnd(s)|..])
  {
    if |s| > 0 && IsSpace(s[|s| - 1]) {
      var init := s[..|s| - 1];
      TrimEndPrefix(init);
      var k := |TrimEnd(init)|;
      assert s[k..] == init[k..] + [s[|s| - 1]];
    }
  }

  /** Whitespace around a value does not change what `int()` reads. */
  lemma {:induction false} ParseIgnoresPadding(pre: string, text: string, post: string)
    requires forall i :: 0 <= i < |pre| ==> IsSpace(pre[i])
    requires forall i :: 0 <= i < |post| ==> IsSpace(post[i])
    ensures ParseInt(pre + text + post) == ParseInt(text)
  {
    TrimStartSkipsSpace(pre, text + post);
    assert pre + text + post == pre + (text + post);
    TrimStartOfPrefix(text, post);
    if TrimStart(text) != [] {
      TrimEndSkipsSpace(TrimStart(text), post);
    }
  }

  lemma {:induction false} TrimStartSkipsSpace(pre: string, s: string)
    requires forall i :: 0 <= i < |pre| ==> IsSpace(pre[i])
    ensures TrimStart(pre + s) == TrimStart(s)
  {
    if pre != [] {
      assert (pre + s)[0] == pre[0] && IsSpace(pre[0]);
      assert TrimStart(pre + s) == TrimStart((pre + s)[1..]);
      assert (pre + s)[1..] == pre[1..] + s;
      forall i | 0 <= i < |pre[1..]| ensures IsSpace(pre[1..][i]) {
        assert pre[1..][i] == pre[i + 1];
      }
      TrimStartSkipsSpace(pre[1..], s);
    } else {
      assert pre + s == s;
    }
  }

  lemma {:induction false} TrimStartOfPrefix(s: string, post: string)
    requires forall i :: 0 <= i < |post| ==> IsSpace(post[i])
    ensures TrimStart(s + post) == TrimStart(s) + post
            || (TrimStart(s) == [] && TrimStart(s + post) == [])
  {
    if s == [] {
      assert s + post == post;
      TrimStartSkipsSpace(post, []);
      assert post + [] == post;
    } else {
      assert (s + post)[0] == s[0];
      if IsSpace(s[0]) {
        assert (s + post)[1..] == s[1..] + post;
        TrimStartOfPrefix(s[1..], post);
      }
    }
  }

  lemma {:induction false} TrimEndSkipsSpace(s: string, post: string)
    requires forall i :: 0 <= i < |post| ==> IsSpace(post[i])
    ensures TrimEnd(s + post) == TrimEnd(s)
  {
    if post != [] {
      var p := post[..|post| - 1];
      assert (s + post)[..|s + post| - 1] == s + p;
      TrimEndSkipsSpace(s, p);
    } else {
      assert s + post == s;
    }
  }
}
