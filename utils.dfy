/**
  The string helpers of the site: e-mail and phone validation and phone formatting.
  Each regular expression is written out as the set of strings it matches in full.
 */
module Utils {

  /** JavaScript's `\s`: the ECMAScript white space and line terminator characters. */
  predicate IsWhitespace(c: char)
  {
    || c == ' ' || c == '\t' || c == '\n' || c == '\r' || c == '\U{B}' || c == '\U{C}'
    || c == '\U{A0}' || c == '\U{1680}' || ('\U{2000}' <= c <= '\U{200A}')
    || c == '\U{2028}' || c == '\U{2029}' || c == '\U{202F}' || c == '\U{205F}'
    || c == '\U{3000}' || c == '\U{FEFF}'
  }

  predicate IsDigit(c: char)
  {
    '0' <= c <= '9'
  }

  // ---------------------------------------------------------------- validateEmail

  /** The class `[^\s@]`. */
  predicate IsAddressChar(c: char)
  {
    !IsWhitespace(c) && c != '@'
  }

  /** `[^\s@]+` matching all of `t`. */
  predicate AddressRun(t: string)
  {
    |t| > 0 && forall k | 0 <= k < |t| :: IsAddressChar(t[k])
  }

  /** The test of `^[^\s@]+@[^\s@]+\.[^\s@]+$`, with `i` at the `@` and `j` at the escaped dot. */
  predicate MatchesEmailPattern(email: string)
  {
    exists i, j | 0 < i < j < |email| ::
      && email[i] == '@' && email[j] == '.'
      && AddressRun(email[..i]) && AddressRun(email[i + 1..j]) && AddressRun(email[j + 1..])
  }

  predicate NoWhitespace(s: string)
  {
    forall k | 0 <= k < |s| :: !IsWhitespace(s[k])
  }

  /** A dot that is neither the first nor the last character. */
  predicate HasInnerDot(domain: string)
  {
    exists k | 0 < k < |domain| - 1 :: domain[k] == '.'
  }

  /** An address in plain words: no white space, exactly one `@`, something before it,
      and a dot inside the part after it. */
  ghost predicate WellFormedAddress(s: string)
  {
    && NoWhitespace(s)
    && multiset(s)['@'] == 1
    && exists i | 0 < i < |s| :: s[i] == '@' && HasInnerDot(s[i + 1..])
  }

  lemma TwoOccurrences(s: string, c: char, lo: nat, hi: nat)
    requires lo < hi < |s| && s[lo] == c && s[hi] == c
    ensures multiset(s)[c] >= 2
  {
    assert s == s[..lo] + [s[lo]] + s[lo + 1..hi] + [s[hi]] + s[hi + 1..];
  }

  lemma RunHasNoAt(t: string)
    requires AddressRun(t)
    ensures multiset(t)['@'] == 0
  {
    assert '@' !in t;
  }

  /** An address the pattern accepts has no white space, one `@`, and a dot inside the
      part after it. */
  lemma ValidEmailIsWellFormed(s: string, i: nat, j: nat)
    requires 0 < i < j < |s| && s[i] == '@' && s[j] == '.'
    requires AddressRun(s[..i]) && AddressRun(s[i + 1..j]) && AddressRun(s[j + 1..])
    ensures WellFormedAddress(s)
  {
    var local, mid, top := s[..i], s[i + 1..j], s[j + 1..];
    assert s == local + [s[i]] + mid + [s[j]] + top;
    forall k | 0 <= k < |s| ensures !IsWhitespace(s[k]) {
      if k < i { assert s[k] == local[k]; }
      else if i < k < j { assert s[k] == mid[k - i - 1]; }
      else if j < k { assert s[k] == top[k - j - 1]; }
    }
    RunHasNoAt(local);
    RunHasNoAt(mid);
    RunHasNoAt(top);
    assert multiset(s)['@'] == multiset(local)['@'] + 1 + multiset(mid)['@'] + multiset(top)['@'];
    assert s[i + 1..][j - i - 1] == '.';
  }

  /** A well-formed address matches the pattern, split at its only `@` and an inner dot. */
  lemma WellFormedIsValidEmail(s: string)
    requires WellFormedAddress(s)
    ensures MatchesEmailPattern(s)
  {
    var i :| 0 < i < |s| && s[i] == '@' && HasInnerDot(s[i + 1..]);
    var d := s[i + 1..];
    var k :| 0 < k < |d| - 1 && d[k] == '.';
    var j := i + 1 + k;
    assert s[j] == '.';
    forall m | 0 <= m < |s| && m != i ensures IsAddressChar(s[m]) {
      if s[m] == '@' {
        if m < i { TwoOccurrences(s, '@', m, i); } else { TwoOccurrences(s, '@', i, m); }
      }
    }
    var local, mid, top := s[..i], s[i + 1..j], s[j + 1..];
    assert AddressRun(local) by {
      forall m | 0 <= m < |local| ensures IsAddressChar(local[m]) { assert local[m] == s[m]; }
    }
    assert AddressRun(mid) by {
      forall m | 0 <= m < |mid| ensures IsAddressChar(mid[m]) { assert mid[m] == s[i + 1 + m]; }
    }
    assert AddressRun(top) by {
      forall m | 0 <= m < |top| ensures IsAddressChar(top[m]) { assert top[m] == s[j + 1 + m]; }
    }
  }

  /** The pattern matches exactly the well-formed addresses. */
  lemma EmailPatternIff(s: string)
    ensures MatchesEmailPattern(s) <==> WellFormedAddress(s)
  {
    if MatchesEmailPattern(s) {
      var i, j :| 0 < i < j < |s| && s[i] == '@' && s[j] == '.'
        && AddressRun(s[..i]) && AddressRun(s[i + 1..j]) && AddressRun(s[j + 1..]);
      ValidEmailIsWellFormed(s, i, j);
    }
    if WellFormedAddress(s) {
      WellFormedIsValidEmail(s);
    }
  }

  /** `validateEmail`: accepts exactly the well-formed addresses. */
  function ValidateEmail(email: string): (ok: bool)
    ensures ok <==> WellFormedAddress(email)
  {
    EmailPatternIff(email);
    MatchesEmailPattern(email)
  }

  // ---------------------------------------------------------------- validatePhone

  /** The class `[\s\-\(\)]`. */
  predicate IsPhoneSeparator(c: char)
  {
    IsWhitespace(c) || c == '-' || c == '(' || c == ')'
  }

  /** `phone.replace(/[\s\-\(\)]/g, '')`. */
  function StripSeparators(s: string): (r: string)
    ensures |r| <= |s|
    ensures forall k | 0 <= k < |r| :: !IsPhoneSeparator(r[k])
    ensures |s| == 1 ==> r == (if IsPhoneSeparator(s[0]) then [] else s)
  {
    if s == [] then []
    else (if IsPhoneSeparator(s[0]) then [] else [s[0]]) + StripSeparators(s[1..])
  }

  /** `[1-9][\d]{0,15}` matching all of `t`. */
  predicate DigitRun(t: string)
  {
    1 <= |t| <= 16 && '1' <= t[0] <= '9' && forall k | 1 <= k < |t| :: IsDigit(t[k])
  }

  /** `^[\+]?[1-9][\d]{0,15}$`. */
  predicate MatchesPhonePattern(t: string)
  {
    DigitRun(t) || (|t| > 0 && t[0] == '+' && DigitRun(t[1..]))
  }

  /** `validatePhone`: the pattern test after removing separators. */
  function ValidatePhone(phone: string): (ok: bool)
    ensures ok ==> 1 <= |DigitsOnly(phone)| <= 16 && DigitsOnly(phone)[0] != '0'
  {
    var ok := MatchesPhonePattern(StripSeparators(phone));
    if ok then
      ValidPhoneDigits(phone);
      ok
    else
      ok
  }

  /** Removing separators distributes over concatenation. */
  lemma {:induction false} StripSeparatorsConcat(a: string, b: string)
    ensures StripSeparators(a + b) == StripSeparators(a) + StripSeparators(b)
    decreases |a|
  {
    if a == [] {
      assert a + b == b;
    } else {
      var head := if IsPhoneSeparator(a[0]) then [] else [a[0]];
      assert (a + b)[0] == a[0] && (a + b)[1..] == a[1..] + b;
      StripSeparatorsConcat(a[1..], b);
      calc {
        StripSeparators(a + b);
        head + StripSeparators(a[1..] + b);
        head + (StripSeparators(a[1..]) + StripSeparators(b));
        (head + StripSeparators(a[1..])) + StripSeparators(b);
      }
    }
  }

  lemma {:induction false} StripSeparatorsKeepsClean(s: string)
    requires forall k | 0 <= k < |s| :: !IsPhoneSeparator(s[k])
    ensures StripSeparators(s) == s
  {
    if s != [] {
      StripSeparatorsKeepsClean(s[1..]);
    }
  }

  /** Removing separators first does not change the verdict. */
  lemma ValidatePhoneIgnoresSeparators(phone: string)
    ensures ValidatePhone(phone) == ValidatePhone(StripSeparators(phone))
  {
    StripSeparatorsKeepsClean(StripSeparators(phone));
  }

  /** Every string of 1 to 16 digits without a leading zero, with or without one leading `+`,
      is a valid phone number. */
  lemma DigitRunsAreValidPhones(digits: string)
    requires DigitRun(digits)
    ensures ValidatePhone(digits) && ValidatePhone(['+'] + digits)
  {
    StripSeparatorsKeepsClean(digits);
    StripSeparatorsKeepsClean(['+'] + digits);
    assert (['+'] + digits)[1..] == digits;
  }

  // ---------------------------------------------------------------- formatPhoneNumber

  /** `phone.replace(/\D/g, '')`. */
  function DigitsOnly(s: string): (d: string)
    ensures |d| <= |s|
    ensures forall k | 0 <= k < |d| :: IsDigit(d[k])
    ensures |s| == 1 ==> d == (if IsDigit(s[0]) then s else [])
  {
    if s == [] then []
    else (if IsDigit(s[0]) then [s[0]] else []) + DigitsOnly(s[1..])
  }

  lemma {:induction false} DigitsOnlyConcat(a: string, b: string)
    ensures DigitsOnly(a + b) == DigitsOnly(a) + DigitsOnly(b)
    decreases |a|
  {
    if a == [] {
      assert a + b == b;
    } else {
      var head := if IsDigit(a[0]) then [a[0]] else [];
      assert (a + b)[0] == a[0] && (a + b)[1..] == a[1..] + b;
      DigitsOnlyConcat(a[1..], b);
      calc {
        DigitsOnly(a + b);
        head + DigitsOnly(a[1..] + b);
        head + (DigitsOnly(a[1..]) + DigitsOnly(b));
        (head + DigitsOnly(a[1..])) + DigitsOnly(b);
      }
    }
  }

  lemma {:induction false} DigitsOnlyKeepsDigits(s: string)
    requires forall k | 0 <= k < |s| :: IsDigit(s[k])
    ensures DigitsOnly(s) == s
  {
    if s != [] {
      DigitsOnlyKeepsDigits(s[1..]);
    }
  }

  /** Separators are not digits: stripping them keeps the digits. */
  lemma {:induction false} DigitsOnlyAfterStrip(s: string)
    ensures DigitsOnly(StripSeparators(s)) == DigitsOnly(s)
  {
    if s != [] {
      DigitsOnlyAfterStrip(s[1..]);
      DigitsOnlyConcat(if IsPhoneSeparator(s[0]) then [] else [s[0]], StripSeparators(s[1..]));
    }
  }

  /** A valid phone number has between 1 and 16 digits, the first of them not zero. */
  lemma ValidPhoneDigits(phone: string)
    requires MatchesPhonePattern(StripSeparators(phone))
    ensures 1 <= |DigitsOnly(phone)| <= 16 && DigitsOnly(phone)[0] != '0'
  {
    var t := StripSeparators(phone);
    DigitsOnlyAfterStrip(phone);
    if DigitRun(t) {
      DigitsOnlyKeepsDigits(t);
    } else {
      assert t == [t[0]] + t[1..];
      assert DigitsOnly([t[0]]) == [];
      AppendDigitsToNone([t[0]], t[1..]);
    }
  }

  lemma AppendDigits(x: string, y: string)
    requires forall k | 0 <= k < |y| :: IsDigit(y[k])
    ensures DigitsOnly(x + y) == DigitsOnly(x) + y
  {
    DigitsOnlyConcat(x, y);
    DigitsOnlyKeepsDigits(y);
  }

  lemma AppendDigitsToNone(x: string, y: string)
    requires DigitsOnly(x) == []
    requires forall k | 0 <= k < |y| :: IsDigit(y[k])
    ensures DigitsOnly(x + y) == y
  {
    AppendDigits(x, y);
    assert [] + y == y;
  }

  lemma AppendNoDigits(x: string, y: string)
    requires DigitsOnly(y) == []
    ensures DigitsOnly(x + y) == DigitsOnly(x)
  {
    DigitsOnlyConcat(x, y);
    assert DigitsOnly(x) + [] == DigitsOnly(x);
  }

  lemma AreaCodeDigits(a: string)
    requires forall k | 0 <= k < |a| :: IsDigit(a[k])
    ensures DigitsOnly("(" + a + ") ") == a
  {
    assert DigitsOnly("(") == [] && DigitsOnly(") ") == [];
    AppendDigitsToNone("(", a);
    AppendNoDigits("(" + a, ") ");
  }

  lemma LineDigits(x: string, b: string, c: string)
    requires forall k | 0 <= k < |b| :: IsDigit(b[k])
    requires forall k | 0 <= k < |c| :: IsDigit(c[k])
    ensures DigitsOnly(x + b + "-" + c) == DigitsOnly(x) + b + c
  {
    assert DigitsOnly("-") == [];
    AppendDigits(x, b);
    AppendNoDigits(x + b, "-");
    AppendDigits(x + b + "-", c);
  }

  /** The punctuation of the `(ddd) ddd-dddd` layout holds no digits. */
  lemma LayoutKeepsDigits(a: string, b: string, c: string)
    requires forall k | 0 <= k < |a| :: IsDigit(a[k])
    requires forall k | 0 <= k < |b| :: IsDigit(b[k])
    requires forall k | 0 <= k < |c| :: IsDigit(c[k])
    ensures DigitsOnly("(" + a + ") " + b + "-" + c) == a + b + c
  {
    AreaCodeDigits(a);
    LineDigits("(" + a + ") ", b, c);
  }

  /** `formatPhoneNumber`: exactly ten digits are laid out as `(ddd) ddd-dddd`; anything
      else is returned unchanged. */
  function FormatPhoneNumber(phone: string): (r: string)
    ensures |DigitsOnly(phone)| == 10 ==>
      && |r| == 14 && DigitsOnly(r) == DigitsOnly(phone)
      && r[0] == '(' && r[4] == ')' && r[5] == ' ' && r[9] == '-'
    ensures |DigitsOnly(phone)| != 10 ==> r == phone
  {
    var d := DigitsOnly(phone);
    if |d| == 10 then
      LayoutKeepsDigits(d[..3], d[3..6], d[6..]);
      assert d == d[..3] + d[3..6] + d[6..];
      "(" + d[..3] + ") " + d[3..6] + "-" + d[6..]
    else
      phone
  }

  /** Formatting an already formatted number changes nothing. */
  lemma FormatPhoneNumberIdempotent(phone: string)
    ensures FormatPhoneNumber(FormatPhoneNumber(phone)) == FormatPhoneNumber(phone)
  {
  }
}
