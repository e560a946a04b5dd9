/**
 * Phone-number entry shared by the seller sign-up page and the password-reset page.
 * Both pages define the same `formatPhoneNumber` and the same keydown guard.
 */
module Phone {
  import opened Common

  /** `\d` in a JavaScript regular expression: an ASCII digit. */
  predicate IsDigit(c: char) {
    '0' <= c <= '9'
  }

  predicate AllDigits(s: string) {
    forall i :: 0 <= i < |s| ==> IsDigit(s[i])
  }

  /** The input with every non-digit character removed (the first step of `formatPhoneNumber`). */
  function Digits(s: string): (d: string)
    ensures |d| <= |s|
    ensures AllDigits(d)
  {
    if s == [] then [] else (if IsDigit(s[0]) then [s[0]] else []) + Digits(s[1..])
  }

  /** The input with every '-' removed (how a reader recovers the digits of a formatted number). */
  function RemoveHyphens(s: string): (r: string)
    ensures |r| <= |s|
  {
    if s == [] then [] else (if s[0] == '-' then [] else [s[0]]) + RemoveHyphens(s[1..])
  }

  /**
   * The lengths the grouping pattern (two or three digits, then three or four, then exactly four,
   * anchored at both ends) may give its first two groups, in the order a backtracking matcher tries them (greedy: longer first).
   */
  const GroupChoices: seq<(nat, nat)> := [(3, 4), (3, 3), (2, 4), (2, 3)]

  /** The first choice whose groups exactly cover `n` digits, if any. */
  function FirstFit(choices: seq<(nat, nat)>, n: nat): (r: Option<(nat, nat)>)
    ensures r.Some? ==> r.value in choices && r.value.0 + r.value.1 + 4 == n
    ensures r.None? ==> forall c :: c in choices ==> c.0 + c.1 + 4 != n
    ensures r.Some? ==>
      exists k :: (0 <= k < |choices| && choices[k] == r.value &&
                   forall j :: 0 <= j < k ==> choices[j].0 + choices[j].1 + 4 != n)
  {
    if choices == [] then None
    else if choices[0].0 + choices[0].1 + 4 == n then Some(choices[0])
    else
      var rest := FirstFit(choices[1..], n);
      assert rest.Some? ==>
        exists k :: (0 < k < |choices| && choices[k] == rest.value &&
                     forall j :: 0 <= j < k ==> choices[j].0 + choices[j].1 + 4 != n) by {
        if rest.Some? {
          var k' :| 0 <= k' < |choices[1..]| && choices[1..][k'] == rest.value
            && forall j :: 0 <= j < k' ==> choices[1..][j].0 + choices[1..][j].1 + 4 != n;
          assert choices[k' + 1] == rest.value;
          assert forall j :: 0 < j < k' + 1 ==> choices[j] == choices[1..][j - 1];
        }
      }
      rest
  }

  /** The digit string with a hyphen after each of the first two groups, when the pattern matches. */
  function Grouped(d: string): string
    requires AllDigits(d)
  {
    match FirstFit(GroupChoices, |d|)
    case None => d
    case Some((a, b)) => d[..a] + "-" + d[a..a + b] + "-" + d[a + b..]
  }

  /** Drops one or two hyphens at the very end of the string. */
  function StripTrailingHyphens(s: string): string {
    if |s| >= 2 && s[|s| - 2] == '-' && s[|s| - 1] == '-' then s[..|s| - 2]
    else if |s| >= 1 && s[|s| - 1] == '-' then s[..|s| - 1]
    else s
  }

  /** `formatPhoneNumber` of sign-up/index.jsx and sign-in/password/index.jsx. */
  function FormatPhoneNumber(value: string): string {
    StripTrailingHyphens(Grouped(Digits(value)))
  }

  /** Digits `d` with a hyphen inserted before position `k` and before position `m`. */
  function Hyphenate(d: string, k: nat, m: nat): string
    requires k <= m <= |d|
  {
    d[..k] + "-" + d[k..m] + "-" + d[m..]
  }

  /** The three hyphenated shapes, by digit count. */
  function Shape(d: string): string
    requires AllDigits(d)
  {
    if |d| == 9 then Hyphenate(d, 2, 5)
    else if |d| == 10 then Hyphenate(d, 3, 6)
    else if |d| == 11 then Hyphenate(d, 3, 7)
    else d
  }

  /** `handlePhoneKeyDown` cancels the key press exactly when this holds. */
  predicate KeyBlocked(fieldValue: string, key: string) {
    |Digits(fieldValue)| >= 11 && key != "Backspace" && key != "Delete"
  }

  // ---------------------------------------------------------------------------
  // Lemmas about digit extraction

  lemma {:induction false} DigitsAppend(a: string, b: string)
    ensures Digits(a + b) == Digits(a) + Digits(b)
  {
    if a == [] {
      assert a + b == b;
    } else {
      var ab := a + b;
      assert ab[0] == a[0] && ab[1..] == a[1..] + b;
      assert Digits(ab) == (if IsDigit(a[0]) then [a[0]] else []) + Digits(a[1..] + b);
      DigitsAppend(a[1..], b);
    }
  }

  lemma {:induction false} RemoveHyphensAppend(a: string, b: string)
    ensures RemoveHyphens(a + b) == RemoveHyphens(a) + RemoveHyphens(b)
  {
    if a == [] {
      assert a + b == b;
    } else {
      assert (a + b)[1..] == a[1..] + b;
      RemoveHyphensAppend(a[1..], b);
    }
  }

  /** A string of digits is its own digit string, and has no hyphen to remove. */
  lemma {:induction false} DigitsOfDigits(d: string)
    requires AllDigits(d)
    ensures Digits(d) == d && RemoveHyphens(d) == d
  {
    if d != [] {
      DigitsOfDigits(d[1..]);
    }
  }

  /** Keeping only digits is the identity exactly on all-digit strings. */
  lemma {:induction false} DigitsKeepsAllIff(s: string)
    ensures |Digits(s)| == |s| <==> AllDigits(s)
  {
    if s == [] {
    } else {
      DigitsKeepsAllIff(s[1..]);
      if !IsDigit(s[0]) {
        assert |Digits(s)| < |s|;
      } else {
        assert AllDigits(s) <==> AllDigits(s[1..]);
      }
    }
  }

  /** On a string of digits and hyphens, dropping hyphens and keeping digits agree. */
  lemma {:induction false} DigitsOfDigitsAndHyphens(s: string)
    requires forall i :: 0 <= i < |s| ==> IsDigit(s[i]) || s[i] == '-'
    ensures Digits(s) == RemoveHyphens(s)
  {
    if s != [] {
      DigitsOfDigitsAndHyphens(s[1..]);
    }
  }

  // ---------------------------------------------------------------------------
  // Lemmas about formatPhoneNumber

  /** The backtracking matcher picks 2-3-4 for 9 digits, 3-3-4 for 10, 3-4-4 for 11, none otherwise. */
  lemma GroupedIsShape(d: string)
    requires AllDigits(d)
    ensures Grouped(d) == Shape(d)
  {
  }

  lemma HyphenateChars(d: string, k: nat, m: nat)
    requires AllDigits(d) && k <= m < |d|
    ensures var h := Hyphenate(d, k, m);
      && |h| == |d| + 2
      && IsDigit(h[|h| - 1])
      && forall i :: 0 <= i < |h| ==> IsDigit(h[i]) || h[i] == '-'
  {
    var h := Hyphenate(d, k, m);
    forall i | 0 <= i < |h| ensures IsDigit(h[i]) || h[i] == '-' {
      if i < k {
        assert h[i] == d[i];
      } else if i == k || i == m + 1 {
      } else if i <= m {
        assert h[i] == d[i - 1];
      } else {
        assert h[i] == d[i - 2];
      }
    }
  }

  lemma NoHyphenInDigits(s: string)
    requires AllDigits(s)
    ensures multiset(s)['-'] == 0
  {
    assert '-' !in s;
  }

  lemma HyphenateCount(d: string, k: nat, m: nat)
    requires AllDigits(d) && k <= m <= |d|
    ensures multiset(Hyphenate(d, k, m))['-'] == 2
  {
    var a, b, c := d[..k], d[k..m], d[m..];
    assert AllDigits(a) && AllDigits(b) && AllDigits(c);
    NoHyphenInDigits(a);
    NoHyphenInDigits(b);
    NoHyphenInDigits(c);
    assert multiset(Hyphenate(d, k, m)) == multiset(a) + multiset{'-'} + multiset(b) + multiset{'-'} + multiset(c);
  }

  lemma RemoveHyphensAround(a: string, b: string)
    ensures RemoveHyphens(a + "-" + b) == RemoveHyphens(a) + RemoveHyphens(b)
  {
    RemoveHyphensAppend(a, "-");
    RemoveHyphensAppend(a + "-", b);
  }

  lemma RemoveHyphensOfGroups(a: string, b: string, c: string)
    requires AllDigits(a) && AllDigits(b) && AllDigits(c)
    ensures RemoveHyphens(a + "-" + b + "-" + c) == a + b + c
  {
    DigitsOfDigits(a);
    DigitsOfDigits(b);
    DigitsOfDigits(c);
    RemoveHyphensAround(a + "-" + b, c);
    RemoveHyphensAround(a, b);
  }

  lemma HyphenateRemove(d: string, k: nat, m: nat)
    requires AllDigits(d) && k <= m <= |d|
    ensures RemoveHyphens(Hyphenate(d, k, m)) == d
  {
    RemoveHyphensOfGroups(d[..k], d[k..m], d[m..]);
    assert d == d[..k] + d[k..m] + d[m..];
  }

  /** Facts about Shape used by every formatting lemma below. */
  lemma ShapeFacts(d: string)
    requires AllDigits(d)
    ensures var h := Shape(d);
      && (h == [] || IsDigit(h[|h| - 1]))
      && (forall i :: 0 <= i < |h| ==> IsDigit(h[i]) || h[i] == '-')
      && RemoveHyphens(h) == d
      && (9 <= |d| <= 11 ==> multiset(h)['-'] == 2)
      && (!(9 <= |d| <= 11) ==> h == d)
  {
    if 9 <= |d| <= 11 {
      var k := if |d| == 9 then 2 else 3;
      var m := if |d| == 9 then 5 else if |d| == 10 then 6 else 7;
      assert Shape(d) == Hyphenate(d, k, m);
      HyphenateChars(d, k, m);
      HyphenateCount(d, k, m);
      HyphenateRemove(d, k, m);
    } else {
      DigitsOfDigits(d);
    }
  }

  /**
   * Shape of the formatted number: 9, 10 or 11 digits are grouped 2-3-4, 3-3-4 or 3-4-4 with
   * exactly two hyphens; any other count gives the bare digits; the trailing-hyphen strip never
   * changes anything.
   */
  lemma FormatShape(value: string)
    ensures var d := Digits(value);
      && StripTrailingHyphens(Grouped(d)) == Grouped(d)
      && FormatPhoneNumber(value) == Shape(d)
      && (9 <= |d| <= 11 ==> multiset(FormatPhoneNumber(value))['-'] == 2)
      && (!(9 <= |d| <= 11) ==> FormatPhoneNumber(value) == d)
  {
    var d := Digits(value);
    GroupedIsShape(d);
    ShapeFacts(d);
    StripNoTrailingHyphen(Grouped(d));
  }

  /** The trailing-hyphen strip leaves a string that does not end in '-' as it is. */
  lemma StripNoTrailingHyphen(s: string)
    requires s == [] || s[|s| - 1] != '-'
    ensures StripTrailingHyphens(s) == s
  {
  }

  /** The formatted number consists of digits and hyphens only, and never ends in '-'. */
  lemma FormatOnlyDigitsAndHyphens(value: string)
    ensures var r := FormatPhoneNumber(value);
      && (forall i :: 0 <= i < |r| ==> IsDigit(r[i]) || r[i] == '-')
      && (r == [] || r[|r| - 1] != '-')
  {
    FormatShape(value);
    ShapeFacts(Digits(value));
  }

  /** Removing the hyphens from the formatted number gives exactly the input's digits, in order. */
  lemma FormatKeepsDigits(value: string)
    ensures RemoveHyphens(FormatPhoneNumber(value)) == Digits(value)
    ensures Digits(FormatPhoneNumber(value)) == Digits(value)
  {
    FormatShape(value);
    ShapeFacts(Digits(value));
    DigitsOfDigitsAndHyphens(FormatPhoneNumber(value));
  }

  /** Formatting an already formatted number changes nothing (each keystroke re-formats the field). */
  lemma FormatIdempotent(value: string)
    ensures FormatPhoneNumber(FormatPhoneNumber(value)) == FormatPhoneNumber(value)
  {
    FormatKeepsDigits(value);
  }

  /**
   * The keydown guard keeps a typed field at 11 digits or fewer: a key the guard lets through
   * that inserts one character leaves the field at most 11 digits long, whatever it held.
   * Backspace and Delete are never blocked.
   */
  lemma {:induction false} KeyGuardCapsDigits(fieldValue: string, key: string, pos: nat)
    requires !KeyBlocked(fieldValue, key)
    requires |key| == 1 && pos <= |fieldValue|
    ensures |Digits(fieldValue[..pos] + key + fieldValue[pos..])| <= 11
    ensures !KeyBlocked(fieldValue, "Backspace") && !KeyBlocked(fieldValue, "Delete")
  {
    assert |"Backspace"| == 9 && |"Delete"| == 6;
    assert |Digits(fieldValue)| <= 10;
    assert fieldValue == fieldValue[..pos] + fieldValue[pos..];
    DigitsAppend(fieldValue[..pos], fieldValue[pos..]);
    DigitsAppend(fieldValue[..pos], key);
    DigitsAppend(fieldValue[..pos] + key, fieldValue[pos..]);
  }
}
