/** String helpers of the single-page frontend (`src/utils/helpers.ts`):
    `truncate`, `capitalize` (over ASCII letters) and `isValidEmail`. */
module Helpers {
  import JsText

  /** The number of characters `substring(0, length)` keeps of a longer
      string: a negative length counts as 0. */
  function KeptLength(length: int): nat
  {
    if length < 0 then 0 else length
  }

  /** `truncate`: the text itself when it fits in `length` characters, and
      otherwise its first `length` characters followed by "...". */
  function Truncate(text: string, length: int): (r: string)
    ensures |text| <= length ==> r == text
    ensures |text| > length ==>
      && |r| == KeptLength(length) + 3
      && r[..KeptLength(length)] == text[..KeptLength(length)]
      && r[KeptLength(length)..] == "..."
  {
    if |text| <= length then text else text[..KeptLength(length)] + "..."
  }

  /** Truncating twice to the same length is truncating once. */
  lemma TruncateIdempotent(text: string, length: int)
    ensures Truncate(Truncate(text, length), length) == Truncate(text, length)
  {
    var once := Truncate(text, length);
    if |text| > length {
      var n := KeptLength(length);
      assert once[..n] == text[..n];
    }
  }

  /** `toUpperCase` on one ASCII character: lower-case letters become
      upper-case, everything else is kept. */
  function ToUpperAscii(c: char): (u: char)
    ensures !('a' <= u <= 'z')
    ensures 'a' <= c <= 'z' ==> u as int == c as int - 32
    ensures !('a' <= c <= 'z') ==> u == c
  {
    if 'a' <= c <= 'z' then (c as int - 32) as char else c
  }

  /** `capitalize`: the first character upper-cased, the rest kept; the empty
      string stays empty. */
  function Capitalize(str: string): (r: string)
    ensures |r| == |str|
    ensures |str| > 0 ==> r[0] == ToUpperAscii(str[0]) && r[1..] == str[1..]
  {
    if str == [] then [] else [ToUpperAscii(str[0])] + str[1..]
  }

  /** Capitalizing an already capitalized string changes nothing. */
  lemma CapitalizeIdempotent(str: string)
    ensures Capitalize(Capitalize(str)) == Capitalize(str)
  {
  }

  /** The characters `[^\s@]` matches. */
  predicate IsPlain(c: char)
  {
    !JsText.IsWhitespace(c) && c != '@'
  }

  /** Every character of `s` matches `[^\s@]`. */
  predicate AllPlain(s: string)
  {
    forall k :: 0 <= k < |s| ==> IsPlain(s[k])
  }

  /** The strings the regular expression `^[^\s@]+@[^\s@]+\.[^\s@]+$`
      matches: a non-empty local part, '@', a non-empty part, '.', and a
      non-empty part, none of the three holding whitespace or '@'. */
  ghost predicate MatchesEmailPattern(s: string)
  {
    exists i, j ::
      && 0 < i && i + 1 < j && j + 1 < |s|
      && s[i] == '@' && s[j] == '.'
      && AllPlain(s[..i]) && AllPlain(s[i + 1..j]) && AllPlain(s[j + 1..])
  }

  /** The index of the first `c` in `s`, or `|s|` when there is none. */
  function FirstIndex(s: string, c: char): (i: nat)
    ensures i <= |s|
    ensures c !in s[..i]
    ensures i < |s| ==> s[i] == c
  {
    if s == [] then 0
    else if s[0] == c then 0
    else
      var i := 1 + FirstIndex(s[1..], c);
      assert s[..i] == [s[0]] + s[1..][..i - 1];
      i
  }

  /** `s` holds no whitespace. */
  predicate NoWhitespace(s: string)
  {
    forall k :: 0 <= k < |s| ==> !JsText.IsWhitespace(s[k])
  }

  /** A domain part has a '.' with at least one character on each side. */
  predicate HasInnerDot(d: string)
  {
    |d| >= 3 && '.' in d[1..|d| - 1]
  }

  /** `isValidEmail`: no whitespace, exactly one '@', something before it,
      and a '.' with something on each side after it. */
  function IsValidEmail(email: string): (ok: bool)
    ensures ok ==> |email| >= 5
  {
    var at := FirstIndex(email, '@');
    && NoWhitespace(email)
    && at < |email|
    && '@' !in email[at + 1..]
    && at > 0
    && HasInnerDot(email[at + 1..])
  }

  /** Every character of the slice `s[lo..hi]` matches `[^\s@]` exactly when
      every character of `s` between `lo` and `hi` does. */
  lemma AllPlainSlice(s: string, lo: int, hi: int)
    requires 0 <= lo <= hi <= |s|
    ensures AllPlain(s[lo..hi]) <==> forall m :: lo <= m < hi ==> IsPlain(s[m])
  {
    if AllPlain(s[lo..hi]) {
      forall m | lo <= m < hi ensures IsPlain(s[m]) {
        assert s[m] == s[lo..hi][m - lo];
      }
    }
  }

  /** Every string `isValidEmail` accepts matches its regular expression. */
  lemma ValidEmailMatchesPattern(s: string)
    requires IsValidEmail(s)
    ensures MatchesEmailPattern(s)
  {
    var i := FirstIndex(s, '@');
    var d := s[i + 1..];
    var k :| 0 <= k < |d| - 2 && d[1..|d| - 1][k] == '.';
    var j := i + 2 + k;
    assert d[1..|d| - 1][k] == d[k + 1] == s[j];
    assert forall m :: 0 <= m < i ==> s[m] != '@' by {
      forall m | 0 <= m < i ensures s[m] != '@' {
        assert s[m] == s[..i][m];
      }
    }
    assert forall m :: i < m < |s| ==> s[m] != '@' by {
      forall m | i < m < |s| ensures s[m] != '@' {
        assert s[m] == d[m - i - 1];
      }
    }
    AllPlainSlice(s, 0, i);
    AllPlainSlice(s, i + 1, j);
    AllPlainSlice(s, j + 1, |s|);
    assert s[..i] == s[0..i];
    assert s[j + 1..] == s[j + 1..|s|];
  }

  /** Every string the regular expression matches is accepted. */
  lemma PatternMatchIsValidEmail(s: string, i: int, j: int)
    requires && 0 < i && i + 1 < j && j + 1 < |s|
             && s[i] == '@' && s[j] == '.'
             && AllPlain(s[..i]) && AllPlain(s[i + 1..j]) && AllPlain(s[j + 1..])
    ensures IsValidEmail(s)
  {
    assert s[..i] == s[0..i];
    assert s[j + 1..] == s[j + 1..|s|];
    AllPlainSlice(s, 0, i);
    AllPlainSlice(s, i + 1, j);
    AllPlainSlice(s, j + 1, |s|);
    assert FirstIndex(s, '@') == i;
    var d := s[i + 1..];
    assert '@' !in d by {
      forall m | 0 <= m < |d| ensures d[m] != '@' {
        assert d[m] == s[i + 1 + m];
      }
    }
    assert d[1..|d| - 1][j - i - 2] == '.';
  }

  /** `isValidEmail` accepts exactly the strings its regular expression
      matches. */
  lemma IsValidEmailMatchesPattern(s: string)
    ensures IsValidEmail(s) <==> MatchesEmailPattern(s)
  {
    if IsValidEmail(s) {
      ValidEmailMatchesPattern(s);
    }
    if MatchesEmailPattern(s) {
      var i, j :| && 0 < i && i + 1 < j && j + 1 < |s|
                  && s[i] == '@' && s[j] == '.'
                  && AllPlain(s[..i]) && AllPlain(s[i + 1..j]) && AllPlain(s[j + 1..]);
      PatternMatchIsValidEmail(s, i, j);
    }
  }

  /** A string holding any whitespace is never a valid address. */
  lemma WhitespaceIsRejected(s: string, k: int)
    requires 0 <= k < |s| && JsText.IsWhitespace(s[k])
    ensures !IsValidEmail(s)
  {
  }

  /** A string holding two '@' is never a valid address. */
  lemma SecondAtIsRejected(s: string, i: int, j: int)
    requires 0 <= i < j < |s| && s[i] == '@' && s[j] == '@'
    ensures !IsValidEmail(s)
  {
    var at := FirstIndex(s, '@');
    if at < |s| {
      assert at <= i;
      assert s[at + 1..][j - at - 1] == '@';
    }
  }
}
