/**
 * The string predicates the sign-in form relies on, with JavaScript's
 * meanings: `\s` and `trim()` use the same whitespace set, `.length` counts
 * UTF-16 code units, and the e-mail test is the anchored regular expression
 * `^[^\s@]+@[^\s@]+\.[^\s@]+$`.
 */
module LoginText {
  import opened Wrappers

  /** JavaScript's WhiteSpace and LineTerminator code points. */
  predicate IsWhitespace(c: char) {
    var n := c as int;
    n == 0x09 || n == 0x0A || n == 0x0B || n == 0x0C || n == 0x0D || n == 0x20
    || n == 0xA0 || n == 0x1680 || (0x2000 <= n <= 0x200A) || n == 0x2028 || n == 0x2029
    || n == 0x202F || n == 0x205F || n == 0x3000 || n == 0xFEFF
  }

  predicate Blank(s: string) {
    forall k :: 0 <= k < |s| ==> IsWhitespace(s[k])
  }

  /** Drops the leading whitespace: what remains is a suffix that does not start with whitespace. */
  function TrimStart(s: string): (r: string)
    ensures |r| <= |s| && r == s[|s| - |r|..]
    ensures Blank(s[..|s| - |r|])
    ensures r != [] ==> !IsWhitespace(r[0])
  {
    if s != [] && IsWhitespace(s[0]) then TrimStart(s[1..]) else s
  }

  /** Drops the trailing whitespace: what remains is a prefix that does not end with whitespace. */
  function TrimEnd(s: string): (r: string)
    ensures |r| <= |s| && r == s[..|r|]
    ensures Blank(s[|r|..])
    ensures r != [] ==> !IsWhitespace(r[|r| - 1])
  {
    if s != [] && IsWhitespace(s[|s| - 1]) then TrimEnd(s[..|s| - 1]) else s
  }

  /** `String.prototype.trim`. */
  function Trim(s: string): (r: string)
    ensures |r| <= |s|
    ensures r != [] ==> !IsWhitespace(r[0]) && !IsWhitespace(r[|r| - 1])
  {
    TrimEnd(TrimStart(s))
  }

  /**
   * What `trim` leaves is the input with a blank prefix and a blank suffix
   * removed: a contiguous slice at offset `a`.
   */
  lemma TrimIsSlice(s: string) returns (a: nat)
    ensures a + |Trim(s)| <= |s| && Trim(s) == s[a..a + |Trim(s)|]
    ensures Blank(s[..a]) && Blank(s[a + |Trim(s)|..])
  {
    var t := TrimStart(s);
    a := |s| - |t|;
    SuffixSlices(s, a, t, |TrimEnd(t)|);
  }

  /** A prefix of a suffix is a middle slice, and a suffix of a suffix is a suffix. */
  lemma SuffixSlices(s: string, a: nat, t: string, m: nat)
    requires a <= |s| && t == s[a..] && m <= |t|
    ensures t[..m] == s[a..a + m] && t[m..] == s[a + m..]
  {
  }

  /** A string trims to nothing exactly when it is all whitespace. */
  lemma TrimEmptyIffBlank(s: string)
    ensures Trim(s) == [] <==> Blank(s)
  {
    var t := TrimStart(s);
    if Trim(s) == [] {
      assert Blank(t[0..]);
      assert t == [];
      assert s[..|s|] == s;
    } else {
      assert !IsWhitespace(Trim(s)[0]);
      assert Trim(s)[0] == t[0] == s[|s| - |t|];
    }
  }

  /** The UTF-16 code units of one character. */
  function Utf16Units(c: char): nat {
    if c as int >= 0x10000 then 2 else 1
  }

  /** `.length`: characters outside the Basic Multilingual Plane count twice. */
  function Utf16Length(s: string): (n: nat)
    ensures |s| <= n <= 2 * |s|
    ensures n == 0 <==> s == []
  {
    if s == [] then 0 else Utf16Units(s[0]) + Utf16Length(s[1..])
  }

  /** A string inside the Basic Multilingual Plane has one code unit per character. */
  lemma {:induction false} Utf16LengthOfBmp(s: string)
    requires forall k :: 0 <= k < |s| ==> s[k] as int < 0x10000
    ensures Utf16Length(s) == |s|
    decreases |s|
  {
    if s != [] {
      Utf16LengthOfBmp(s[1..]);
    }
  }

  /**
   * A single character is one code unit inside the Basic Multilingual Plane
   * and two outside it; with `Utf16LengthConcat` this fixes the length of every string.
   */
  lemma Utf16LengthOfChar(c: char)
    ensures Utf16Length([c]) == if c as int >= 0x10000 then 2 else 1
  {
    assert [c][1..] == [];
  }

  /** The length of a concatenation is the sum of the lengths. */
  lemma {:induction false} Utf16LengthConcat(s: string, t: string)
    ensures Utf16Length(s + t) == Utf16Length(s) + Utf16Length(t)
    decreases |s|
  {
    if s != [] {
      assert (s + t)[1..] == s[1..] + t;
      Utf16LengthConcat(s[1..], t);
    } else {
      assert s + t == t;
    }
  }

  /** A character `[^\s@]` matches. */
  predicate Plain(c: char) {
    c != '@' && !IsWhitespace(c)
  }

  predicate AllPlain(s: string) {
    forall k :: 0 <= k < |s| ==> Plain(s[k])
  }

  /**
   * The regular expression read as a match: a non-empty plain run, '@', a
   * non-empty plain run, '.', a non-empty plain run, and nothing else.
   */
  ghost predicate MatchesEmailPattern(e: string) {
    exists i, j :: 0 < i && i + 1 < j < |e| - 1 && e[i] == '@' && e[j] == '.' &&
      AllPlain(e[..i]) && AllPlain(e[i + 1..j]) && AllPlain(e[j + 1..])
  }

  /** The first index of `c` in `s`. */
  function IndexOf(s: string, c: char): (r: Option<nat>)
    ensures r.Some? ==> r.value < |s| && s[r.value] == c && c !in s[..r.value]
    ensures r.None? ==> c !in s
  {
    if s == [] then None
    else if s[0] == c then Some(0)
    else match IndexOf(s[1..], c)
      case None => None
      case Some(k) => assert s[..k + 1] == [s[0]] + s[1..][..k]; Some(k + 1)
  }

  /**
   * `validateEmail`, decided by a single scan: the part before the first
   * '@' is non-empty, nothing contains whitespace or a second '@', and the
   * part after the '@' has a '.' that is neither its first nor its last character.
   */
  function ValidEmail(email: string): bool {
    match IndexOf(email, '@')
    case None => false
    case Some(i) =>
      var domain := email[i + 1..];
      0 < i && AllPlain(email[..i]) && AllPlain(domain) && |domain| >= 3 && '.' in domain[1..|domain| - 1]
  }

  /** Every string `validateEmail` accepts matches the regular expression. */
  lemma ValidEmailSound(email: string)
    requires ValidEmail(email)
    ensures MatchesEmailPattern(email)
  {
    var i := IndexOf(email, '@').value;
    var domain := email[i + 1..];
    var inner := domain[1..|domain| - 1];
    var d :| 0 <= d < |inner| && inner[d] == '.';
    var j := i + 2 + d;
    assert email[j] == '.';
    assert email[i + 1..j] == domain[..d + 1];
    assert email[j + 1..] == domain[d + 2..];
    assert AllPlain(email[i + 1..j]);
    assert AllPlain(email[j + 1..]);
  }

  /** Every string the regular expression matches is accepted by `validateEmail`. */
  lemma ValidEmailComplete(email: string, i: nat, j: nat)
    requires 0 < i && i + 1 < j < |email| - 1 && email[i] == '@' && email[j] == '.'
    requires AllPlain(email[..i]) && AllPlain(email[i + 1..j]) && AllPlain(email[j + 1..])
    ensures ValidEmail(email)
  {
    assert '@' !in email[..i] by {
      forall k | 0 <= k < i ensures email[..i][k] != '@' {
        assert Plain(email[..i][k]);
      }
    }
    var r := IndexOf(email, '@');
    assert r.Some? by { assert email[i] == '@'; }
    assert r.value == i;
    var domain := email[i + 1..];
    forall k | 0 <= k < |domain| ensures Plain(domain[k]) {
      if k < j - i - 1 {
        assert domain[k] == email[i + 1..j][k];
      } else if k > j - i - 1 {
        assert domain[k] == email[j + 1..][k - (j - i)];
      }
    }
    assert domain[1..|domain| - 1][j - i - 2] == '.';
  }

  /** `validateEmail` accepts exactly the strings the regular expression matches. */
  lemma ValidEmailMatchesPattern(email: string)
    ensures ValidEmail(email) <==> MatchesEmailPattern(email)
  {
    if ValidEmail(email) {
      ValidEmailSound(email);
    }
    if MatchesEmailPattern(email) {
      var i, j :| 0 < i && i + 1 < j < |email| - 1 && email[i] == '@' && email[j] == '.' &&
        AllPlain(email[..i]) && AllPlain(email[i + 1..j]) && AllPlain(email[j + 1..]);
      ValidEmailComplete(email, i, j);
    }
  }
}
