/**
 * The two credential checks of the login form (src/Login.js, validateEmail and
 * validatePassword). Each check is a JavaScript regular expression tested
 * against the whole input; here each is the language of its regular
 * expression, written as a predicate over the characters of the input, and
 * lemmas characterise that language in plain terms.
 */
module Validation {

  /** JavaScript `\s`: the ECMAScript WhiteSpace and LineTerminator characters. */
  predicate IsWhitespace(c: char) {
    c == '\t' || c == '\n' || c == '\U{B}' || c == '\U{C}' || c == '\r' || c == ' ' ||
    c == '\U{A0}' || c == '\U{1680}' || ('\U{2000}' <= c <= '\U{200A}') ||
    c == '\U{2028}' || c == '\U{2029}' || c == '\U{202F}' || c == '\U{205F}' ||
    c == '\U{3000}' || c == '\U{FEFF}'
  }

  /** The characters JavaScript's `.` does not match (no `s` flag). */
  predicate IsLineTerminator(c: char) {
    c == '\n' || c == '\r' || c == '\U{2028}' || c == '\U{2029}'
  }

  /** `[^\s@]+` matches exactly the text `t`. */
  predicate IsEmailRun(t: string) {
    |t| > 0 && forall k | 0 <= k < |t| :: t[k] != '@' && !IsWhitespace(t[k])
  }

  /**
   * `validateEmail`: the pattern `^[^\s@]+@[^\s@]+\.[^\s@]+$` matches `s`, that is,
   * `s` splits as run '@' run '.' run at some '@' position `i` and '.' position `j`.
   */
  predicate ValidateEmail(s: string)
    ensures ValidateEmail(s) ==> 5 <= |s| && '@' in s && '.' in s
  {
    exists i, j | 0 < i && i + 1 < j < |s| - 1 ::
      s[i] == '@' && s[j] == '.' &&
      IsEmailRun(s[..i]) && IsEmailRun(s[i + 1..j]) && IsEmailRun(s[j + 1..])
  }

  /** Neither '@' nor a whitespace character occurs in `t` (possibly empty). */
  predicate NoAtOrSpace(t: string) {
    forall k | 0 <= k < |t| :: t[k] != '@' && !IsWhitespace(t[k])
  }

  /** The domain part: no '@' or whitespace, and a '.' that is neither its first nor its last character. */
  predicate IsEmailDomain(d: string) {
    NoAtOrSpace(d) && exists j | 0 < j < |d| - 1 :: d[j] == '.'
  }

  /** Plain statement of the email shape: local part, one '@', a dotted domain. */
  predicate IsEmailShape(s: string) {
    exists k | 0 < k < |s| :: s[k] == '@' && NoAtOrSpace(s[..k]) && IsEmailDomain(s[k + 1..])
  }

  lemma NoAtOrSpaceSlice(t: string, a: int, b: int)
    requires NoAtOrSpace(t) && 0 <= a <= b <= |t|
    ensures NoAtOrSpace(t[a..b])
  {
    forall k | 0 <= k < b - a ensures t[a..b][k] != '@' && !IsWhitespace(t[a..b][k]) {
      assert t[a..b][k] == t[a + k];
    }
  }

  /** A split of the pattern at '@' position `i` and '.' position `j` is a split of the plain shape at `i`. */
  lemma PatternSplitIsShape(s: string, i: int, j: int)
    requires 0 < i && i + 1 < j < |s| - 1 && s[i] == '@' && s[j] == '.'
    requires IsEmailRun(s[..i]) && IsEmailRun(s[i + 1..j]) && IsEmailRun(s[j + 1..])
    ensures NoAtOrSpace(s[..i]) && IsEmailDomain(s[i + 1..])
  {
    var d := s[i + 1..];
    forall k | 0 <= k < |d| ensures d[k] != '@' && !IsWhitespace(d[k]) {
      if i + 1 + k < j {
        assert d[k] == s[i + 1..j][k];
      } else if i + 1 + k > j {
        assert d[k] == s[j + 1..][i + 1 + k - (j + 1)];
      }
    }
    assert d[j - (i + 1)] == '.';
  }

  /** A split of the plain shape at `k`, with the domain's '.' at `j`, is a split of the pattern. */
  lemma ShapeSplitIsPattern(s: string, k: int, j: int)
    requires 0 < k < |s| && s[k] == '@' && NoAtOrSpace(s[..k]) && NoAtOrSpace(s[k + 1..])
    requires 0 < j < |s[k + 1..]| - 1 && s[k + 1..][j] == '.'
    ensures IsEmailRun(s[..k]) && IsEmailRun(s[k + 1..k + 1 + j]) && IsEmailRun(s[k + 1 + j + 1..])
    ensures s[k + 1 + j] == '.'
  {
    var d := s[k + 1..];
    NoAtOrSpaceSlice(d, 0, j);
    NoAtOrSpaceSlice(d, j + 1, |d|);
    assert s[k + 1..k + 1 + j] == d[0..j];
    assert s[k + 1 + j + 1..] == d[j + 1..|d|];
  }

  /** The regular expression accepts exactly the strings of the plain email shape. */
  lemma EmailShapeIff(s: string)
    ensures ValidateEmail(s) <==> IsEmailShape(s)
  {
    if ValidateEmail(s) {
      var i, j :| 0 < i && i + 1 < j < |s| - 1 && s[i] == '@' && s[j] == '.' &&
        IsEmailRun(s[..i]) && IsEmailRun(s[i + 1..j]) && IsEmailRun(s[j + 1..]);
      PatternSplitIsShape(s, i, j);
    }
    if IsEmailShape(s) {
      var k :| 0 < k < |s| && s[k] == '@' && NoAtOrSpace(s[..k]) && IsEmailDomain(s[k + 1..]);
      var j :| 0 < j < |s[k + 1..]| - 1 && s[k + 1..][j] == '.';
      ShapeSplitIsPattern(s, k, j);
    }
  }

  /** An accepted address holds exactly one '@'. */
  lemma EmailHasOneAt(s: string, p: int, q: int)
    requires ValidateEmail(s)
    requires 0 <= p < |s| && 0 <= q < |s| && s[p] == '@' && s[q] == '@'
    ensures p == q
  {
    var i, j :| 0 < i && i + 1 < j < |s| - 1 && s[i] == '@' && s[j] == '.' &&
      IsEmailRun(s[..i]) && IsEmailRun(s[i + 1..j]) && IsEmailRun(s[j + 1..]);
    forall r | 0 <= r < |s| && r != i ensures s[r] != '@' {
      if r < i {
        assert s[r] == s[..i][r];
      } else if r < j {
        assert s[r] == s[i + 1..j][r - (i + 1)];
      } else if r > j {
        assert s[r] == s[j + 1..][r - (j + 1)];
      }
    }
  }

  /** An accepted address holds no whitespace anywhere. */
  lemma EmailHasNoWhitespace(s: string, p: int)
    requires ValidateEmail(s) && 0 <= p < |s|
    ensures !IsWhitespace(s[p])
  {
    var i, j :| 0 < i && i + 1 < j < |s| - 1 && s[i] == '@' && s[j] == '.' &&
      IsEmailRun(s[..i]) && IsEmailRun(s[i + 1..j]) && IsEmailRun(s[j + 1..]);
    if p < i {
      assert s[p] == s[..i][p];
    } else if i < p < j {
      assert s[p] == s[i + 1..j][p - (i + 1)];
    } else if p > j {
      assert s[p] == s[j + 1..][p - (j + 1)];
    }
  }

  lemma EmailExamples()
    ensures ValidateEmail("a@b.com")
    ensures !ValidateEmail("bad") && !ValidateEmail("a@b")
    ensures !ValidateEmail("a b@c.d") && !ValidateEmail("a@@b.c")
  {
    var s := "a@b.com";
    assert s[..1] == "a" && s[1 + 1..3] == "b" && s[3 + 1..] == "com";
    assert s[1] == '@' && s[3] == '.' &&
      IsEmailRun(s[..1]) && IsEmailRun(s[1 + 1..3]) && IsEmailRun(s[3 + 1..]);
    if ValidateEmail("a b@c.d") {
      EmailHasNoWhitespace("a b@c.d", 1);
    }
    if ValidateEmail("a@@b.c") {
      EmailHasOneAt("a@@b.c", 1, 2);
    }
  }

  /** The three classes of the lookaheads and of the whitelist. */
  datatype CharClass = Letter | Digit | Symbol

  /** `[A-Za-z]`, `\d` (ASCII digits only, no `u` flag) and `[@$!%*?&]`. */
  predicate InClass(c: char, k: CharClass) {
    match k
    case Letter => ('A' <= c <= 'Z') || ('a' <= c <= 'z')
    case Digit => '0' <= c <= '9'
    case Symbol => c == '@' || c == '$' || c == '!' || c == '%' || c == '*' || c == '?' || c == '&'
  }

  /** `[A-Za-z\d@$!%*?&]` */
  predicate IsPasswordChar(c: char) {
    InClass(c, Letter) || InClass(c, Digit) || InClass(c, Symbol)
  }

  /**
   * The lookahead `(?=.*[class])` at the start of the input: some character of
   * the class occurs with no line terminator before it (`.` stops at one).
   */
  predicate LookaheadFinds(p: string, k: CharClass) {
    exists i | 0 <= i < |p| :: InClass(p[i], k) && forall m | 0 <= m < i :: !IsLineTerminator(p[m])
  }

  /** `validatePassword`: `^(?=.*[A-Za-z])(?=.*\d)(?=.*[@$!%*?&])[A-Za-z\d@$!%*?&]{8,}$` matches `p`. */
  predicate ValidatePassword(p: string)
    ensures ValidatePassword(p) ==> 8 <= |p| && forall i | 0 <= i < |p| :: !IsWhitespace(p[i])
  {
    LookaheadFinds(p, Letter) && LookaheadFinds(p, Digit) && LookaheadFinds(p, Symbol) &&
    |p| >= 8 && forall i | 0 <= i < |p| :: IsPasswordChar(p[i])
  }

  predicate Contains(p: string, k: CharClass) {
    exists i | 0 <= i < |p| :: InClass(p[i], k)
  }

  /** Password rule in plain terms: length, whitelist, and one letter, one digit and one symbol. */
  lemma PasswordRuleIff(p: string)
    ensures ValidatePassword(p) <==>
      |p| >= 8 && (forall i | 0 <= i < |p| :: IsPasswordChar(p[i])) &&
      Contains(p, Letter) && Contains(p, Digit) && Contains(p, Symbol)
  {
    if |p| >= 8 && (forall i | 0 <= i < |p| :: IsPasswordChar(p[i])) {
      forall k: CharClass | Contains(p, k) ensures LookaheadFinds(p, k) {
        var i :| 0 <= i < |p| && InClass(p[i], k);
        assert forall m | 0 <= m < i :: IsPasswordChar(p[m]);
      }
    }
  }

  /** A character outside the whitelist anywhere rejects the whole password. */
  lemma ForeignCharRejects(p: string, i: int)
    requires 0 <= i < |p| && !IsPasswordChar(p[i])
    ensures !ValidatePassword(p)
  {
  }

  lemma PasswordAccepted()
    ensures ValidatePassword("Passw0rd!")
  {
    var p := "Passw0rd!";
    assert forall i | 0 <= i < |p| :: IsPasswordChar(p[i]);
    assert InClass(p[0], Letter) && InClass(p[5], Digit) && InClass(p[8], Symbol);
    PasswordRuleIff(p);
  }

  lemma PasswordRejected()
    ensures !ValidatePassword("Passw0rd#") && !ValidatePassword("Pass w0rd!")
    ensures !ValidatePassword("Pa0!")
  {
    ForeignCharRejects("Passw0rd#", 8);
    ForeignCharRejects("Pass w0rd!", 4);
  }

  /** Whitelisted and long enough is not enough: the digit and the symbol are each required. */
  lemma PasswordNeedsEveryClass()
    ensures !ValidatePassword("Password!") && !ValidatePassword("Passw0rdd")
  {
    var p, q := "Password!", "Passw0rdd";
    assert forall i | 0 <= i < |p| :: !InClass(p[i], Digit);
    assert forall i | 0 <= i < |q| :: !InClass(q[i], Symbol);
  }
}
