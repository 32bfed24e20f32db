/**
 * Credential format rules shared by the login and registration screens:
 * the e-mail regular expression `^[^\s@]+@[^\s@]+\.[^\s@]+$`, the minimum
 * password length, and the ordered list of rule violations the forms report.
 */
module Credentials {

  // ---------------------------------------------------------------------
  // Characters
  // ---------------------------------------------------------------------

  /** JavaScript's `\s`: the ECMAScript WhiteSpace and LineTerminator code points. */
  predicate IsSpace(c: char) {
    var n := c as int;
    (0x09 <= n <= 0x0D) || n == 0x20 || n == 0xA0 || n == 0x1680
    || (0x2000 <= n <= 0x200A) || n == 0x2028 || n == 0x2029
    || n == 0x202F || n == 0x205F || n == 0x3000 || n == 0xFEFF
  }

  /** The character class `[^\s@]`. */
  predicate IsAddressChar(c: char) {
    !IsSpace(c) && c != '@'
  }

  /** Every character of `s` at an index in `[a, b)` belongs to `[^\s@]`. */
  predicate AddressChars(s: string, a: nat, b: nat)
    requires a <= b <= |s|
  {
    forall k :: a <= k < b ==> IsAddressChar(s[k])
  }

  /** No character of `s` at an index in `[a, b)` is in `\s`. */
  predicate NoSpace(s: string, a: nat, b: nat)
    requires a <= b <= |s|
  {
    forall k :: a <= k < b ==> !IsSpace(s[k])
  }

  /** Number of occurrences of `c` in `s`. */
  function Count(s: string, c: char): (n: nat)
    ensures n <= |s|
    ensures n == 0 <==> c !in s
  {
    if s == [] then 0 else (if s[0] == c then 1 else 0) + Count(s[1..], c)
  }

  lemma {:induction false} CountAppend(s: string, t: string, c: char)
    ensures Count(s + t, c) == Count(s, c) + Count(t, c)
  {
    if s == [] {
      assert s + t == t;
    } else {
      assert (s + t)[1..] == s[1..] + t;
      CountAppend(s[1..], t, c);
    }
  }

  /** Index of the first `c` in `s`, or `|s|` when `s` holds none. */
  function IndexOf(s: string, c: char): (i: nat)
    ensures i <= |s|
    ensures i < |s| ==> s[i] == c
    ensures forall k :: 0 <= k < i ==> s[k] != c
  {
    if s == [] then 0
    else if s[0] == c then 0
    else 1 + IndexOf(s[1..], c)
  }

  // ---------------------------------------------------------------------
  // E-mail
  // ---------------------------------------------------------------------

  /**
   * The regular expression `^[^\s@]+@[^\s@]+\.[^\s@]+$` matches `s` with
   * its literal `@` at index `i` and its literal `\.` at index `j`: each of
   * the three runs `[^\s@]+` around them is non-empty.
   */
  ghost predicate RegexSplit(s: string, i: int, j: int) {
    0 < i && i + 1 < j && j + 1 < |s| && s[i] == '@' && s[j] == '.'
    && AddressChars(s, 0, i) && AddressChars(s, i + 1, j) && AddressChars(s, j + 1, |s|)
  }

  /** The e-mail regular expression, read literally: some split of `s` matches it. */
  ghost predicate MatchesEmailRegex(s: string) {
    exists i, j :: RegexSplit(s, i, j)
  }

  /** Some `.` of `s` lies strictly between `a` and the last character. */
  predicate HasInnerDot(s: string, a: nat) {
    exists m :: a < m < |s| - 1 && s[m] == '.'
  }

  /** `isValidEmail` of the login and registration screens, as a scan from the first `@`. */
  predicate IsValidEmail(s: string) {
    var i := IndexOf(s, '@');
    0 < i < |s| && AddressChars(s, 0, i) && AddressChars(s, i + 1, |s|) && HasInnerDot(s, i + 1)
  }

  /** The scan accepts exactly the strings the regular expression matches. */
  lemma ValidEmailIffRegex(s: string)
    ensures IsValidEmail(s) <==> MatchesEmailRegex(s)
  {
    if IsValidEmail(s) {
      var i := IndexOf(s, '@');
      var j :| i + 1 < j < |s| - 1 && s[j] == '.';
      assert RegexSplit(s, i, j);
    }
    if MatchesEmailRegex(s) {
      var i, j :| RegexSplit(s, i, j);
      FirstAt(s, i);
      assert s[j] == '.';
    }
  }

  /** An `@` preceded by no `@` is the one `IndexOf` finds. */
  lemma FirstAt(s: string, i: nat)
    requires i < |s| && s[i] == '@'
    requires forall k :: 0 <= k < i ==> s[k] != '@'
    ensures IndexOf(s, '@') == i
  {
  }

  /**
   * The shape the regular expression describes, in words: exactly one `@`;
   * before it a non-empty run without whitespace; after it no whitespace, and
   * a `.` that is neither its first nor its last character.
   */
  lemma {:induction false} ValidEmailShape(s: string)
    ensures IsValidEmail(s) <==>
      (Count(s, '@') == 1
       && var i := IndexOf(s, '@');
          0 < i < |s| && NoSpace(s, 0, i) && NoSpace(s, i + 1, |s|) && HasInnerDot(s, i + 1))
  {
    var i := IndexOf(s, '@');
    if i < |s| {
      var pre, post := s[..i], s[i + 1..];
      assert s == pre + ([s[i]] + post);
      CountAppend(pre, [s[i]] + post, '@');
      CountAppend([s[i]], post, '@');
      assert '@' !in pre by {
        forall k | 0 <= k < i ensures pre[k] != '@' { }
      }
      assert Count(s, '@') == 1 + Count(post, '@');
      assert '@' in post <==> exists k :: i + 1 <= k < |s| && s[k] == '@' by {
        forall k | i + 1 <= k < |s| ensures s[k] == post[k - i - 1] { }
      }
    } else {
      assert '@' !in s;
    }
  }

  // ---------------------------------------------------------------------
  // Password
  // ---------------------------------------------------------------------

  /** A code point outside the Basic Multilingual Plane: two UTF-16 code units. */
  predicate IsAstral(c: char) {
    c as int >= 0x10000
  }

  /** JavaScript's `length` of `s`: its number of UTF-16 code units. */
  function CodeUnits(s: string): (n: nat)
    ensures |s| <= n <= 2 * |s|
  {
    if s == [] then 0 else (if IsAstral(s[0]) then 2 else 1) + CodeUnits(s[1..])
  }

  /** `isValidPassword`: a length of at least 8. */
  predicate IsValidPassword(p: string) {
    CodeUnits(p) >= 8
  }

  /** For text inside the Basic Multilingual Plane the JavaScript length is the character count. */
  lemma {:induction false} CodeUnitsOfBmp(s: string)
    requires forall k :: 0 <= k < |s| ==> !IsAstral(s[k])
    ensures CodeUnits(s) == |s|
  {
    if s != [] {
      CodeUnitsOfBmp(s[1..]);
    }
  }

  /** The password rule on Basic Multilingual Plane text: at least 8 characters, so 8 passes and 7 fails. */
  lemma ValidPasswordBmp(p: string)
    requires forall k :: 0 <= k < |p| ==> !IsAstral(p[k])
    ensures IsValidPassword(p) <==> |p| >= 8
  {
    CodeUnitsOfBmp(p);
  }

  /** Eight characters always pass; three or fewer always fail, whatever the characters. */
  lemma PasswordLengthBounds(p: string)
    ensures |p| >= 8 ==> IsValidPassword(p)
    ensures |p| < 4 ==> !IsValidPassword(p)
  {
  }

  // ---------------------------------------------------------------------
  // Violations, in the order the forms test them
  // ---------------------------------------------------------------------

  datatype Violation = MissingField | InvalidEmail | ShortPassword | PasswordMismatch

  /** Position of a rule in the chain: a lower rank is tested first. */
  function Rank(v: Violation): nat {
    match v
    case MissingField => 0
    case InvalidEmail => 1
    case ShortPassword => 2
    case PasswordMismatch => 3
  }

  /** The alert text each screen shows for a violated rule. */
  function Message(v: Violation): (m: string)
    ensures m != ""
  {
    match v
    case MissingField => "Por favor, llena todos los campos."
    case InvalidEmail => "Por favor, ingresa un correo electrónico válido."
    case ShortPassword => "La contraseña debe tener al menos 8 caracteres."
    case PasswordMismatch => "Las contraseñas no coinciden."
  }

  /** Distinct rules report distinct texts, so the alert tells which rule failed. */
  lemma MessagesDistinct(v: Violation, w: Violation)
    ensures Message(v) == Message(w) <==> v == w
  {
  }
}
