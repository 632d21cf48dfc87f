/**
 * isValidEmail (server/service/user_service.go): the pattern
 * ^[a-zA-Z0-9._%+-]+@[a-zA-Z0-9.-]+\.[a-zA-Z]{2,}$ as a declarative predicate,
 * and a direct recognizer proved to accept exactly the same strings.
 */
module Email {
  predicate IsLetter(c: char) {
    'a' <= c <= 'z' || 'A' <= c <= 'Z'
  }

  predicate IsAsciiDigit(c: char) {
    '0' <= c <= '9'
  }

  /** [a-zA-Z0-9._%+-] */
  predicate IsLocalChar(c: char) {
    IsLetter(c) || IsAsciiDigit(c) || c == '.' || c == '_' || c == '%' || c == '+' || c == '-'
  }

  /** [a-zA-Z0-9.-] */
  predicate IsDomainChar(c: char) {
    IsLetter(c) || IsAsciiDigit(c) || c == '.' || c == '-'
  }

  predicate AllLocal(s: string) {
    forall k :: 0 <= k < |s| ==> IsLocalChar(s[k])
  }

  predicate AllDomain(s: string) {
    forall k :: 0 <= k < |s| ==> IsDomainChar(s[k])
  }

  predicate AllLetters(s: string) {
    forall k :: 0 <= k < |s| ==> IsLetter(s[k])
  }

  /** The regular expression: some '@' at i and some '.' at j split the address into its three parts. */
  ghost predicate MatchesEmailPattern(email: string) {
    exists i, j :: 0 < i && i + 1 < j && j + 2 < |email| &&
      email[i] == '@' && email[j] == '.' &&
      AllLocal(email[..i]) && AllDomain(email[i + 1..j]) && AllLetters(email[j + 1..])
  }

  /** The position of the first c in s, or -1. */
  function IndexOf(s: string, c: char): (i: int)
    ensures -1 <= i < |s|
    ensures i >= 0 ==> s[i] == c
    ensures forall k :: 0 <= k < |s| && (i < 0 || k < i) ==> s[k] != c
  {
    if s == [] then -1
    else if s[0] == c then 0
    else
      var rest := IndexOf(s[1..], c);
      if rest < 0 then -1 else rest + 1
  }

  /** The position of the last c in s, or -1. */
  function LastIndexOf(s: string, c: char): (j: int)
    ensures -1 <= j < |s|
    ensures j >= 0 ==> s[j] == c
    ensures forall k :: 0 <= k < |s| && j < k ==> s[k] != c
  {
    if s == [] then -1
    else if s[|s| - 1] == c then |s| - 1
    else LastIndexOf(s[..|s| - 1], c)
  }

  /**
   * isValidEmail: the '@' must be the first one (the local part cannot hold
   * '@') and the '.' the last one (the top-level label holds only letters).
   */
  function IsValidEmail(email: string): (ok: bool)
    ensures ok ==> |email| >= 6 && '@' in email && '.' in email
  {
    var i := IndexOf(email, '@');
    var j := LastIndexOf(email, '.');
    0 < i && i + 1 < j && j + 2 < |email| &&
    AllLocal(email[..i]) && AllDomain(email[i + 1..j]) && AllLetters(email[j + 1..])
  }

  /** The recognizer accepts exactly the strings the pattern matches. */
  lemma IsValidEmailMatchesPattern(email: string)
    ensures IsValidEmail(email) <==> MatchesEmailPattern(email)
  {
    if MatchesEmailPattern(email) {
      var i, j :| 0 < i && i + 1 < j && j + 2 < |email| &&
        email[i] == '@' && email[j] == '.' &&
        AllLocal(email[..i]) && AllDomain(email[i + 1..j]) && AllLetters(email[j + 1..]);
      FirstAtIsSplit(email, i);
      LastDotIsSplit(email, j);
    }
  }

  /** The pattern's '@' is the first one: the local part holds none. */
  lemma FirstAtIsSplit(email: string, i: int)
    requires 0 < i < |email| && email[i] == '@' && AllLocal(email[..i])
    ensures IndexOf(email, '@') == i
  {
    forall k | 0 <= k < i ensures email[k] != '@' {
      assert email[..i][k] == email[k];
    }
  }

  /** The pattern's '.' is the last one: the top-level label holds none. */
  lemma LastDotIsSplit(email: string, j: int)
    requires 0 <= j < |email| && email[j] == '.' && AllLetters(email[j + 1..])
    ensures LastIndexOf(email, '.') == j
  {
    forall k | j < k < |email| ensures email[k] != '.' {
      assert email[j + 1..][k - j - 1] == email[k];
    }
  }

  /** An address has exactly one '@'. */
  lemma ValidEmailHasOneAt(email: string, k: int)
    requires IsValidEmail(email) && 0 <= k < |email| && email[k] == '@'
    ensures k == IndexOf(email, '@')
  {
    var i := IndexOf(email, '@');
    var j := LastIndexOf(email, '.');
    if k > i {
      NoAtAfterLocalPart(email, i, j, k);
    }
  }

  lemma NoAtAfterLocalPart(email: string, i: int, j: int, p: int)
    requires 0 <= i && i + 1 < j < |email| && email[j] == '.'
    requires AllDomain(email[i + 1..j]) && AllLetters(email[j + 1..])
    requires i < p < |email|
    ensures email[p] != '@'
  {
    if p < j {
      assert email[i + 1..j][p - i - 1] == email[p];
    } else if p > j {
      assert email[j + 1..][p - j - 1] == email[p];
    }
  }

  lemma Examples()
    ensures IsValidEmail("a@b.cd")
    ensures !IsValidEmail("a@b.c")
    ensures !IsValidEmail("@b.cd")
    ensures !IsValidEmail("a@.cd")
  {
    assert IndexOf("a@b.cd", '@') == 1;
    assert LastIndexOf("a@b.cd", '.') == 3;
    assert LastIndexOf("a@b.c", '.') == 3;
    assert IndexOf("@b.cd", '@') == 0;
    assert IndexOf("a@.cd", '@') == 1;
    assert LastIndexOf("a@.cd", '.') == 2;
  }
}
