/** The field rules the users, settings and reset-password forms share: the
    name length bound, the e-mail pattern and the password-strength pattern.
    Each pattern is given as the regular expression reads, and the e-mail one
    is also characterised without it. */
module Validation {
  import opened Common

  /** `\s` in a JavaScript regular expression without the `u` flag: the
      ECMAScript white-space and line-terminator characters. */
  predicate IsRegexSpace(c: char)
  {
    c == '\t' || c == '\n' || c == '\U{B}' || c == '\U{C}' || c == '\r' || c == ' '
    || c == '\U{A0}' || c == '\U{1680}' || ('\U{2000}' <= c <= '\U{200A}')
    || c == '\U{2028}' || c == '\U{2029}' || c == '\U{202F}' || c == '\U{205F}'
    || c == '\U{3000}' || c == '\U{FEFF}'
  }

  /** The characters `.` refuses to match. */
  predicate IsLineTerminator(c: char)
  {
    c == '\n' || c == '\r' || c == '\U{2028}' || c == '\U{2029}'
  }

  /** The name rule of both profile forms: at least 2 and at most 100
      characters (`!name || name.length < 2`, `name.length > 100`). */
  predicate ValidName(name: string)
  {
    2 <= |name| <= 100
  }

  // ---------------------------------------------------------------------
  // E-mail: /^[^\s@]+@[^\s@]+\.[^\s@]+$/

  predicate EmailChar(c: char)
  {
    !IsRegexSpace(c) && c != '@'
  }

  /** `[^\s@]+` */
  predicate EmailRun(s: string)
  {
    |s| > 0 && forall i | 0 <= i < |s| :: EmailChar(s[i])
  }

  /** The pattern matches with its `@` at `at` and its `\.` at `dot`. */
  predicate EmailMatchesAt(s: string, at: int, dot: int)
  {
    && 0 <= at < dot < |s|
    && s[at] == '@' && s[dot] == '.'
    && EmailRun(s[..at]) && EmailRun(s[at + 1..dot]) && EmailRun(s[dot + 1..])
  }

  /** The e-mail pattern of the users and settings forms accepts `s`. */
  predicate ValidEmail(s: string)
  {
    exists at, dot | 0 <= at < dot < |s| :: EmailMatchesAt(s, at, dot)
  }

  function CountChar(s: string, c: char): (n: nat)
    ensures n <= |s|
  {
    if s == [] then 0 else (if s[0] == c then 1 else 0) + CountChar(s[1..], c)
  }

  /** Index of the first `c` in `s`, or `|s|` when there is none. */
  function IndexOf(s: string, c: char): (r: nat)
    ensures r <= |s|
    ensures r < |s| ==> s[r] == c
    ensures r == |s| ==> forall i | 0 <= i < |s| :: s[i] != c
    ensures forall i | 0 <= i < r :: s[i] != c
  {
    if s == [] then 0
    else if s[0] == c then 0
    else 1 + IndexOf(s[1..], c)
  }

  predicate NoRegexSpace(s: string)
  {
    forall i | 0 <= i < |s| :: !IsRegexSpace(s[i])
  }

  /** A `.` with at least one character on each side. */
  predicate HasInnerDot(d: string)
  {
    exists k | 0 < k < |d| - 1 :: d[k] == '.'
  }

  /** The e-mail rule said in words: exactly one `@`, no white space, a
      non-empty part before the `@`, and after it a `.` that is neither the
      first nor the last character. */
  predicate EmailShape(s: string)
  {
    && CountChar(s, '@') == 1
    && NoRegexSpace(s)
    && var at := IndexOf(s, '@');
       0 < at < |s| && HasInnerDot(s[at + 1..])
  }

  lemma {:induction false} CountZero(s: string, c: char)
    ensures CountChar(s, c) == 0 <==> forall i | 0 <= i < |s| :: s[i] != c
  {
    if s != [] {
      CountZero(s[1..], c);
      assert forall i | 1 <= i < |s| :: s[i] == s[1..][i - 1];
    }
  }

  /** A character that occurs only at `at` is counted once and found there. */
  lemma {:induction false} CountOnlyAt(s: string, c: char, at: int)
    requires 0 <= at < |s| && s[at] == c
    requires forall i | 0 <= i < |s| && i != at :: s[i] != c
    ensures CountChar(s, c) == 1 && IndexOf(s, c) == at
  {
    if at == 0 {
      CountZero(s[1..], c);
    } else {
      CountOnlyAt(s[1..], c, at - 1);
    }
  }

  /** A character counted once occurs nowhere but at its first index. */
  lemma {:induction false} CountOneUnique(s: string, c: char)
    requires CountChar(s, c) == 1
    ensures IndexOf(s, c) < |s|
    ensures forall i | 0 <= i < |s| && i != IndexOf(s, c) :: s[i] != c
  {
    if s[0] == c {
      CountZero(s[1..], c);
      assert forall i | 1 <= i < |s| :: s[i] == s[1..][i - 1];
    } else {
      CountOneUnique(s[1..], c);
      assert forall i | 1 <= i < |s| :: s[i] == s[1..][i - 1];
    }
  }

  /** The regular expression and the rule in words accept the same strings. */
  lemma ValidEmailIffShape(s: string)
    ensures ValidEmail(s) <==> EmailShape(s)
  {
    if ValidEmail(s) {
      var at, dot :| 0 <= at < dot < |s| && EmailMatchesAt(s, at, dot);
      forall i | 0 <= i < |s| && i != at ensures EmailChar(s[i]) {
        if i < at {
          assert s[i] == s[..at][i];
        } else if i < dot {
          assert s[i] == s[at + 1..dot][i - at - 1];
        } else if i > dot {
          assert s[i] == s[dot + 1..][i - dot - 1];
        }
      }
      CountOnlyAt(s, '@', at);
      var d := s[at + 1..];
      assert d[dot - at - 1] == '.';
      assert HasInnerDot(d);
    }
    if EmailShape(s) {
      var at := IndexOf(s, '@');
      CountOneUnique(s, '@');
      var d := s[at + 1..];
      var k :| 0 < k < |d| - 1 && d[k] == '.';
      var dot := at + 1 + k;
      assert s[dot] == '.';
      assert EmailRun(s[..at]);
      var host, suffix := s[at + 1..dot], s[dot + 1..];
      forall i | 0 <= i < |host| ensures EmailChar(host[i]) {
        assert host[i] == s[at + 1 + i];
      }
      forall i | 0 <= i < |suffix| ensures EmailChar(suffix[i]) {
        assert suffix[i] == s[dot + 1 + i];
      }
      assert EmailMatchesAt(s, at, dot);
    }
  }

  // ---------------------------------------------------------------------
  // Password: /^(?=.*[a-zA-Z])(?=.*\d)(?=.*[!@#$%^&*()_+{}[\]:;<>,.?~/-]).{6,50}$/

  const PasswordSymbols: string := "!@#$%^&*()_+{}[]:;<>,.?~/-"

  datatype CharClass = Letter | Digit | Symbol

  predicate InClass(c: char, k: CharClass)
  {
    match k
    case Letter => IsAsciiUpper(c) || IsAsciiLower(c)
    case Digit => '0' <= c <= '9'
    case Symbol => c in PasswordSymbols
  }

  predicate HasClass(p: string, k: CharClass)
  {
    exists i | 0 <= i < |p| :: InClass(p[i], k)
  }

  predicate NoLineTerminator(p: string)
  {
    forall i | 0 <= i < |p| :: !IsLineTerminator(p[i])
  }

  /** The password-strength rule shared by every form: 6 to 50 characters, none
      of them a line terminator, with an ASCII letter, a digit and a symbol. */
  predicate StrongPassword(p: string)
  {
    && 6 <= |p| <= 50
    && NoLineTerminator(p)
    && HasClass(p, Letter) && HasClass(p, Digit) && HasClass(p, Symbol)
  }

  /** `(?=.*[k])` tried at the start of the input: a character of class `k`
      occurs with no line terminator before it. */
  predicate LookaheadFinds(p: string, k: CharClass)
  {
    exists i | 0 <= i < |p| :: InClass(p[i], k) && forall j | 0 <= j < i :: !IsLineTerminator(p[j])
  }

  /** The password regular expression, read operator by operator. */
  predicate PasswordPatternMatches(p: string)
  {
    && LookaheadFinds(p, Letter) && LookaheadFinds(p, Digit) && LookaheadFinds(p, Symbol)
    && 6 <= |p| <= 50 && NoLineTerminator(p)
  }

  /** The lookaheads add nothing beyond "the class occurs", because `.{6,50}$`
      already refuses every line terminator. */
  lemma StrongPasswordIsPattern(p: string)
    ensures StrongPassword(p) <==> PasswordPatternMatches(p)
  {
    if StrongPassword(p) {
      forall k: CharClass ensures LookaheadFinds(p, k) {
        var i :| 0 <= i < |p| && InClass(p[i], k);
        assert forall j | 0 <= j < i :: !IsLineTerminator(p[j]);
      }
    }
    if PasswordPatternMatches(p) {
      forall k: CharClass ensures HasClass(p, k) {
        var i :| 0 <= i < |p| && InClass(p[i], k) && forall j | 0 <= j < i :: !IsLineTerminator(p[j]);
      }
    }
  }

  // ---------------------------------------------------------------------
  // Form errors

  /** The keys of the profile forms (the settings page uses the first four). */
  datatype Field = Name | Email | CurrentPassword | Password | ConfirmPassword | Role

  /** The messages a form validation can leave under a field. */
  datatype FormError =
    | NameTooShort | NameTooLong | EmailRequired | EmailInvalid
    | PasswordRequired | NewPasswordRequired | ResetPasswordRequired | PasswordWeak | ProfilePasswordWeak
    | ConfirmRequired | ConfirmMismatch | RoleRequired | CurrentPasswordRequired

  /** The text shown under the field. */
  function Text(e: FormError): string
  {
    match e
    case NameTooShort => "Nome deve ter pelo menos 2 caracteres"
    case NameTooLong => "Nome não pode exceder 100 caracteres"
    case EmailRequired => "E-mail é obrigatório"
    case EmailInvalid => "E-mail inválido"
    case PasswordRequired => "Senha é obrigatória para novos usuários"
    case NewPasswordRequired => "Nova senha é obrigatória se confirmada"
    case ResetPasswordRequired => "Nova senha é obrigatória"
    case PasswordWeak => "Senha deve ter 6-50 caracteres, com letras, números e símbolos"
    case ProfilePasswordWeak => "Senha deve ter pelo menos 8 caracteres, com letras, números e símbolos"
    case ConfirmRequired => "Confirmação de senha é obrigatória"
    case ConfirmMismatch => "As senhas não coincidem"
    case RoleRequired => "Função é obrigatória"
    case CurrentPasswordRequired => "Senha atual é obrigatória para alterar a senha"
  }

  /** The name and e-mail checks both profile forms run first; a name over
      100 characters gets the "too long" message. */
  method IdentityErrors(name: string, email: string) returns (errors: map<Field, FormError>)
    ensures errors.Keys <= {Name, Email}
    ensures Name in errors <==> !ValidName(name)
    ensures Name in errors ==> errors[Name] == (if |name| > 100 then NameTooLong else NameTooShort)
    ensures Email in errors <==> !ValidEmail(email)
    ensures Email in errors ==> errors[Email] == (if email == "" then EmailRequired else EmailInvalid)
  {
    errors := map[];
    if name == "" || |name| < 2 {
      errors := errors[Name := NameTooShort];
    }
    if |name| > 100 {
      errors := errors[Name := NameTooLong];
    }
    if email == "" {
      errors := errors[Email := EmailRequired];
    } else if !ValidEmail(email) {
      errors := errors[Email := EmailInvalid];
    }
  }
}
