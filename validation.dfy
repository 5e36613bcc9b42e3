/** The field rules of the sign-in, registration and profile forms: the
    email pattern `^[A-Z0-9._%+-]+@[A-Z0-9.-]+\.[A-Z]{2,}$` (case-insensitive),
    the length rules, the password confirmation, which message wins when a
    value breaks several rules, and the favourite-genre toggle. */
module Validation {
  import opened Common

  // ---------------------------------------------------------------------
  // The email pattern

  /** An ASCII letter of either case: the pattern's `[A-Z]` under the `i` flag. */
  predicate IsLetter(c: char)
  {
    'A' <= c <= 'Z' || 'a' <= c <= 'z'
  }

  predicate IsDigit(c: char)
  {
    '0' <= c <= '9'
  }

  /** `[A-Z0-9._%+-]`: the characters of the part before the `@`. */
  predicate IsLocalChar(c: char)
  {
    IsLetter(c) || IsDigit(c) || c == '.' || c == '_' || c == '%' || c == '+' || c == '-'
  }

  /** `[A-Z0-9.-]`: the characters of the domain before the last dot. */
  predicate IsDomainChar(c: char)
  {
    IsLetter(c) || IsDigit(c) || c == '.' || c == '-'
  }

  /** The pattern with its split written out: `s[..at]` is the local part,
      `s[at]` the `@`, `s[at+1..dot]` the domain, `s[dot]` a dot and
      `s[dot+1..]` a top-level domain of at least two letters. */
  predicate EmailSplit(s: string, at: int, dot: int)
  {
    && 0 < at && at + 1 < dot && dot + 3 <= |s|
    && s[at] == '@' && s[dot] == '.'
    && (forall k :: 0 <= k < at ==> IsLocalChar(s[k]))
    && (forall k :: at + 1 <= k < dot ==> IsDomainChar(s[k]))
    && (forall k :: dot + 1 <= k < |s| ==> IsLetter(s[k]))
  }

  /** A string the pattern accepts: some split of it fits. */
  ghost predicate IsEmail(s: string)
    ensures IsEmail(s) ==> |s| >= 6
  {
    exists at, dot :: EmailSplit(s, at, dot)
  }

  /** The first position of `c` in `s`. */
  function IndexOf(s: string, c: char): (r: Option<nat>)
    ensures r.Some? ==> r.value < |s| && s[r.value] == c && forall k :: 0 <= k < r.value ==> s[k] != c
    ensures r.None? ==> forall k :: 0 <= k < |s| ==> s[k] != c
    decreases |s|
  {
    if s == [] then None
    else if s[0] == c then Some(0)
    else match IndexOf(s[1..], c)
      case None => None
      case Some(i) => Some(i + 1)
  }

  /** The last position of `c` in `s`. */
  function LastIndexOf(s: string, c: char): (r: Option<nat>)
    ensures r.Some? ==> r.value < |s| && s[r.value] == c && forall k :: r.value < k < |s| ==> s[k] != c
    ensures r.None? ==> forall k :: 0 <= k < |s| ==> s[k] != c
    decreases |s|
  {
    if s == [] then None
    else if s[|s| - 1] == c then Some(|s| - 1)
    else LastIndexOf(s[..|s| - 1], c)
  }

  /** The pattern as one left-to-right check: the `@` is the first one, the
      dot before the top-level domain is the last dot after it. */
  function MatchEmail(s: string): bool
  {
    match IndexOf(s, '@')
    case None => false
    case Some(at) =>
      match LastIndexOf(s[at + 1..], '.')
      case None => false
      case Some(k) => EmailSplit(s, at, at + 1 + k)
  }

  /** The check accepts exactly the strings the pattern describes. */
  lemma MatchEmailIffIsEmail(s: string)
    ensures MatchEmail(s) <==> IsEmail(s)
  {
    if IsEmail(s) {
      var at, dot :| EmailSplit(s, at, dot);
      assert IndexOf(s, '@') == Some(at) by {
        var r := IndexOf(s, '@');
        assert r.Some?;
      }
      var rest := s[at + 1..];
      assert LastIndexOf(rest, '.') == Some(dot - at - 1) by {
        var r := LastIndexOf(rest, '.');
        assert rest[dot - at - 1] == '.';
        assert r.Some?;
      }
    }
  }

  /** An accepted address has exactly one `@`: no character class of the
      pattern admits one. */
  lemma EmailHasOneAt(s: string)
    requires IsEmail(s)
    ensures exists at :: 0 <= at < |s| && s[at] == '@' && forall k :: 0 <= k < |s| && s[k] == '@' ==> k == at
  {
    var at, dot :| EmailSplit(s, at, dot);
    assert !IsLocalChar('@') && !IsDomainChar('@') && !IsLetter('@');
    assert forall k :: 0 <= k < |s| && k != at ==> s[k] != '@' by {
      forall k | 0 <= k < |s| && k != at
        ensures s[k] != '@'
      {
        assert k < at || (at < k < dot) || k == dot || dot < k;
      }
    }
  }

  // ---------------------------------------------------------------------
  // Field rules of the registration and sign-in forms

  /** A rule's verdict: the message of the first rule the value breaks. */
  function FirstError(required: bool, requiredMsg: string, other: bool, otherMsg: string, value: string): (r: Option<string>)
    ensures value == [] && required ==> r == Some(requiredMsg)
    ensures !(value == [] && required) && other ==> r == Some(otherMsg)
    ensures r.None? <==> !(value == [] && required) && !other
  {
    if value == [] && required then Some(requiredMsg)
    else if other then Some(otherMsg)
    else None
  }

  /** Registration name: required, at least two characters. */
  function NameError(name: string): (r: Option<string>)
    ensures r.None? <==> |name| >= 2
    ensures name == [] ==> r == Some("El nombre es requerido")
    ensures |name| == 1 ==> r == Some("El nombre debe tener al menos 2 caracteres")
  {
    FirstError(true, "El nombre es requerido", |name| < 2, "El nombre debe tener al menos 2 caracteres", name)
  }

  /** Email on both forms: required, then the pattern. */
  function EmailError(email: string): (r: Option<string>)
    ensures r.None? <==> IsEmail(email)
    ensures email == [] ==> r == Some("El correo electrónico es requerido")
    ensures email != [] && !IsEmail(email) ==> r == Some("Correo electrónico inválido")
  {
    MatchEmailIffIsEmail(email);
    assert email == [] ==> !IsEmail(email);
    FirstError(true, "El correo electrónico es requerido", !MatchEmail(email), "Correo electrónico inválido", email)
  }

  /** Password on both forms: required, at least six characters. */
  function PasswordError(password: string): (r: Option<string>)
    ensures r.None? <==> |password| >= 6
    ensures password == [] ==> r == Some("La contraseña es requerida")
    ensures 0 < |password| < 6 ==> r == Some("La contraseña debe tener al menos 6 caracteres")
  {
    FirstError(true, "La contraseña es requerida", |password| < 6, "La contraseña debe tener al menos 6 caracteres", password)
  }

  /** Registration confirmation: required, then equal to the password. */
  function ConfirmError(confirm: string, password: string): (r: Option<string>)
    ensures r.None? <==> confirm != [] && confirm == password
    ensures confirm == [] ==> r == Some("Confirma tu contraseña")
    ensures confirm != [] && confirm != password ==> r == Some("Las contraseñas no coinciden")
  {
    FirstError(true, "Confirma tu contraseña", confirm != password, "Las contraseñas no coinciden", confirm)
  }

  /** A registration that passes every rule has a password of at least six
      characters twice, a name of at least two and an address with one `@`. */
  lemma RegistrationAccepted(name: string, email: string, password: string, confirm: string)
    requires NameError(name).None? && EmailError(email).None?
    requires PasswordError(password).None? && ConfirmError(confirm, password).None?
    ensures |confirm| >= 6 && |name| >= 2
    ensures exists at :: 0 <= at < |email| && email[at] == '@' &&
              forall k :: 0 <= k < |email| && email[k] == '@' ==> k == at
  {
    EmailHasOneAt(email);
  }

  // ---------------------------------------------------------------------
  // The profile form

  datatype Field = NameField | EmailField | BioField

  const NameRequired := "El nombre es requerido"
  const EmailRequired := "El email es requerido"
  const EmailInvalid := "Email inválido"

  /** The profile form's name message: only for a blank name. */
  function ProfileNameError(name: string): (r: Option<string>)
    ensures r.None? <==> !IsBlank(name)
    ensures r.Some? ==> r.value == NameRequired
  {
    TrimEmptyIffBlank(name);
    if Trim(name) == [] then Some(NameRequired) else None
  }

  /** The profile form's email message: "requerido" for a blank email, else
      "inválido" when the untrimmed email does not match; never both. */
  function ProfileEmailError(email: string): (r: Option<string>)
    ensures r.None? <==> !IsBlank(email) && IsEmail(email)
    ensures IsBlank(email) ==> r == Some(EmailRequired)
    ensures !IsBlank(email) && !IsEmail(email) ==> r == Some(EmailInvalid)
  {
    TrimEmptyIffBlank(email);
    MatchEmailIffIsEmail(email);
    if Trim(email) == [] then Some(EmailRequired)
    else if !MatchEmail(email) then Some(EmailInvalid)
    else None
  }

  /** An error record with an entry for each field that has a message. */
  function ErrorRecord(nameError: Option<string>, emailError: Option<string>): (r: map<Field, string>)
    ensures NameField in r <==> nameError.Some?
    ensures NameField in r ==> r[NameField] == nameError.value
    ensures EmailField in r <==> emailError.Some?
    ensures EmailField in r ==> r[EmailField] == emailError.value
    ensures BioField !in r
  {
    if nameError.Some? && emailError.Some? then map[NameField := nameError.value, EmailField := emailError.value]
    else if nameError.Some? then map[NameField := nameError.value]
    else if emailError.Some? then map[EmailField := emailError.value]
    else map[]
  }

  /** `validateForm`'s error record. */
  function ProfileErrors(name: string, email: string): map<Field, string>
  {
    ErrorRecord(ProfileNameError(name), ProfileEmailError(email))
  }

  /** The form is valid exactly when the name is not blank and the email is
      a non-blank address the pattern accepts. */
  lemma ProfileValidIff(name: string, email: string)
    ensures |ProfileErrors(name, email)| == 0 <==> !IsBlank(name) && !IsBlank(email) && IsEmail(email)
  {
    var r := ErrorRecord(ProfileNameError(name), ProfileEmailError(email));
    MatchEmailIffIsEmail(email);
    if |r| == 0 {
      assert NameField !in r && EmailField !in r;
    } else {
      var f :| f in r;
    }
  }

  // ---------------------------------------------------------------------
  // Favourite genres

  const ProfileGenres: seq<string> := [
    "Ficción", "No ficción", "Misterio", "Romance", "Ciencia ficción",
    "Fantasía", "Historia", "Biografía", "Autoayuda", "Ensayo",
    "Poesía", "Teatro", "Cómic", "Juvenil", "Infantil"
  ]

  /** `handleGenreToggle`: a selected genre is removed, any other is appended. */
  function Toggle(genres: seq<string>, g: string): (r: seq<string>)
    ensures g in r <==> g !in genres
    ensures forall x :: x != g ==> (x in r <==> x in genres)
    ensures g !in genres ==> r == genres + [g]
  {
    if g in genres then Filter(genres, (x: string) => x != g) else genres + [g]
  }

  predicate NoDuplicates<T(==)>(s: seq<T>)
  {
    forall i, j :: 0 <= i < j < |s| ==> s[i] != s[j]
  }

  lemma {:induction false} FilterNoDuplicates<T(!new)>(s: seq<T>, p: T -> bool)
    requires NoDuplicates(s)
    ensures NoDuplicates(Filter(s, p))
    decreases |s|
  {
    if s != [] {
      assert NoDuplicates(s[1..]);
      FilterNoDuplicates(s[1..], p);
      var tail := Filter(s[1..], p);
      if p(s[0]) {
        assert s[0] !in s[1..];
        assert s[0] !in tail;
        var r := [s[0]] + tail;
        forall i, j | 0 <= i < j < |r|
          ensures r[i] != r[j]
        {
          if i == 0 {
            assert r[j] == tail[j - 1];
          } else {
            assert r[i] == tail[i - 1] && r[j] == tail[j - 1];
          }
        }
      } else {
        assert Filter(s, p) == tail;
      }
    }
  }

  /** Toggling never makes a genre appear twice. */
  lemma ToggleNoDuplicates(genres: seq<string>, g: string)
    requires NoDuplicates(genres)
    ensures NoDuplicates(Toggle(genres, g))
  {
    if g in genres {
      FilterNoDuplicates(genres, (x: string) => x != g);
    }
  }

  /** Toggling an unselected genre twice gives back the same list, in order. */
  lemma ToggleTwiceRestores(genres: seq<string>, g: string)
    requires g !in genres
    ensures Toggle(Toggle(genres, g), g) == genres
  {
    var p := (x: string) => x != g;
    FilterAppend(genres, [g], p);
    FilterKeepsAll(genres, p);
    FilterSingleton(g, p);
  }
}
