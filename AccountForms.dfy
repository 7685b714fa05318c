/**
 * The account forms (accounts_app/forms.py): the field cleaners shared by
 * the registration form and the administrator's user form, the two
 * password-confirmation checks, the notification form's check and the
 * username edit form.
 *
 * A cleaner returns the stripped value or the error it raises. The error
 * messages are replaced by the kind of error; a field that is absent from
 * the submitted data is the empty string, as `cleaned_data.get(f, "")`
 * reads it. The users table is a sequence of accounts.
 */
module AccountForms {
  import opened Wrappers
  import opened Text

  // ---------------------------------------------------------------------
  // Character classes
  // ---------------------------------------------------------------------

  /** `[A-Za-zÁÉÍÓÚáéíóúÑñ]`. */
  predicate IsNameLetter(c: char)
  {
    'A' <= c <= 'Z' || 'a' <= c <= 'z' || c in "ÁÉÍÓÚáéíóúÑñ"
  }

  /** `[A-Za-z0-9.]`, the class of usernames and of the local part of an email. */
  predicate IsUsernameChar(c: char)
  {
    'A' <= c <= 'Z' || 'a' <= c <= 'z' || '0' <= c <= '9' || c == '.'
  }

  /** `re.fullmatch(r'[A-Za-zÁÉÍÓÚáéíóúÑñ]+', s)`. */
  predicate AllNameLetters(s: string)
  {
    s != [] && forall k :: 0 <= k < |s| ==> IsNameLetter(s[k])
  }

  /** `re.fullmatch(r'[A-Za-z0-9.]+', s)`. */
  predicate AllUsernameChars(s: string)
  {
    s != [] && forall k :: 0 <= k < |s| ==> IsUsernameChar(s[k])
  }

  const GmailSuffix: string := "@gmail.com"
  const HotmailSuffix: string := "@hotmail.com"

  /** `s` is `local + suffix` with a non-empty local part of username characters. */
  predicate LocalThen(s: string, suffix: string)
  {
    |s| > |suffix| && s[|s| - |suffix|..] == suffix && AllUsernameChars(s[..|s| - |suffix|])
  }

  /** `re.match(r'^[a-zA-Z0-9.]+@(gmail|hotmail)\.com$', s)` on a stripped text. */
  predicate EmailShape(s: string)
  {
    LocalThen(s, GmailSuffix) || LocalThen(s, HotmailSuffix)
  }

  /** An email of the accepted shape is a local part of username characters followed by a provider's suffix. */
  lemma EmailShapeParts(s: string)
    requires EmailShape(s)
    ensures exists local: string, suffix: string ::
      (suffix == GmailSuffix || suffix == HotmailSuffix) && AllUsernameChars(local) && s == local + suffix
  {
    var suffix := if LocalThen(s, GmailSuffix) then GmailSuffix else HotmailSuffix;
    var local := s[..|s| - |suffix|];
    assert s == local + suffix;
  }

  /** Every local part of username characters followed by a provider's suffix has the accepted shape. */
  lemma EmailFromParts(local: string, suffix: string)
    requires suffix == GmailSuffix || suffix == HotmailSuffix
    requires AllUsernameChars(local)
    ensures EmailShape(local + suffix)
  {
    var s := local + suffix;
    assert s[|s| - |suffix|..] == suffix;
    assert s[..|s| - |suffix|] == local;
    assert LocalThen(s, suffix);
  }

  // ---------------------------------------------------------------------
  // Field cleaners
  // ---------------------------------------------------------------------

  datatype FieldError =
    | HasSpace               // "Solo se permite un nombre, sin espacios."
    | NotLetters             // "El nombre solo puede contener letras."
    | TooLong(maxLength: int)
    | TooShort(minLength: int)
    | UsernameTaken          // "Este nombre de usuario ya está registrado."
    | BadUsernameChars       // "... solo puede contener letras, números, y puntos."
    | EmailTaken             // "Este correo electrónico ya está registrado."
    | BadEmail               // "El correo electrónico debe ser de la forma ejemplo@(gmail|hotmail).com"

  /** The stored user fields the uniqueness checks read. */
  datatype Account = Account(id: int, username: string, email: string)

  function Usernames(users: seq<Account>): set<string>
  {
    set u | u in users :: u.username
  }

  function Emails(users: seq<Account>): set<string>
  {
    set u | u in users :: u.email
  }

  /** The usernames of every user but the one with primary key `pk`. */
  function UsernamesExcept(users: seq<Account>, pk: int): set<string>
  {
    set u | u in users && u.id != pk :: u.username
  }

  /**
   * `clean_name` and `clean_last_name`, which differ only in their
   * messages: a space is reported before any other non-letter, then the
   * length.
   */
  function CleanPersonName(raw: string, maxLength: int): (r: Result<string, FieldError>)
    ensures r.Ok? <==> AllNameLetters(Strip(raw)) && |Strip(raw)| <= maxLength
    ensures r.Ok? ==> r.value == Strip(raw)
    ensures ' ' in Strip(raw) ==> r == Err(HasSpace)
    ensures ' ' !in Strip(raw) && !AllNameLetters(Strip(raw)) ==> r == Err(NotLetters)
    ensures ' ' !in Strip(raw) && AllNameLetters(Strip(raw)) && |Strip(raw)| > maxLength ==> r == Err(TooLong(maxLength))
  {
    var name := Strip(raw);
    if ' ' in name then Err(HasSpace)
    else if !AllNameLetters(name) then Err(NotLetters)
    else if |name| > maxLength then Err(TooLong(maxLength))
    else Ok(name)
  }

  /**
   * `clean_username` of the registration and administrator forms: a taken
   * name is refused before its characters and its length are looked at.
   */
  function CleanUsername(raw: string, users: seq<Account>, maxLength: int): (r: Result<string, FieldError>)
    ensures r.Ok? <==>
      Strip(raw) !in Usernames(users) && AllUsernameChars(Strip(raw)) && |Strip(raw)| <= maxLength
    ensures r.Ok? ==> r.value == Strip(raw)
    ensures Strip(raw) in Usernames(users) ==> r == Err(UsernameTaken)
    ensures Strip(raw) !in Usernames(users) && !AllUsernameChars(Strip(raw)) ==> r == Err(BadUsernameChars)
    ensures Strip(raw) !in Usernames(users) && AllUsernameChars(Strip(raw)) && |Strip(raw)| > maxLength ==>
      r == Err(TooLong(maxLength))
  {
    var username := Strip(raw);
    if username in Usernames(users) then Err(UsernameTaken)
    else if !AllUsernameChars(username) then Err(BadUsernameChars)
    else if |username| > maxLength then Err(TooLong(maxLength))
    else Ok(username)
  }

  /** `clean_email`: a taken address is refused before its shape is looked at. */
  function CleanEmail(raw: string, users: seq<Account>): (r: Result<string, FieldError>)
    ensures r.Ok? <==> Strip(raw) !in Emails(users) && EmailShape(Strip(raw))
    ensures r.Ok? ==> r.value == Strip(raw)
    ensures Strip(raw) in Emails(users) ==> r == Err(EmailTaken)
    ensures Strip(raw) !in Emails(users) && !EmailShape(Strip(raw)) ==> r == Err(BadEmail)
  {
    var email := Strip(raw);
    if email in Emails(users) then Err(EmailTaken)
    else if !EmailShape(email) then Err(BadEmail)
    else Ok(email)
  }

  const MinPasswordLength := 8

  /** `clean_password_value`: the stripped password must have from 8 to `maxLength` characters. */
  function CleanPassword(raw: string, maxLength: int): (r: Result<string, FieldError>)
    ensures r.Ok? <==> MinPasswordLength <= |Strip(raw)| <= maxLength
    ensures r.Ok? ==> r.value == Strip(raw)
    ensures |Strip(raw)| < MinPasswordLength ==> r == Err(TooShort(MinPasswordLength))
    ensures MinPasswordLength <= |Strip(raw)| && |Strip(raw)| > maxLength ==> r == Err(TooLong(maxLength))
  {
    var password := Strip(raw);
    if |password| < MinPasswordLength then Err(TooShort(MinPasswordLength))
    else if |password| > maxLength then Err(TooLong(maxLength))
    else Ok(password)
  }

  /** A cleaned name is accepted again as it stands: cleaning is idempotent. */
  lemma CleanedNameStaysClean(raw: string, maxLength: int)
    requires CleanPersonName(raw, maxLength).Ok?
    ensures CleanPersonName(CleanPersonName(raw, maxLength).value, maxLength) == CleanPersonName(raw, maxLength)
  {
    StripIdempotent(raw);
  }

  /** A cleaned password is accepted again as it stands. */
  lemma CleanedPasswordStaysClean(raw: string, maxLength: int)
    requires CleanPassword(raw, maxLength).Ok?
    ensures CleanPassword(CleanPassword(raw, maxLength).value, maxLength) == CleanPassword(raw, maxLength)
  {
    StripIdempotent(raw);
  }

  /** A cleaned email is accepted again as it stands. */
  lemma CleanedEmailStaysClean(raw: string, users: seq<Account>)
    requires CleanEmail(raw, users).Ok?
    ensures CleanEmail(CleanEmail(raw, users).value, users) == CleanEmail(raw, users)
  {
    StripIdempotent(raw);
  }

  /** An accepted name is a single word; an accepted username or email has no whitespace at all. */
  lemma AcceptedValuesHaveNoSpaces(raw: string, users: seq<Account>, maxLength: int)
    ensures CleanPersonName(raw, maxLength).Ok? ==> ' ' !in CleanPersonName(raw, maxLength).value
    ensures CleanUsername(raw, users, maxLength).Ok? ==>
      forall k :: 0 <= k < |Strip(raw)| ==> !IsSpace(Strip(raw)[k])
  {
  }

  // ---------------------------------------------------------------------
  // Password confirmation
  // ---------------------------------------------------------------------

  /** Python truthiness of an optional text: absent and empty are false. */
  predicate Truthy(s: Option<string>)
  {
    s.Some? && s.value != ""
  }

  /** `UserRegisterForm.clean`: a mismatch is reported only when both passwords are present and differ. */
  function RegisterMismatch(password: Option<string>, confirm: Option<string>): (r: bool)
    ensures r <==> Truthy(password) && Truthy(confirm) && password.value != confirm.value
  {
    Truthy(password) && Truthy(confirm) && password != confirm
  }

  /** `UserAdminRegisterForm.clean`: a mismatch is reported whenever the two values differ, absent ones included. */
  function AdminMismatch(password1: Option<string>, password2: Option<string>): (r: bool)
    ensures r <==> (password1.Some? != password2.Some? || (password1.Some? && password1.value != password2.value))
  {
    password1 != password2
  }

  /**
   * Every mismatch the registration form reports, the administrator's form
   * reports too; when `clean_password` refused the password (so it is
   * absent from the cleaned data), only the administrator's form does.
   */
  lemma RegisterMismatchImpliesAdmin(password: Option<string>, confirm: Option<string>)
    ensures RegisterMismatch(password, confirm) ==> AdminMismatch(password, confirm)
    ensures confirm.Some? ==> !RegisterMismatch(None, confirm) && AdminMismatch(None, confirm)
  {
  }

  // ---------------------------------------------------------------------
  // Notification form
  // ---------------------------------------------------------------------

  /** The errors of `NotificationForm.clean`: two field errors and one form error. */
  datatype NotificationErrors = NotificationErrors(titleBlank: bool, messageBlank: bool, noRecipients: bool)

  /** A text that is absent or only whitespace. */
  predicate Blank(s: Option<string>)
  {
    s.None? || Strip(s.value) == ""
  }

  /**
   * `NotificationForm.clean`: title and message must not be blank, and
   * unless the notification goes to every client, some recipient must be
   * chosen. The field errors are recorded before the form error is raised,
   * so all three can be reported together.
   */
  function NotificationClean(title: Option<string>, message: Option<string>, recipients: Option<seq<int>>, sendToAll: bool)
    : (r: NotificationErrors)
    ensures r.titleBlank <==> Blank(title)
    ensures r.messageBlank <==> Blank(message)
    ensures r.noRecipients <==> !sendToAll && (recipients.None? || |recipients.value| == 0)
  {
    NotificationErrors(
      title.None? || title.value == "" || Strip(title.value) == "",
      message.None? || message.value == "" || Strip(message.value) == "",
      !sendToAll && (recipients.None? || |recipients.value| == 0))
  }

  predicate NotificationAccepted(e: NotificationErrors)
  {
    !e.titleBlank && !e.messageBlank && !e.noRecipients
  }

  /** An accepted notification has a title, a message and someone to go to. */
  lemma AcceptedNotificationHasAudience(title: Option<string>, message: Option<string>, recipients: Option<seq<int>>, sendToAll: bool)
    requires NotificationAccepted(NotificationClean(title, message, recipients, sendToAll))
    ensures title.Some? && Strip(title.value) != "" && message.Some? && Strip(message.value) != ""
    ensures !sendToAll ==> recipients.Some? && |recipients.value| > 0
  {
  }

  // ---------------------------------------------------------------------
  // Username edit
  // ---------------------------------------------------------------------

  /**
   * `EditUsernameForm.clean_username`: characters first, then length, and
   * only then whether another user (not the one being edited) holds the
   * name.
   */
  function EditUsername(raw: string, users: seq<Account>, pk: int, maxLength: int): (r: Result<string, FieldError>)
    ensures r.Ok? <==>
      AllUsernameChars(Strip(raw)) && |Strip(raw)| <= maxLength && Strip(raw) !in UsernamesExcept(users, pk)
    ensures r.Ok? ==> r.value == Strip(raw)
    ensures !AllUsernameChars(Strip(raw)) ==> r == Err(BadUsernameChars)
    ensures AllUsernameChars(Strip(raw)) && |Strip(raw)| > maxLength ==> r == Err(TooLong(maxLength))
    ensures AllUsernameChars(Strip(raw)) && |Strip(raw)| <= maxLength && Strip(raw) in UsernamesExcept(users, pk) ==>
      r == Err(UsernameTaken)
  {
    var username := Strip(raw);
    if !AllUsernameChars(username) then Err(BadUsernameChars)
    else if |username| > maxLength then Err(TooLong(maxLength))
    else if username in UsernamesExcept(users, pk) then Err(UsernameTaken)
    else Ok(username)
  }

  /**
   * A user may keep their own valid username through the edit form, which
   * the registration cleaner would refuse as taken.
   */
  lemma EditKeepsOwnUsername(users: seq<Account>, i: nat, maxLength: int)
    requires i < |users|
    requires AllUsernameChars(users[i].username) && |users[i].username| <= maxLength
    requires forall j :: 0 <= j < |users| && users[j].id != users[i].id ==> users[j].username != users[i].username
    ensures EditUsername(users[i].username, users, users[i].id, maxLength) == Ok(users[i].username)
    ensures CleanUsername(users[i].username, users, maxLength) == Err(UsernameTaken)
  {
    var name := users[i].username;
    assert StripLeft(name) == name;
    assert StripRight(name) == name;
    assert users[i] in users;
  }

  /** For a name nobody holds, the edit form and the registration form agree. */
  lemma FreeUsernameSameVerdict(raw: string, users: seq<Account>, pk: int, maxLength: int)
    requires Strip(raw) !in Usernames(users)
    ensures EditUsername(raw, users, pk, maxLength) == CleanUsername(raw, users, maxLength)
  {
  }
}
