/** The authentication request and response schemas of app/schemas/auth.py.
    EmailStr both checks and rewrites an address; it is the parameter
    `normEmail`, None for a rejected address and otherwise the normalised
    address the validated body carries. */
module AuthSchemas {
  import opened Common
  import opened Fields

  /** The optional email and phone both schemas accept. */
  predicate ContactValid(email: Option<string>, phone: Option<string>, normEmail: string -> Option<string>) {
    (email.Some? ==> normEmail(email.value).Some?) && (phone.Some? ==> IsPhoneNumber(phone.value))
  }

  /** The email field after validation: the normalised address. */
  function NormalisedEmail(email: Option<string>, normEmail: string -> Option<string>): (e: Option<string>)
    requires email.Some? ==> normEmail(email.value).Some?
    ensures e.Some? <==> email.Some?
    ensures email.Some? ==> normEmail(email.value) == e
  {
    if email.Some? then normEmail(email.value) else None
  }

  datatype LoginRequest = LoginRequest(email: Option<string>, phone: Option<string>, password: string)

  function ValidateLogin(email: Option<string>, phone: Option<string>, password: string,
                         normEmail: string -> Option<string>): (r: Result<LoginRequest>)
    ensures r.Ok? <==> ContactValid(email, phone, normEmail) && |password| >= 1
    ensures r.Ok? ==> r.value.phone == phone && r.value.password == password
    ensures r.Ok? ==> r.value.email == (if email.Some? then Some(normEmail(email.value).value) else None)
    ensures r.Err? ==> r.error == Unprocessable
  {
    if ContactValid(email, phone, normEmail) && password != "" then
      Ok(LoginRequest(NormalisedEmail(email, normEmail), phone, password))
    else Err(Unprocessable)
  }

  datatype RegisterRequest = RegisterRequest(name: string, email: Option<string>, phone: Option<string>, password: string)

  function ValidateRegister(name: string, email: Option<string>, phone: Option<string>, password: string,
                            normEmail: string -> Option<string>): (r: Result<RegisterRequest>)
    ensures r.Ok? <==> LengthBetween(name, 1, 255) && ContactValid(email, phone, normEmail) && |password| >= 8
    ensures r.Ok? ==> r.value.name == name && r.value.phone == phone && r.value.password == password
    ensures r.Ok? ==> r.value.email == (if email.Some? then Some(normEmail(email.value).value) else None)
    ensures r.Err? ==> r.error == Unprocessable
  {
    if LengthBetween(name, 1, 255) && ContactValid(email, phone, normEmail) && |password| >= 8 then
      Ok(RegisterRequest(name, NormalisedEmail(email, normEmail), phone, password))
    else Err(Unprocessable)
  }

  /** Neither request needs an email or a phone: a body with only a
      password (and a name) passes, whatever `normEmail` accepts. */
  lemma NoContactRequired(normEmail: string -> Option<string>)
    ensures ValidateLogin(None, None, "p", normEmail).Ok?
    ensures ValidateRegister("n", None, None, "12345678", normEmail).Ok?
  {
  }

  /** What registers can log in: the registration's email, phone and
      password form a valid login body, carrying the same stored address. */
  lemma RegisteredCanLogIn(name: string, email: Option<string>, phone: Option<string>, password: string,
                           normEmail: string -> Option<string>)
    requires ValidateRegister(name, email, phone, password, normEmail).Ok?
    ensures ValidateLogin(email, phone, password, normEmail).Ok?
    ensures ValidateLogin(email, phone, password, normEmail).value.email
         == ValidateRegister(name, email, phone, password, normEmail).value.email
  {
  }

  /** Two spellings of an address that EmailStr normalises alike (a domain
      in another case, surrounding whitespace) reach the service as the
      same email, both at registration and at login. */
  lemma SameNormalFormSameEmail(e1: string, e2: string, name: string, phone: Option<string>, password: string,
                                normEmail: string -> Option<string>)
    requires normEmail(e1).Some? && normEmail(e1) == normEmail(e2)
    ensures ValidateRegister(name, Some(e1), phone, password, normEmail).Ok? ==>
      && ValidateLogin(Some(e2), phone, password, normEmail).Ok?
      && ValidateLogin(Some(e2), phone, password, normEmail).value.email
         == ValidateRegister(name, Some(e1), phone, password, normEmail).value.email
    ensures ValidateRegister(name, Some(e2), phone, password, normEmail).Ok?
      <==> ValidateRegister(name, Some(e1), phone, password, normEmail).Ok?
    ensures ValidateRegister(name, Some(e1), phone, password, normEmail).Ok? ==>
      ValidateRegister(name, Some(e1), phone, password, normEmail).value.email
      == ValidateRegister(name, Some(e2), phone, password, normEmail).value.email
  {
  }

  /** TokenResponse, built with or without an explicit token_type. */
  datatype TokenResponse = TokenResponse(accessToken: string, tokenType: string, expiresIn: int, user: map<string, Json>)

  function MakeTokenResponse(accessToken: string, tokenType: Option<string>, expiresIn: int, user: map<string, Json>)
    : (t: TokenResponse)
    ensures tokenType.None? ==> t.tokenType == "bearer"
    ensures tokenType.Some? ==> t.tokenType == tokenType.value
    ensures t.accessToken == accessToken && t.expiresIn == expiresIn && t.user == user
  {
    TokenResponse(accessToken, if tokenType.Some? then tokenType.value else "bearer", expiresIn, user)
  }

  /** PasswordResetConfirm: a reset token and a new password of at least 8
      characters. */
  function ValidatePasswordResetConfirm(token: string, newPassword: string): (r: Result<(string, string)>)
    ensures r.Ok? <==> |newPassword| >= 8
    ensures r.Ok? ==> r.value == (token, newPassword)
    ensures r.Err? ==> r.error == Unprocessable
  {
    if |newPassword| >= 8 then Ok((token, newPassword)) else Err(Unprocessable)
  }

  /** PasswordResetRequest: a required email address. */
  function ValidatePasswordResetRequest(email: Option<string>, normEmail: string -> Option<string>)
    : (r: Result<string>)
    ensures r.Ok? <==> email.Some? && normEmail(email.value).Some?
    ensures r.Ok? ==> Some(r.value) == normEmail(email.value)
    ensures r.Err? ==> r.error == Unprocessable
  {
    if email.Some? && normEmail(email.value).Some? then Ok(normEmail(email.value).value) else Err(Unprocessable)
  }
}
