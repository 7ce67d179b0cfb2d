/**
 * The login endpoint of the backend
 * (`src/main/java/de/jdbcrew/devicebridge/controller/AuthController.java`):
 * it checks only that username and password contain text and answers every
 * such request with a fresh token valid for an hour.
 *
 * The random UUID is the parameter `token`.
 */
module DeviceBridgeAuth {
  import opened Common

  /** `AuthRequest`; a JSON property that is missing or null is `None`. */
  datatype AuthRequest = AuthRequest(username: Option<string>, password: Option<string>)

  datatype AuthResponse = AuthResponse(token: string, expiresIn: int)

  /** A response entity: the status code and the body, if any. */
  datatype Response = Response(status: int, body: Option<AuthResponse>)

  /** `StringUtils.hasText` on a possibly null string. */
  predicate FieldHasText(field: Option<string>)
  {
    field.Some? && HasText(field.value)
  }

  function Login(request: Option<AuthRequest>, token: string): (r: Response)
    ensures r.status == 200 || r.status == 400
    ensures r.status == 400 <==> request.None? || !FieldHasText(request.value.username) || !FieldHasText(request.value.password)
    ensures r.status == 400 ==> r.body.None?
    ensures r.status == 200 ==> r.body == Some(AuthResponse(token, 3600))
  {
    if request.None? || !FieldHasText(request.value.username) || !FieldHasText(request.value.password) then
      Response(400, None)
    else
      Response(200, Some(AuthResponse(token, 3600)))
  }

  /**
   * Any username and password with a non-whitespace character are accepted;
   * they are never compared with stored credentials. Blank or missing ones are rejected.
   */
  lemma {:induction false} AcceptsAnyCredentialsWithText(username: string, password: string, token: string)
    ensures Login(Some(AuthRequest(Some(username), Some(password))), token).status == 200
      <==> HasText(username) && HasText(password)
    ensures Login(Some(AuthRequest(Some("x"), Some("y"))), token) == Response(200, Some(AuthResponse(token, 3600)))
    ensures Login(Some(AuthRequest(Some(" \t"), Some("y"))), token) == Response(400, None)
    ensures Login(Some(AuthRequest(None, Some("y"))), token) == Response(400, None)
    ensures Login(None, token) == Response(400, None)
  {
    assert !IsJavaWhitespace('x') && !IsJavaWhitespace('y');
    assert "x"[0] == 'x' && "y"[0] == 'y';
    assert IsJavaWhitespace(" \t"[0]) && IsJavaWhitespace(" \t"[1]);
  }
}
