/**
 * The login state of the `src/main` console
 * (`src/main/frontend/src/app/services/auth.service.ts`). Credentials are
 * checked locally against one fixed account; a successful login stores a
 * token with its creation time, which keeps the session alive for twelve
 * hours across reloads.
 *
 * `localStorage` is the field `storage`, holding the token entry as it would
 * be parsed; `Date.now()` is the parameter `now`; router navigation is a log.
 */
module MainAuth {
  import opened Common

  const ValidUsername: string := "admin"
  const ValidPassword: string := "1234"
  const InvalidCredentialsMessage: string := "Ungültige Zugangsdaten."
  /** Twelve hours in milliseconds. */
  const MaxTokenAge: int := 1000 * 60 * 60 * 12

  /**
   * The stored token entry: the empty text, text that `JSON.parse` or the
   * destructuring rejects, or an object with the stored username and, if it
   * has one, a numeric timestamp.
   */
  datatype StoredToken = EmptyText | Malformed | Token(username: string, timestamp: Option<int>)

  datatype LoginResult = Failed(message: string) | LoggedIn

  /** The trimmed, lowercased username is `admin` and the password is exactly `1234`. */
  predicate CredentialsMatch(username: string, password: string)
    ensures CredentialsMatch(username, password) ==> |Trim(username)| == |ValidUsername|
  {
    ToLower(Trim(username)) == ValidUsername && password == ValidPassword
  }

  lemma {:induction false} TrimStartPaddedAdmin()
    ensures TrimStart(" ADMIN\t") == "ADMIN\t"
  {
    var s := " ADMIN\t";
    assert IsJsWhitespace(s[0]) && s[1..] == "ADMIN\t";
    assert !IsJsWhitespace(s[1..][0]);
  }

  lemma {:induction false} TrimEndPaddedAdmin()
    ensures TrimEnd("ADMIN\t") == "ADMIN"
  {
    var s := "ADMIN\t";
    assert IsJsWhitespace(s[5]) && s[..5] == "ADMIN";
    assert !IsJsWhitespace(s[..5][4]);
  }

  lemma {:induction false} TrimPaddedAdmin()
    ensures Trim(" ADMIN\t") == "ADMIN"
  {
    TrimStartPaddedAdmin();
    TrimEndPaddedAdmin();
  }

  lemma {:induction false} LowerAdmin()
    ensures ToLower("ADMIN") == "admin"
  {
    var r := ToLower("ADMIN");
    assert r[0] == 'a' && r[1] == 'd' && r[2] == 'm' && r[3] == 'i' && r[4] == 'n';
  }

  /** Whitespace around the username does not matter. */
  lemma UsernamePaddingIgnored(before: string, username: string, after: string, password: string)
    requires forall i :: 0 <= i < |before| ==> IsJsWhitespace(before[i])
    requires forall i :: 0 <= i < |after| ==> IsJsWhitespace(after[i])
    ensures CredentialsMatch(before + username + after, password) <==> CredentialsMatch(username, password)
  {
    TrimIgnoresPadding(before, username, after);
  }

  /** The letter case of the username does not matter. */
  lemma UsernameCaseIgnored(username: string, password: string)
    ensures CredentialsMatch(username, password) <==> CredentialsMatch(ToLower(username), password)
  {
    TrimToLower(username);
    ToLowerIdempotent(Trim(username));
  }

  /** An instance of both: a tab-padded, upper-case `ADMIN` logs in. */
  lemma {:induction false} PaddedUppercaseAdminMatches()
    ensures CredentialsMatch(" ADMIN\t", "1234")
  {
    TrimPaddedAdmin();
    LowerAdmin();
  }

  /** The password is compared exactly: no trimming, no case folding. */
  lemma {:induction false} PasswordComparedExactly(username: string, password: string)
    ensures CredentialsMatch(username, password) ==> password == "1234"
    ensures !CredentialsMatch(username, " 1234")
  {
  }

  /** A username that is only whitespace never matches. */
  lemma {:induction false} BlankUsernameRejected(username: string, password: string)
    requires forall i :: 0 <= i < |username| ==> IsJsWhitespace(username[i])
    ensures !CredentialsMatch(username, password)
  {
    assert Trim(username) == [];
  }

  /** `hasStoredToken`: a stored token counts only when it has a timestamp younger than twelve hours. */
  predicate TokenValid(stored: Option<StoredToken>, now: int)
    ensures TokenValid(stored, now) ==> stored.Some? && stored.value.Token? && stored.value.timestamp.Some?
  {
    match stored
    case None => false
    case Some(EmptyText) => false
    case Some(Malformed) => false
    case Some(Token(_, timestamp)) => timestamp.Some? && now - timestamp.value < MaxTokenAge
  }

  /** The storage after `hasStoredToken`: an entry that fails to parse is removed, anything else is kept. */
  function StorageAfterCheck(stored: Option<StoredToken>): (r: Option<StoredToken>)
    ensures stored == Some(Malformed) ==> r.None?
    ensures stored != Some(Malformed) ==> r == stored
  {
    if stored == Some(Malformed) then None else stored
  }

  class AuthService {
    /** The value `authState$` holds. */
    var authState: bool
    /** The `argus-auth-token` entry of `localStorage`. */
    var storage: Option<StoredToken>
    /** The routes navigated to. */
    var navigations: seq<string>

    /** The service starts authenticated exactly when the stored token is valid. */
    constructor (stored: Option<StoredToken>, now: int)
      ensures authState == TokenValid(stored, now)
      ensures storage == StorageAfterCheck(stored)
      ensures navigations == []
    {
      authState := TokenValid(stored, now);
      storage := StorageAfterCheck(stored);
      navigations := [];
    }

    /**
     * `login`, with the delayed effect taking place: wrong credentials fail and
     * change nothing; right ones store the username as typed with the time and
     * set the state to authenticated.
     */
    method Login(username: string, password: string, now: int) returns (result: LoginResult)
      modifies this
      ensures !CredentialsMatch(username, password) ==>
        result == Failed(InvalidCredentialsMessage) && authState == old(authState) && storage == old(storage)
      ensures CredentialsMatch(username, password) ==>
        result == LoggedIn && authState && storage == Some(Token(username, Some(now)))
      ensures navigations == old(navigations)
    {
      var matches := ToLower(Trim(username)) == ValidUsername && password == ValidPassword;
      if !matches {
        return Failed(InvalidCredentialsMessage);
      }
      storage := Some(Token(username, Some(now)));
      authState := true;
      result := LoggedIn;
    }

    method Logout()
      modifies this
      ensures storage.None? && !authState
      ensures navigations == old(navigations) + ["/login"]
    {
      storage := None;
      authState := false;
      navigations := navigations + ["/login"];
    }
  }

  /**
   * A token written by a successful login at `loginTime` makes a later
   * service start authenticated exactly while less than twelve hours have
   * passed; after a logout it never does.
   */
  lemma {:induction false} StoredLoginExpiresAfterTwelveHours(username: string, loginTime: int, now: int)
    ensures TokenValid(Some(Token(username, Some(loginTime))), now) <==> now < loginTime + 43200000
    ensures !TokenValid(None, now)
    ensures StorageAfterCheck(Some(Token(username, Some(loginTime)))) == Some(Token(username, Some(loginTime)))
  {
    assert MaxTokenAge == 43200000;
  }
}
