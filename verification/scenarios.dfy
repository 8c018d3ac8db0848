/** A caller's view of the session lifecycle, checked against the handlers'
    contracts alone. */
module Scenarios {
  import opened Common
  import opened Text
  import opened Accounts

  /** A wrong password at login is a 401 and stores no token; the right one
      stores exactly the token it returns. */
  method WrongThenRightPassword(store: UserStore, id: UserId, guess: string, password: string)
    requires store.Valid()
    requires id in store.users && store.users.Keys == {id} && store.users[id].refreshToken == None
    requires store.users[id].email != ""
    requires !store.passwordMatches(store.users[id].password, Some(guess))
    requires store.passwordMatches(store.users[id].password, Some(password))
    modifies store
  {
    var email := store.users[id].email;
    assert IdentifiedBy(store.users[id], None, Some(email));
    var found := FindOne(store.users, None, Some(email));
    assert found.Some? && found.value in store.users;
    assert found == Some(id);
    var denied := store.Login(None, Some(email), Some(guess), true);
    assert denied == Failure(ApiError(UNAUTHORIZED, InvalidCredentials));
    assert store.users[id].refreshToken == None;
    var login := store.Login(None, Some(email), Some(password), true);
    assert login.Success? && store.users[id].refreshToken == Some(login.value.refreshToken);
  }

  /** Log in, rotate the refresh token, reuse the consumed one, log out and
      present the token that was current: only the rotation is accepted. */
  method RotationThenReuse(store: UserStore, email: string, password: string)
    requires store.Valid()
    requires CheckLogin(store.users, store.passwordMatches, None, Some(email), Some(password)).Success?
    modifies store
  {
    var id := CheckLogin(store.users, store.passwordMatches, None, Some(email), Some(password)).value;
    var login := store.Login(None, Some(email), Some(password), true);
    var first := login.value.refreshToken;
    assert store.users[id].refreshToken == Some(first);

    var rotated := store.Refresh(Some(first), None, true);
    assert rotated.Success? && rotated.value.refreshToken == None;
    var second := store.users[id].refreshToken;
    assert second.Some? && second != Some(first);

    var reused := store.Refresh(Some(first), None, true);
    assert reused == Failure(ApiError(UNAUTHORIZED, RefreshTokenExpiredOrUsed));

    store.Logout(id);
    var afterLogout := store.Refresh(second, None, true);
    assert afterLogout.Failure? && afterLogout.error.status == UNAUTHORIZED;
  }
}
