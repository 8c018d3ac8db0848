/** The user collection and the session state kept on it. The only server-side
    session state is the optional `refreshToken` field of each user record;
    issuing a token pair overwrites it, logout removes it, and a refresh is
    accepted only for the value stored there. */
module Accounts {
  import opened Common
  import opened Text

  type UserId = nat
  /** A signed token, named by the serial number it was minted with. */
  type Token = nat
  type Url = string

  /** A stored user document. `password` stands for the stored hash: hashing
      is folded into the store's password check. */
  datatype User = User(
    username: string,
    email: string,
    fullName: string,
    password: string,
    avatar: Url,
    coverImage: Url,
    refreshToken: Option<Token>)

  /** A user document as a response carries it: never the password, and the
      refresh token only where the handler does not strip it. */
  datatype UserView = UserView(
    id: UserId,
    username: string,
    email: string,
    fullName: string,
    avatar: Url,
    coverImage: Url,
    refreshToken: Option<Token>)

  /** `.select("-password -refreshToken")`: the record with both secrets
      stripped, which is the password-stripped document without its token. */
  function PublicView(id: UserId, u: User): (r: UserView)
    ensures r.refreshToken == None
    ensures r == ViewWithoutPassword(id, u).(refreshToken := None)
  {
    UserView(id, u.username, u.email, u.fullName, u.avatar, u.coverImage, None)
  }

  /** `.select("-password")`: every field of the record but the password;
      the refresh token stays in the document. */
  function ViewWithoutPassword(id: UserId, u: User): (r: UserView)
    ensures r.id == id && r.refreshToken == u.refreshToken
    ensures r.username == u.username && r.email == u.email && r.fullName == u.fullName
    ensures r.avatar == u.avatar && r.coverImage == u.coverImage
  {
    UserView(id, u.username, u.email, u.fullName, u.avatar, u.coverImage, u.refreshToken)
  }

  /** `user.isPasswordCorrect(candidate)`: the stored hash against a candidate. */
  type PasswordCheck = (string, Option<string>) -> bool

  datatype TokenPair = TokenPair(accessToken: Token, refreshToken: Token)

  datatype LoginResponse = LoginResponse(user: UserView, accessToken: Token, refreshToken: Token)

  /** What the refresh handler sends back, in its body and its cookies. */
  datatype RefreshResponse = RefreshResponse(accessToken: Token, refreshToken: Option<Token>)

  /** The registration request: body fields and the uploaded files' local paths. */
  datatype Registration = Registration(
    fullName: Option<string>,
    email: Option<string>,
    username: Option<string>,
    password: Option<string>,
    avatarPath: Option<string>,
    coverImagePath: Option<string>)

  /** What the store keeps true between requests. `signed` maps each refresh
      token ever minted to its subject: it is what verifying a token with the
      refresh secret accepts. */
  ghost predicate StoreInv(users: map<UserId, User>, signed: map<Token, UserId>, nextId: nat, nextToken: nat)
  {
    && (forall id :: id in users ==> id < nextId && IsLower(users[id].username))
    && (forall t :: t in signed ==> t < nextToken && signed[t] in users)
    && (forall id :: id in users && users[id].refreshToken.Some? ==>
          users[id].refreshToken.value in signed && signed[users[id].refreshToken.value] == id)
  }

  /** Refresh tokens that were minted and are no longer stored on any record. */
  ghost function Retired(users: map<UserId, User>, signed: map<Token, UserId>): set<Token>
  {
    set t | t in signed && forall id :: id in users ==> users[id].refreshToken != Some(t)
  }

  /** The checks of the refresh handler, in order: a token must be presented,
      must verify, must name an existing user, and must be the one stored on
      that user. Every failure is a 401. */
  function ValidateRefresh(users: map<UserId, User>, signed: map<Token, UserId>, incoming: Option<Token>)
    : (r: Result<UserId, ApiError>)
    ensures incoming.None? ==> r == Failure(ApiError(UNAUTHORIZED, UnauthorizedRequest))
    ensures r.Failure? ==> r.error.status == UNAUTHORIZED
    ensures r.Success? ==> r.value in users && incoming.Some? && users[r.value].refreshToken == incoming
  {
    if incoming.None? then Failure(ApiError(UNAUTHORIZED, UnauthorizedRequest))
    else if incoming.value !in signed then Failure(ApiError(UNAUTHORIZED, TokenRejected))
    else if signed[incoming.value] !in users then Failure(ApiError(UNAUTHORIZED, InvalidRefreshToken))
    else if users[signed[incoming.value]].refreshToken != incoming then
      Failure(ApiError(UNAUTHORIZED, RefreshTokenExpiredOrUsed))
    else Success(signed[incoming.value])
  }

  /** In a consistent store the token stored on a record is accepted, for that
      record's user. */
  lemma StoredTokenAccepted(users: map<UserId, User>, signed: map<Token, UserId>, nextId: nat, nextToken: nat,
                            id: UserId, t: Token)
    requires StoreInv(users, signed, nextId, nextToken)
    requires id in users && users[id].refreshToken == Some(t)
    ensures ValidateRefresh(users, signed, Some(t)) == Success(id)
  {
  }

  /** A token that was minted and then replaced or removed is refused as
      "expired or used", whatever happened since. */
  lemma RetiredTokenRejected(users: map<UserId, User>, signed: map<Token, UserId>, nextId: nat, nextToken: nat,
                             t: Token)
    requires StoreInv(users, signed, nextId, nextToken)
    requires t in Retired(users, signed)
    ensures ValidateRefresh(users, signed, Some(t)) == Failure(ApiError(UNAUTHORIZED, RefreshTokenExpiredOrUsed))
  {
    assert signed[t] in users;
  }

  /** The `$or: [{ username }, { email }]` filter, with the values exactly as
      they came in the request. */
  predicate IdentifiedBy(u: User, username: Option<string>, email: Option<string>)
  {
    username == Some(u.username) || email == Some(u.email)
  }

  /** `User.findOne(…)`: the earliest-created record the filter matches. */
  function FindOne(users: map<UserId, User>, username: Option<string>, email: Option<string>): (r: Option<UserId>)
    ensures r.None? <==> forall id :: id in users ==> !IdentifiedBy(users[id], username, email)
    ensures r.Some? ==> r.value in users && IdentifiedBy(users[r.value], username, email)
    ensures r.Some? ==> forall id :: id in users && IdentifiedBy(users[id], username, email) ==> r.value <= id
  {
    var ids := set id | id in users && IdentifiedBy(users[id], username, email);
    assert forall id :: id in users && IdentifiedBy(users[id], username, email) ==> id in ids;
    if ids == {} then None else Some(Least(ids))
  }

  /** `coverImage?.url || ""`: no cover file, or an upload that returned
      nothing, leaves the empty string. */
  function CoverImageUrl(path: Option<string>, upload: Option<Url>): (r: Url)
    ensures r == "" <==> !Truthy(path) || !Truthy(upload)
    ensures r != "" ==> upload == Some(r)
  {
    if Truthy(path) && upload.Some? then upload.value else ""
  }

  /** The four body fields the registration handler checks for blanks. */
  function RequiredFields(form: Registration): seq<Option<string>>
  {
    [form.fullName, form.email, form.username, form.password]
  }

  /** The registration checks, in the handler's order, and the record that is
      created when they all pass. `avatarUpload`/`coverUpload` are what the
      object store returns for the uploaded files. */
  function CheckRegistration(users: map<UserId, User>, form: Registration,
                             avatarUpload: Option<Url>, coverUpload: Option<Url>): (r: Result<User, ApiError>)
    ensures r == Failure(ApiError(BAD_REQUEST, AllFieldsRequired)) <==> SomePresentBlank(RequiredFields(form))
    ensures r == Failure(ApiError(CONFLICT, UserAlreadyExists)) <==>
      !SomePresentBlank(RequiredFields(form)) && FindOne(users, form.username, form.email).Some?
    ensures r == Failure(ApiError(BAD_REQUEST, AvatarFileRequired)) <==>
      && !SomePresentBlank(RequiredFields(form))
      && FindOne(users, form.username, form.email).None?
      && (!Truthy(form.avatarPath) || avatarUpload.None?)
    ensures r.Failure? ==> r.error.status in {BAD_REQUEST, CONFLICT, INTERNAL_ERROR}
    ensures r.Success? <==>
      && !SomePresentBlank(RequiredFields(form))
      && FindOne(users, form.username, form.email).None?
      && Truthy(form.avatarPath) && avatarUpload.Some?
      && form.fullName.Some? && form.email.Some? && form.username.Some? && form.password.Some?
    ensures r.Success? ==> avatarUpload == Some(r.value.avatar)
    ensures r.Success? ==>
      && form.username.Some? && r.value.username == ToLower(form.username.value)
      && form.email == Some(r.value.email)
      && form.fullName == Some(r.value.fullName)
      && form.password == Some(r.value.password)
      && r.value.coverImage == CoverImageUrl(form.coverImagePath, coverUpload)
      && r.value.refreshToken == None
  {
    if SomePresentBlank(RequiredFields(form)) then Failure(ApiError(BAD_REQUEST, AllFieldsRequired))
    else if FindOne(users, form.username, form.email).Some? then Failure(ApiError(CONFLICT, UserAlreadyExists))
    else if !Truthy(form.avatarPath) then Failure(ApiError(BAD_REQUEST, AvatarFileRequired))
    else if avatarUpload.None? then Failure(ApiError(BAD_REQUEST, AvatarFileRequired))
    else if form.username.None? then Failure(ApiError(INTERNAL_ERROR, RuntimeTypeError))
    else if form.fullName.None? || form.email.None? || form.password.None? then
      Failure(ApiError(INTERNAL_ERROR, RecordRejected))
    else
      Success(User(
        username := ToLower(form.username.value),
        email := form.email.value,
        fullName := form.fullName.value,
        password := form.password.value,
        avatar := avatarUpload.value,
        coverImage := CoverImageUrl(form.coverImagePath, coverUpload),
        refreshToken := None))
  }

  /** The login checks, in the handler's order: 400 without username and
      email, 404 without a matching record, 401 on a wrong password. */
  function CheckLogin(users: map<UserId, User>, passwordMatches: PasswordCheck,
                      username: Option<string>, email: Option<string>, password: Option<string>)
    : (r: Result<UserId, ApiError>)
    ensures r == Failure(ApiError(BAD_REQUEST, UsernameOrEmailRequired)) <==> !Truthy(username) && !Truthy(email)
    ensures r == Failure(ApiError(NOT_FOUND, UserDoesNotExist)) <==>
      (Truthy(username) || Truthy(email)) && forall id :: id in users ==> !IdentifiedBy(users[id], username, email)
    ensures r == Failure(ApiError(UNAUTHORIZED, InvalidCredentials)) <==>
      && (Truthy(username) || Truthy(email))
      && FindOne(users, username, email).Some?
      && !passwordMatches(users[FindOne(users, username, email).value].password, password)
    ensures r.Failure? ==> r.error.status in {BAD_REQUEST, NOT_FOUND, UNAUTHORIZED}
    ensures r.Success? <==>
      && (Truthy(username) || Truthy(email))
      && FindOne(users, username, email).Some?
      && passwordMatches(users[FindOne(users, username, email).value].password, password)
    ensures r.Success? ==>
      && r == Success(FindOne(users, username, email).value)
      && r.value in users
      && IdentifiedBy(users[r.value], username, email)
      && passwordMatches(users[r.value].password, password)
  {
    if !Truthy(username) && !Truthy(email) then Failure(ApiError(BAD_REQUEST, UsernameOrEmailRequired))
    else
      match FindOne(users, username, email)
      case None => Failure(ApiError(NOT_FOUND, UserDoesNotExist))
      case Some(id) =>
        if !passwordMatches(users[id].password, password) then Failure(ApiError(UNAUTHORIZED, InvalidCredentials))
        else Success(id)
  }

  /** A form whose four text fields are all present and non-blank passes the
      blank-field check. */
  lemma FilledFormPassesBlankCheck(form: Registration)
    requires form.fullName.Some? && form.email.Some? && form.username.Some? && form.password.Some?
    requires !IsBlank(form.fullName.value) && !IsBlank(form.email.value)
    requires !IsBlank(form.username.value) && !IsBlank(form.password.value)
    ensures !SomePresentBlank(RequiredFields(form))
  {
    var fields := RequiredFields(form);
    assert fields[0] == form.fullName && fields[1] == form.email;
    assert fields[2] == form.username && fields[3] == form.password;
  }

  /** The duplicate check at registration compares the username as typed with
      the stored lower-case names: a case variant of an existing name passes
      every check and is stored under the very same name. */
  lemma DuplicateCheckIsCaseSensitive(users: map<UserId, User>, form: Registration,
                                      avatarUpload: Option<Url>, coverUpload: Option<Url>, id: UserId)
    requires id in users
    requires form.fullName.Some? && form.email.Some? && form.username.Some? && form.password.Some?
    requires !IsBlank(form.fullName.value) && !IsBlank(form.email.value)
    requires !IsBlank(form.username.value) && !IsBlank(form.password.value)
    requires Truthy(form.avatarPath) && avatarUpload.Some?
    requires forall other :: other in users ==> !IdentifiedBy(users[other], form.username, form.email)
    requires ToLower(form.username.value) == users[id].username
    ensures CheckRegistration(users, form, avatarUpload, coverUpload).Success?
    ensures CheckRegistration(users, form, avatarUpload, coverUpload).value.username == users[id].username
  {
    FilledFormPassesBlankCheck(form);
    assert FindOne(users, form.username, form.email).None?;
  }

  /** Login looks the username up as typed, while every stored username is in
      lower case: a username with a capital letter, given without an email,
      finds no record, even when its lower-case form is registered. */
  lemma LoginIsCaseSensitive(users: map<UserId, User>, passwordMatches: PasswordCheck,
                             name: string, password: Option<string>)
    requires forall id :: id in users ==> IsLower(users[id].username)
    requires !IsLower(name)
    ensures CheckLogin(users, passwordMatches, Some(name), None, password)
         == Failure(ApiError(NOT_FOUND, UserDoesNotExist))
  {
    forall id | id in users
      ensures !IdentifiedBy(users[id], Some(name), None)
    {
      assert name != users[id].username;
    }
  }

  /** The user collection with the controller's handlers over it. Token
      minting is a counter; `signed` stands for what the refresh-token
      verifier accepts. */
  class UserStore {
    var users: map<UserId, User>
    var signed: map<Token, UserId>
    var nextId: nat
    var nextToken: nat
    const passwordMatches: PasswordCheck

    ghost predicate Valid()
      reads this
    {
      StoreInv(users, signed, nextId, nextToken)
    }

    constructor (passwordMatches: PasswordCheck)
      ensures Valid()
      ensures users == map[] && signed == map[] && this.passwordMatches == passwordMatches
    {
      users := map[];
      signed := map[];
      nextId := 0;
      nextToken := 0;
      this.passwordMatches := passwordMatches;
    }

    /** `generateAccessTokenAndRefreshToken`: mint two fresh tokens and store
        the refresh token on the record. A missing record or a failed save is
        a 500 and changes nothing. */
    method IssueTokenPair(id: UserId, saveSucceeds: bool) returns (r: Result<TokenPair, ApiError>)
      requires Valid()
      modifies this
      ensures Valid()
      ensures nextId == old(nextId)
      ensures Retired(old(users), old(signed)) <= Retired(users, signed)
      ensures id !in old(users) || !saveSucceeds ==>
        r == Failure(ApiError(INTERNAL_ERROR, TokenGenerationFailed)) && unchanged(this)
      ensures id in old(users) && saveSucceeds ==>
        && r.Success?
        && r.value.refreshToken !in old(signed)
        && r.value.accessToken != r.value.refreshToken
        && r.value.accessToken !in signed
        && users == old(users)[id := old(users)[id].(refreshToken := Some(r.value.refreshToken))]
        && signed == old(signed)[r.value.refreshToken := id]
        && nextToken == old(nextToken) + 2
        && (old(users)[id].refreshToken.Some? ==> old(users)[id].refreshToken.value in Retired(users, signed))
    {
      if id !in users || !saveSucceeds {
        return Failure(ApiError(INTERNAL_ERROR, TokenGenerationFailed));
      }
      var access, refresh := nextToken, nextToken + 1;
      ghost var oldUsers, oldSigned := users, signed;
      nextToken := nextToken + 2;
      signed := signed[refresh := id];
      users := users[id := users[id].(refreshToken := Some(refresh))];
      r := Success(TokenPair(access, refresh));
      forall t | t in Retired(oldUsers, oldSigned)
        ensures t in Retired(users, signed)
      {
        assert t < refresh;
      }
      if oldUsers[id].refreshToken.Some? {
        var old_t := oldUsers[id].refreshToken.value;
        forall other | other in users
          ensures users[other].refreshToken != Some(old_t)
        {
          if other != id {
            assert oldSigned[old_t] == id;
          }
        }
      }
    }

    /** `registerUser`: every check runs before the record is created; the
        new record gets a fresh id and no refresh token. */
    method Register(form: Registration, avatarUpload: Option<Url>, coverUpload: Option<Url>)
      returns (r: Result<UserView, ApiError>)
      requires Valid()
      modifies this
      ensures Valid()
      ensures Retired(old(users), old(signed)) <= Retired(users, signed)
      ensures var check := CheckRegistration(old(users), form, avatarUpload, coverUpload);
        && (check.Failure? ==> r == Failure(check.error) && unchanged(this))
        && (check.Success? ==>
              && old(nextId) !in old(users)
              && users == old(users)[old(nextId) := check.value]
              && r == Success(PublicView(old(nextId), check.value))
              && signed == old(signed) && nextToken == old(nextToken))
    {
      var check := CheckRegistration(users, form, avatarUpload, coverUpload);
      if check.Failure? {
        return Failure(check.error);
      }
      var id := nextId;
      users := users[id := check.value];
      nextId := nextId + 1;
      r := Success(PublicView(id, check.value));
    }

    /** `loginUser`: the login checks, then a token pair whose refresh token is
        the one now stored; the body carries the record without its secrets. */
    method Login(username: Option<string>, email: Option<string>, password: Option<string>, saveSucceeds: bool)
      returns (r: Result<LoginResponse, ApiError>)
      requires Valid()
      modifies this
      ensures Valid()
      ensures Retired(old(users), old(signed)) <= Retired(users, signed)
      ensures var check := CheckLogin(old(users), passwordMatches, username, email, password);
        && (check.Failure? ==> r == Failure(check.error) && unchanged(this))
        && (check.Success? && !saveSucceeds ==>
              r == Failure(ApiError(INTERNAL_ERROR, TokenGenerationFailed)) && unchanged(this))
        && (check.Success? && saveSucceeds ==>
              && r.Success?
              && r.value.refreshToken !in old(signed)
              && users == old(users)[check.value := old(users)[check.value].(refreshToken := Some(r.value.refreshToken))]
              && signed == old(signed)[r.value.refreshToken := check.value]
              && nextId == old(nextId) && nextToken == old(nextToken) + 2
              && r.value.user == PublicView(check.value, users[check.value])
              && ValidateRefresh(users, signed, Some(r.value.refreshToken)) == Success(check.value))
    {
      var check := CheckLogin(users, passwordMatches, username, email, password);
      if check.Failure? {
        return Failure(check.error);
      }
      var id := check.value;
      var pair := IssueTokenPair(id, saveSucceeds);
      if pair.Failure? {
        return Failure(pair.error);
      }
      r := Success(LoginResponse(PublicView(id, users[id]), pair.value.accessToken, pair.value.refreshToken));
    }

    /** `logoutUser`: remove the stored refresh token of the authenticated
        user; no token of that user is accepted afterwards. */
    method Logout(id: UserId)
      requires Valid()
      modifies this
      ensures Valid()
      ensures Retired(old(users), old(signed)) <= Retired(users, signed)
      ensures users == if id in old(users) then old(users)[id := old(users)[id].(refreshToken := None)] else old(users)
      ensures signed == old(signed) && nextId == old(nextId) && nextToken == old(nextToken)
      ensures id in old(users) && old(users)[id].refreshToken.Some? ==>
        old(users)[id].refreshToken.value in Retired(users, signed)
      ensures forall t :: ValidateRefresh(users, signed, Some(t)) != Success(id)
    {
      if id in users {
        ghost var oldUsers := users;
        users := users[id := users[id].(refreshToken := None)];
        if oldUsers[id].refreshToken.Some? {
          var old_t := oldUsers[id].refreshToken.value;
          forall other | other in users
            ensures users[other].refreshToken != Some(old_t)
          {
            if other != id {
              assert signed[old_t] == id;
            }
          }
        }
      }
    }

    /** `refreshAccessToken`: the refresh checks, then a new pair. As written,
        the response carries no refresh token (the handler reads a name the
        token helper does not return), and every failure, the helper's 500
        included, becomes a 401. The presented token is retired. */
    method Refresh(cookie: Option<Token>, body: Option<Token>, saveSucceeds: bool)
      returns (r: Result<RefreshResponse, ApiError>)
      requires Valid()
      modifies this
      ensures Valid()
      ensures Retired(old(users), old(signed)) <= Retired(users, signed)
      ensures r.Failure? ==> r.error.status == UNAUTHORIZED
      ensures var incoming := if cookie.Some? then cookie else body;
        var check := ValidateRefresh(old(users), old(signed), incoming);
        && (check.Failure? ==> r == Failure(check.error) && unchanged(this))
        && (check.Success? && !saveSucceeds ==>
              r == Failure(ApiError(UNAUTHORIZED, TokenGenerationFailed)) && unchanged(this))
        && (check.Success? && saveSucceeds ==>
              && r.Success?
              && r.value.refreshToken == None
              && check.value in users
              && users[check.value].refreshToken.Some?
              && users[check.value].refreshToken.value !in old(signed)
              && users == old(users)[check.value := old(users)[check.value].(refreshToken := users[check.value].refreshToken)]
              && signed == old(signed)[users[check.value].refreshToken.value := check.value]
              && nextId == old(nextId) && nextToken == old(nextToken) + 2
              && incoming.value in Retired(users, signed)
              && ValidateRefresh(users, signed, incoming) == Failure(ApiError(UNAUTHORIZED, RefreshTokenExpiredOrUsed)))
    {
      var incoming := if cookie.Some? then cookie else body;
      var check := ValidateRefresh(users, signed, incoming);
      if check.Failure? {
        return Failure(check.error);
      }
      var id := check.value;
      var pair := IssueTokenPair(id, saveSucceeds);
      if pair.Failure? {
        return Failure(ApiError(UNAUTHORIZED, pair.error.reason));
      }
      RetiredTokenRejected(users, signed, nextId, nextToken, incoming.value);
      r := Success(RefreshResponse(pair.value.accessToken, None));
    }

    /** `changeCurrentPassword`: only the password changes, and only when the
        old password checks; the refresh token is untouched. */
    method ChangePassword(id: UserId, oldPassword: Option<string>, newPassword: string) returns (r: Outcome<ApiError>)
      requires Valid()
      modifies this
      ensures Valid()
      ensures signed == old(signed) && nextId == old(nextId) && nextToken == old(nextToken)
      ensures id !in old(users) ==> r == Fail(ApiError(INTERNAL_ERROR, RuntimeTypeError)) && unchanged(this)
      ensures id in old(users) && !passwordMatches(old(users)[id].password, oldPassword) ==>
        r == Fail(ApiError(BAD_REQUEST, InvalidOldPassword)) && unchanged(this)
      ensures id in old(users) && passwordMatches(old(users)[id].password, oldPassword) ==>
        r == Pass && users == old(users)[id := old(users)[id].(password := newPassword)]
    {
      if id !in users {
        return Fail(ApiError(INTERNAL_ERROR, RuntimeTypeError));
      }
      if !passwordMatches(users[id].password, oldPassword) {
        return Fail(ApiError(BAD_REQUEST, InvalidOldPassword));
      }
      users := users[id := users[id].(password := newPassword)];
      r := Pass;
    }

    /** `updateAccountDetails`: both fields must be truthy; then exactly
        `fullName` and `email` change. An unknown id updates nothing. */
    method UpdateAccountDetails(id: UserId, fullName: Option<string>, email: Option<string>)
      returns (r: Result<Option<UserView>, ApiError>)
      requires Valid()
      modifies this
      ensures Valid()
      ensures signed == old(signed) && nextId == old(nextId) && nextToken == old(nextToken)
      ensures !Truthy(fullName) || !Truthy(email) ==>
        r == Failure(ApiError(BAD_REQUEST, AllFieldsRequired)) && unchanged(this)
      ensures Truthy(fullName) && Truthy(email) && id !in old(users) ==> r == Success(None) && unchanged(this)
      ensures Truthy(fullName) && Truthy(email) && id in old(users) ==>
        && users == old(users)[id := old(users)[id].(fullName := fullName.value, email := email.value)]
        && r == Success(Some(ViewWithoutPassword(id, users[id])))
    {
      if !Truthy(fullName) || !Truthy(email) {
        return Failure(ApiError(BAD_REQUEST, AllFieldsRequired));
      }
      if id !in users {
        return Success(None);
      }
      users := users[id := users[id].(fullName := fullName.value, email := email.value)];
      r := Success(Some(ViewWithoutPassword(id, users[id])));
    }

    /** `updateUserAvatar`: a file must be given and its upload must yield a
        URL; then exactly `avatar` changes. An upload that returns nothing is
        read as a null object, a 500. */
    method UpdateAvatar(id: UserId, path: Option<string>, upload: Option<Url>)
      returns (r: Result<Option<UserView>, ApiError>)
      requires Valid()
      modifies this
      ensures Valid()
      ensures signed == old(signed) && nextId == old(nextId) && nextToken == old(nextToken)
      ensures !Truthy(path) ==> r == Failure(ApiError(BAD_REQUEST, AvatarFileMissing)) && unchanged(this)
      ensures Truthy(path) && upload.None? ==>
        r == Failure(ApiError(INTERNAL_ERROR, RuntimeTypeError)) && unchanged(this)
      ensures Truthy(path) && upload == Some("") ==>
        r == Failure(ApiError(BAD_REQUEST, AvatarUploadFailed)) && unchanged(this)
      ensures Truthy(path) && Truthy(upload) && id !in old(users) ==> r == Success(None) && unchanged(this)
      ensures Truthy(path) && Truthy(upload) && id in old(users) ==>
        && users == old(users)[id := old(users)[id].(avatar := upload.value)]
        && r == Success(Some(ViewWithoutPassword(id, users[id])))
    {
      if !Truthy(path) {
        return Failure(ApiError(BAD_REQUEST, AvatarFileMissing));
      }
      if upload.None? {
        return Failure(ApiError(INTERNAL_ERROR, RuntimeTypeError));
      }
      if upload.value == "" {
        return Failure(ApiError(BAD_REQUEST, AvatarUploadFailed));
      }
      if id !in users {
        return Success(None);
      }
      users := users[id := users[id].(avatar := upload.value)];
      r := Success(Some(ViewWithoutPassword(id, users[id])));
    }

    /** `updateUserCoverImage`: as `UpdateAvatar`, for `coverImage`. */
    method UpdateCoverImage(id: UserId, path: Option<string>, upload: Option<Url>)
      returns (r: Result<Option<UserView>, ApiError>)
      requires Valid()
      modifies this
      ensures Valid()
      ensures signed == old(signed) && nextId == old(nextId) && nextToken == old(nextToken)
      ensures !Truthy(path) ==> r == Failure(ApiError(BAD_REQUEST, CoverImageFileMissing)) && unchanged(this)
      ensures Truthy(path) && upload.None? ==>
        r == Failure(ApiError(INTERNAL_ERROR, RuntimeTypeError)) && unchanged(this)
      ensures Truthy(path) && upload == Some("") ==>
        r == Failure(ApiError(BAD_REQUEST, CoverImageUploadFailed)) && unchanged(this)
      ensures Truthy(path) && Truthy(upload) && id !in old(users) ==> r == Success(None) && unchanged(this)
      ensures Truthy(path) && Truthy(upload) && id in old(users) ==>
        && users == old(users)[id := old(users)[id].(coverImage := upload.value)]
        && r == Success(Some(ViewWithoutPassword(id, users[id])))
    {
      if !Truthy(path) {
        return Failure(ApiError(BAD_REQUEST, CoverImageFileMissing));
      }
      if upload.None? {
        return Failure(ApiError(INTERNAL_ERROR, RuntimeTypeError));
      }
      if upload.value == "" {
        return Failure(ApiError(BAD_REQUEST, CoverImageUploadFailed));
      }
      if id !in users {
        return Success(None);
      }
      users := users[id := users[id].(coverImage := upload.value)];
      r := Success(Some(ViewWithoutPassword(id, users[id])));
    }
  }
}
