/** The authentication mock (src/mock/auth.ts): a fixed table of three
    accounts, and a token store that login fills and the user-info request
    reads. */
module Auth {
  import opened Common
  import opened Builtins

  /** What the client learns about a signed-in user. */
  datatype UserInfo = UserInfo(
    buttons: seq<string>,
    roles: seq<string>,
    userId: int,
    userName: string,
    email: string,
    avatar: string)

  /** An account of the fixed table: its credentials and its profile. */
  datatype MockUser = MockUser(userName: string, password: string, userInfo: UserInfo)

  /** The payload of a successful login. */
  datatype LoginData = LoginData(token: string, refreshToken: string)

  const BearerPrefix: string := "Bearer "
  const MockPassword: string := "123456"

  const LoginFailedMsg: string := "用户名或密码错误"
  const LoginOkMsg: string := "登录成功"
  const UnauthorizedMsg: string := "未授权访问"
  const InvalidTokenMsg: string := "Token 无效或已过期"
  const InfoOkMsg: string := "获取用户信息成功"

  /** The account table: Super, Admin and User, each with password "123456"
      and user ids 1 to 3. Admin's buttons are Super's without "role:delete"
      and "upload"; User has only "user:view". The avatars are drawn at random
      once, so they are parameters here. */
  function MockUsers(superAvatar: string, adminAvatar: string, userAvatar: string): (r: seq<MockUser>)
    ensures |r| == 3
    ensures forall i :: 0 <= i < |r| ==>
              r[i].password == MockPassword && r[i].userInfo.userId == i + 1 &&
              r[i].userInfo.userName == r[i].userName
    ensures forall i, j :: 0 <= i < j < |r| ==> r[i].userName != r[j].userName
    ensures forall b :: b in r[1].userInfo.buttons ==> b in r[0].userInfo.buttons
  {
    [ MockUser("Super", MockPassword,
        UserInfo(["user:add", "user:edit", "user:delete", "role:add", "role:edit", "role:delete",
                  "upload", "batch-extract", "compare", "review", "extract", "download"],
                 ["R_SUPER"], 1, "Super", "super@example.com", superAvatar)),
      MockUser("Admin", MockPassword,
        UserInfo(["user:add", "user:edit", "user:delete", "role:add", "role:edit",
                  "batch-extract", "compare", "review", "extract", "download"],
                 ["R_ADMIN"], 2, "Admin", "admin@example.com", adminAvatar)),
      MockUser("User", MockPassword,
        UserInfo(["user:view"], ["R_USER"], 3, "User", "user@example.com", userAvatar)) ]
  }

  /** The account's name and password are exactly the ones given. */
  predicate Credentials(u: MockUser, userName: string, password: string) {
    u.userName == userName && u.password == password
  }

  function CredentialCheck(userName: string, password: string): MockUser -> bool {
    (u: MockUser) => Credentials(u, userName, password)
  }

  /** The account a login request signs in as: the first one in table order
      whose name and password both match, or none. */
  function Authenticate(users: seq<MockUser>, userName: string, password: string): (r: Option<MockUser>)
    ensures r.Some? <==> exists i :: 0 <= i < |users| && Credentials(users[i], userName, password)
    ensures r.Some? ==> exists i :: 0 <= i < |users| && users[i] == r.value &&
                                    Credentials(users[i], userName, password) &&
                                    forall j :: 0 <= j < i ==> !Credentials(users[j], userName, password)
  {
    Find(users, CredentialCheck(userName, password))
  }

  /** Against the fixed table, a login succeeds exactly for the names Super,
      Admin and User with the password "123456". */
  lemma MockLoginAccepts(superAvatar: string, adminAvatar: string, userAvatar: string, userName: string, password: string)
    ensures Authenticate(MockUsers(superAvatar, adminAvatar, userAvatar), userName, password).Some? <==>
            (userName == "Super" || userName == "Admin" || userName == "User") && password == MockPassword
  {
    var users := MockUsers(superAvatar, adminAvatar, userAvatar);
    if (userName == "Super" || userName == "Admin" || userName == "User") && password == MockPassword {
      var i := if userName == "Super" then 0 else if userName == "Admin" then 1 else 2;
      assert Credentials(users[i], userName, password);
    }
  }

  /** The token a login issues for the drawn 32-character suffix. */
  function IssueToken(suffix: string): (token: string)
    ensures StartsWith(token, BearerPrefix)
    ensures |token| == |BearerPrefix| + |suffix| && token[|BearerPrefix|..] == suffix
  {
    BearerPrefix + suffix
  }

  /** An `authorization` header the user-info request accepts for lookup:
      present, not empty, and starting with "Bearer ". These are exactly the
      headers "Bearer " followed by any suffix (the model lets login draw
      any suffix). */
  predicate IsBearerHeader(authorization: Option<string>)
    ensures IsBearerHeader(authorization) <==>
              authorization.Some? && exists suffix :: authorization.value == IssueToken(suffix)
  {
    var accepted := authorization.Some? && authorization.value != "" && StartsWith(authorization.value, BearerPrefix);
    assert accepted ==> authorization.value == IssueToken(authorization.value[|BearerPrefix|..]);
    accepted
  }

  /** Every token in the store was issued by login, so starts with "Bearer ". */
  ghost predicate SessionsWellFormed(sessions: map<string, UserInfo>) {
    forall t :: t in sessions ==> StartsWith(t, BearerPrefix)
  }

  /** The auth mock's state: the account table and `tokenUserMap`, the store
      from issued tokens to profiles. Nothing ever removes a token. */
  class MockAuthServer {
    const users: seq<MockUser>
    var tokenUserMap: map<string, UserInfo>

    ghost predicate Valid()
      reads this
    {
      SessionsWellFormed(tokenUserMap)
    }

    /** The store starts empty. */
    constructor (superAvatar: string, adminAvatar: string, userAvatar: string)
      ensures Valid()
      ensures users == MockUsers(superAvatar, adminAvatar, userAvatar)
      ensures tokenUserMap == map[]
    {
      users := MockUsers(superAvatar, adminAvatar, userAvatar);
      tokenUserMap := map[];
    }

    /** `POST /api/auth/login`. Wrong credentials give 400 with no data and
        leave the store alone. Otherwise the token "Bearer " + `tokenSuffix`
        is bound to the first matching account's profile, replacing only
        that token's previous binding if the suffix was drawn before, and the
        answer is 200 with the token and `refreshToken`. */
    method Login(userName: string, password: string, tokenSuffix: string, refreshToken: string)
      returns (resp: BaseResponse<Option<LoginData>>)
      requires Valid()
      modifies this
      ensures Valid()
      ensures resp.code == 200 <==> Authenticate(users, userName, password).Some?
      ensures Authenticate(users, userName, password).None? ==>
                resp == BaseResponse(400, LoginFailedMsg, None) && tokenUserMap == old(tokenUserMap)
      ensures Authenticate(users, userName, password).Some? ==>
                var token := IssueToken(tokenSuffix);
                && resp == BaseResponse(200, LoginOkMsg, Some(LoginData(token, refreshToken)))
                && tokenUserMap == old(tokenUserMap)[token := Authenticate(users, userName, password).value.userInfo]
      ensures forall t :: t in old(tokenUserMap) ==> t in tokenUserMap
    {
      var user := Authenticate(users, userName, password);
      if user.None? {
        resp := BaseResponse(400, LoginFailedMsg, None);
        return;
      }
      var token := IssueToken(tokenSuffix);
      tokenUserMap := tokenUserMap[token := user.value.userInfo];
      resp := BaseResponse(200, LoginOkMsg, Some(LoginData(token, refreshToken)));
    }

    /** `GET /api/user/info`. A missing header, or one not starting with
        "Bearer ", gives 401 "未授权访问"; a bearer token the store does not
        hold gives 401 "Token 无效或已过期"; otherwise 200 with the profile
        bound to the token. */
    method Info(authorization: Option<string>) returns (resp: BaseResponse<Option<UserInfo>>)
      ensures !IsBearerHeader(authorization) ==> resp == BaseResponse(401, UnauthorizedMsg, None)
      ensures IsBearerHeader(authorization) && authorization.value !in tokenUserMap ==>
                resp == BaseResponse(401, InvalidTokenMsg, None)
      ensures resp.code == 200 <==> IsBearerHeader(authorization) && authorization.value in tokenUserMap
      ensures resp.code == 200 ==> resp == BaseResponse(200, InfoOkMsg, Some(tokenUserMap[authorization.value]))
      ensures Valid() && authorization.Some? && authorization.value in tokenUserMap ==> resp.code == 200
    {
      if authorization.None? || authorization.value == "" || !StartsWith(authorization.value, BearerPrefix) {
        return BaseResponse(401, UnauthorizedMsg, None);
      }
      var token := authorization.value;
      if token !in tokenUserMap {
        return BaseResponse(401, InvalidTokenMsg, None);
      }
      resp := BaseResponse(200, InfoOkMsg, Some(tokenUserMap[token]));
    }
  }

  /** A login followed, when it succeeds, by a user-info request carrying
      the issued token: that request is answered with 200 and exactly the
      profile of the account that signed in, and every token valid before
      the login is still in the store. */
  method LoginThenInfo(server: MockAuthServer, userName: string, password: string, tokenSuffix: string, refreshToken: string)
    returns (login: BaseResponse<Option<LoginData>>, info: Option<BaseResponse<Option<UserInfo>>>)
    requires server.Valid()
    modifies server
    ensures server.Valid()
    ensures login.code == 200 <==> Authenticate(server.users, userName, password).Some?
    ensures Authenticate(server.users, userName, password).Some? ==>
              info == Some(BaseResponse(200, InfoOkMsg, Some(Authenticate(server.users, userName, password).value.userInfo)))
    ensures forall t :: t in old(server.tokenUserMap) ==> t in server.tokenUserMap
  {
    login := server.Login(userName, password, tokenSuffix, refreshToken);
    if login.code == 200 {
      var answer := server.Info(Some(login.data.value.token));
      info := Some(answer);
    } else {
      info := None;
    }
  }
}
