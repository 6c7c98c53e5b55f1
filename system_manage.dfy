/** The system-management mock (src/mock/system-manage.ts): the generated
    user and role lists and the two list handlers, which narrow a list with
    the filters a query supplies and answer with one page of the result. */
module SystemManage {
  import opened Common
  import opened Builtins
  import opened Pagination

  // ---------------------------------------------------------------------------
  // Records and queries
  // ---------------------------------------------------------------------------

  /** One row of the user list. `status` is "1" (enabled) or "2" (disabled). */
  datatype UserListItem = UserListItem(
    id: int,
    avatar: string,
    status: string,
    userName: string,
    userGender: string,
    nickName: string,
    userPhone: string,
    userEmail: string,
    userRoles: seq<string>,
    createBy: string,
    createTime: string,
    updateBy: string,
    updateTime: string)

  /** One row of the role list. */
  datatype RoleListItem = RoleListItem(
    roleId: int,
    roleName: string,
    roleCode: string,
    description: string,
    enabled: bool,
    createTime: string)

  /** The query of `/api/user/list`; every field may be left out. */
  datatype UserSearchParams = UserSearchParams(
    current: Option<int>,
    size: Option<int>,
    userName: Option<string>,
    userGender: Option<string>,
    status: Option<string>)

  /** The query of `/api/role/list`; every field may be left out. */
  datatype RoleSearchParams = RoleSearchParams(
    current: Option<int>,
    size: Option<int>,
    roleName: Option<string>,
    roleCode: Option<string>,
    enabled: Option<bool>)

  /** A string filter is applied only when it is given and not empty (a
      JavaScript `if (value)` on a string). */
  predicate Present(o: Option<string>) {
    o.Some? && o.value != ""
  }

  const UserListOkMsg: string := "获取用户列表成功"
  const RoleListOkMsg: string := "获取角色列表成功"

  // ---------------------------------------------------------------------------
  // Generators: the parts that do not depend on randomness
  // ---------------------------------------------------------------------------

  /** The randomly drawn fields of one generated user. */
  datatype UserDraw = UserDraw(
    avatar: string,
    status: string,
    userName: string,
    userGender: string,
    nickName: string,
    userPhone: string,
    userEmail: string,
    userRoles: seq<string>,
    createBy: string,
    createTime: string,
    updateBy: string,
    updateTime: string)

  /** The randomly drawn fields of one generated role: the word its code is
      made from, its description, its flag and its creation time. */
  datatype RoleDraw = RoleDraw(codeWord: string, description: string, enabled: bool, createTime: string)

  /** `count` users; user `i` (from 0) gets id `i + 1` and the fields drawn for `i`. */
  function GenerateUserList(count: nat, draw: nat -> UserDraw): (r: seq<UserListItem>)
    ensures |r| == count
    ensures forall i :: 0 <= i < |r| ==> r[i].id == i + 1
    ensures forall i, j :: 0 <= i < j < |r| ==> r[i].id < r[j].id
  {
    seq(count, i requires 0 <= i < count =>
      var d := draw(i);
      UserListItem(i + 1, d.avatar, d.status, d.userName, d.userGender, d.nickName, d.userPhone,
                   d.userEmail, d.userRoles, d.createBy, d.createTime, d.updateBy, d.updateTime))
  }

  /** The ten role names, used in turn. */
  const RoleNames: seq<string> :=
    ["管理员", "普通用户", "编辑者", "审核员", "访客", "超级管理员", "部门经理", "财务", "人事", "技术"]

  /** The number a string of decimal digits denotes, most significant first. */
  ghost function DigitsValue(s: string): int
  {
    if s == [] then 0 else DigitsValue(s[..|s| - 1]) * 10 + (s[|s| - 1] as int - '0' as int)
  }

  /** The decimal digits of `n` (`String(n)`): no leading zero, and they
      denote `n`. */
  function DecimalString(n: nat): (s: string)
    ensures |s| >= 1
    ensures forall i :: 0 <= i < |s| ==> '0' <= s[i] <= '9'
    ensures 1 < |s| ==> s[0] != '0'
    ensures DigitsValue(s) == n
  {
    var digit := ['0' + (n % 10) as char];
    if n < 10 then digit
    else
      var prefix := DecimalString(n / 10);
      assert (prefix + digit)[..|prefix|] == prefix;
      prefix + digit
  }

  /** The name of role `i`: the name in the table at `i` modulo its length,
      or "角色" followed by the decimal digits of `i + 1` when that name is
      empty. Either way the role gets a non-empty name (`GeneratedRoles`
      shows the fallback is never taken). */
  function RoleNameAt(i: nat): (r: string)
    ensures r != ""
    ensures RoleNames[i % |RoleNames|] != "" ==> r == RoleNames[i % |RoleNames|]
  {
    var name := RoleNames[i % |RoleNames|];
    if name != "" then name else "角色" + DecimalString(i + 1)
  }

  /** Upper case of an ASCII letter; every other character is unchanged. */
  function UpperChar(c: char): (u: char)
    ensures 'a' <= c <= 'z' ==> 'A' <= u <= 'Z' && u as int == c as int - 32
    ensures !('a' <= c <= 'z') ==> u == c
    ensures !('a' <= u <= 'z')
  {
    if 'a' <= c <= 'z' then (c as int - 32) as char else c
  }

  /** `s.toUpperCase()` on ASCII text: each lower-case letter becomes its
      upper-case letter, and every other character stays. */
  function ToUpperAscii(s: string): (r: string)
    ensures |r| == |s|
    ensures forall i :: 0 <= i < |s| ==>
              ('a' <= s[i] <= 'z' ==> r[i] as int == s[i] as int - 32) &&
              (!('a' <= s[i] <= 'z') ==> r[i] == s[i])
    ensures forall i :: 0 <= i < |r| ==> !('a' <= r[i] <= 'z')
  {
    seq(|s|, i requires 0 <= i < |s| => UpperChar(s[i]))
  }

  /** The code prefix every role carries. */
  const RoleCodePrefix: string := "ROLE_"

  /** `count` roles; role `i` (from 0) gets id `i + 1`, the name `RoleNameAt(i)`
      and a code made of "ROLE_" and the upper-cased word drawn for `i`. */
  function GenerateRoleList(count: nat, draw: nat -> RoleDraw): (r: seq<RoleListItem>)
    ensures |r| == count
    ensures forall i :: 0 <= i < |r| ==> r[i].roleId == i + 1
  {
    seq(count, i requires 0 <= i < count =>
      var d := draw(i);
      RoleListItem(i + 1, RoleNameAt(i), RoleCodePrefix + ToUpperAscii(d.codeWord),
                   d.description, d.enabled, d.createTime))
  }

  /** Role names cycle through the table: role `i` is named `RoleNames[i % 10]`
      (the fallback name is never used, since no table entry is empty), so
      roles ten apart share a name; every code starts with "ROLE_" and holds
      no lower-case ASCII letter. */
  lemma GeneratedRoles(count: nat, draw: nat -> RoleDraw)
    ensures forall i :: 0 <= i < count ==> GenerateRoleList(count, draw)[i].roleName == RoleNames[i % 10]
    ensures forall i :: 0 <= i && i + 10 < count ==>
              GenerateRoleList(count, draw)[i].roleName == GenerateRoleList(count, draw)[i + 10].roleName
    ensures forall i :: 0 <= i < count ==>
              var code := GenerateRoleList(count, draw)[i].roleCode;
              StartsWith(code, RoleCodePrefix) &&
              forall k :: 0 <= k < |code| ==> !('a' <= code[k] <= 'z')
  {
    var r := GenerateRoleList(count, draw);
    assert |RoleNames| == 10;
    assert forall k :: 0 <= k < 10 ==> |RoleNames[k]| > 0;
    forall i | 0 <= i < count ensures r[i].roleName == RoleNames[i % 10] {
      assert |RoleNames[i % 10]| > 0;
      assert r[i].roleName == RoleNameAt(i);
    }
    forall i | 0 <= i && i + 10 < count ensures r[i].roleName == r[i + 10].roleName {
      assert (i + 10) % 10 == i % 10;
    }
    forall i | 0 <= i < count
      ensures StartsWith(r[i].roleCode, RoleCodePrefix)
      ensures forall k :: 0 <= k < |r[i].roleCode| ==> !('a' <= r[i].roleCode[k] <= 'z')
    {
      var upper := ToUpperAscii(draw(i).codeWord);
      assert r[i].roleCode == RoleCodePrefix + upper;
      forall k | 0 <= k < |r[i].roleCode| ensures !('a' <= r[i].roleCode[k] <= 'z') {
        if k >= |RoleCodePrefix| {
          assert r[i].roleCode[k] == upper[k - |RoleCodePrefix|];
        }
      }
    }
  }

  // ---------------------------------------------------------------------------
  // The user-list handler
  // ---------------------------------------------------------------------------

  /** Keeps users whose user name or nickname contains `name`. */
  function NameFilter(name: string): UserListItem -> bool {
    (u: UserListItem) => Includes(u.userName, name) || Includes(u.nickName, name)
  }

  /** Keeps users of gender `gender`. */
  function GenderFilter(gender: string): UserListItem -> bool {
    (u: UserListItem) => u.userGender == gender
  }

  /** Keeps users of status `status`. */
  function StatusFilter(status: string): UserListItem -> bool {
    (u: UserListItem) => u.status == status
  }

  /** A user satisfies every filter the query supplies: the name filter
      (user name or nickname contains it), the gender filter (equal) and the
      status filter (equal). */
  predicate UserMatches(q: UserSearchParams, u: UserListItem) {
    && (!Present(q.userName) || Includes(u.userName, q.userName.value) || Includes(u.nickName, q.userName.value))
    && (!Present(q.userGender) || u.userGender == q.userGender.value)
    && (!Present(q.status) || u.status == q.status.value)
  }

  function UserMatcher(q: UserSearchParams): UserListItem -> bool {
    (u: UserListItem) => UserMatches(q, u)
  }

  function NameStage(q: UserSearchParams): UserListItem -> bool {
    (u: UserListItem) => !Present(q.userName) || NameFilter(q.userName.value)(u)
  }

  function NameGenderStage(q: UserSearchParams): UserListItem -> bool {
    (u: UserListItem) => NameStage(q)(u) && (!Present(q.userGender) || GenderFilter(q.userGender.value)(u))
  }

  /** `filteredList` after the three optional filters, in the source's order:
      by name, then by gender, then by status. The chain is one filter by
      `UserMatches`: a user survives exactly when it satisfies every supplied
      filter. */
  function FilterUsers(users: seq<UserListItem>, q: UserSearchParams): (r: seq<UserListItem>)
    ensures r == Filter(users, UserMatcher(q))
  {
    var all: UserListItem -> bool := u => true;
    FilterKeepsAll(users, all);
    OptionalFilterStage(users, Present(q.userName),
      if Present(q.userName) then NameFilter(q.userName.value) else all, all, NameStage(q));
    OptionalFilterStage(users, Present(q.userGender),
      if Present(q.userGender) then GenderFilter(q.userGender.value) else all, NameStage(q), NameGenderStage(q));
    OptionalFilterStage(users, Present(q.status),
      if Present(q.status) then StatusFilter(q.status.value) else all, NameGenderStage(q), UserMatcher(q));
    var byName := if Present(q.userName) then Filter(users, NameFilter(q.userName.value)) else users;
    var byGender := if Present(q.userGender) then Filter(byName, GenderFilter(q.userGender.value)) else byName;
    if Present(q.status) then Filter(byGender, StatusFilter(q.status.value)) else byGender
  }

  /** Filtering is sound and complete and keeps order: a user is in the
      result exactly when it is in the list and satisfies every supplied
      filter, and the result is a subsequence of the list. */
  lemma FilterUsersSoundComplete(users: seq<UserListItem>, q: UserSearchParams)
    ensures forall u :: u in FilterUsers(users, q) <==> u in users && UserMatches(q, u)
    ensures IsSubsequence(FilterUsers(users, q), users)
  {
    FilterIsSubsequence(users, UserMatcher(q));
  }

  /** The `/api/user/list` handler: always code 200, with the requested page
      (page 1 and 10 per page unless given) of the filtered list; `total`
      counts the users that survive the filters, not the whole list. */
  function UserListResponse(users: seq<UserListItem>, q: UserSearchParams): (r: BaseResponse<PaginatedResponse<UserListItem>>)
    ensures r == BaseResponse(200, UserListOkMsg,
                   GeneratePaginatedData(Filter(users, UserMatcher(q)), q.current.GetOr(DefaultCurrent), q.size.GetOr(DefaultSize)))
    ensures r.code == 200
    ensures r.data.total == |Filter(users, UserMatcher(q))| <= |users|
    ensures r.data.current == q.current.GetOr(DefaultCurrent) && r.data.size == q.size.GetOr(DefaultSize)
    ensures forall u :: u in r.data.records ==> u in users && UserMatches(q, u)
  {
    var current := q.current.GetOr(DefaultCurrent);
    var size := q.size.GetOr(DefaultSize);
    BaseResponse(200, UserListOkMsg, GeneratePaginatedData(FilterUsers(users, q), current, size))
  }

  /** A query without `current` and `size` gets the first ten users that
      pass the filters. */
  lemma DefaultUserPage(users: seq<UserListItem>, q: UserSearchParams)
    requires q.current.None? && q.size.None?
    ensures UserListResponse(users, q).data.records ==
            FilterUsers(users, q)[..Min(10, |FilterUsers(users, q)|)]
  {
  }

  /** Without a name, gender or status filter the handler pages the whole list. */
  lemma UnfilteredUserList(users: seq<UserListItem>, q: UserSearchParams)
    requires !Present(q.userName) && !Present(q.userGender) && !Present(q.status)
    ensures UserListResponse(users, q).data ==
            GeneratePaginatedData(users, q.current.GetOr(DefaultCurrent), q.size.GetOr(DefaultSize))
  {
  }

  // ---------------------------------------------------------------------------
  // The role-list handler
  // ---------------------------------------------------------------------------

  /** Keeps roles whose name contains `name`. */
  function RoleNameFilter(name: string): RoleListItem -> bool {
    (role: RoleListItem) => Includes(role.roleName, name)
  }

  /** Keeps roles whose code contains `code`. */
  function RoleCodeFilter(code: string): RoleListItem -> bool {
    (role: RoleListItem) => Includes(role.roleCode, code)
  }

  /** Keeps roles whose flag is `enabled`. */
  function EnabledFilter(enabled: bool): RoleListItem -> bool {
    (role: RoleListItem) => role.enabled == enabled
  }

  /** A role satisfies every filter the query supplies. */
  predicate RoleMatches(q: RoleSearchParams, role: RoleListItem) {
    && (!Present(q.roleName) || Includes(role.roleName, q.roleName.value))
    && (!Present(q.roleCode) || Includes(role.roleCode, q.roleCode.value))
    && (q.enabled.None? || role.enabled == q.enabled.value)
  }

  function RoleMatcher(q: RoleSearchParams): RoleListItem -> bool {
    (role: RoleListItem) => RoleMatches(q, role)
  }

  function RoleNameStage(q: RoleSearchParams): RoleListItem -> bool {
    (role: RoleListItem) => !Present(q.roleName) || RoleNameFilter(q.roleName.value)(role)
  }

  function RoleNameCodeStage(q: RoleSearchParams): RoleListItem -> bool {
    (role: RoleListItem) => RoleNameStage(q)(role) && (!Present(q.roleCode) || RoleCodeFilter(q.roleCode.value)(role))
  }

  /** `filteredList` after the three optional filters, in the source's order:
      by name, then by code, then by flag (applied whenever the flag is given,
      also when it is false). The chain is one filter by `RoleMatches`. */
  function FilterRoles(roles: seq<RoleListItem>, q: RoleSearchParams): (r: seq<RoleListItem>)
    ensures r == Filter(roles, RoleMatcher(q))
  {
    var all: RoleListItem -> bool := role => true;
    FilterKeepsAll(roles, all);
    OptionalFilterStage(roles, Present(q.roleName),
      if Present(q.roleName) then RoleNameFilter(q.roleName.value) else all, all, RoleNameStage(q));
    OptionalFilterStage(roles, Present(q.roleCode),
      if Present(q.roleCode) then RoleCodeFilter(q.roleCode.value) else all, RoleNameStage(q), RoleNameCodeStage(q));
    OptionalFilterStage(roles, q.enabled.Some?,
      if q.enabled.Some? then EnabledFilter(q.enabled.value) else all, RoleNameCodeStage(q), RoleMatcher(q));
    var byName := if Present(q.roleName) then Filter(roles, RoleNameFilter(q.roleName.value)) else roles;
    var byCode := if Present(q.roleCode) then Filter(byName, RoleCodeFilter(q.roleCode.value)) else byName;
    if q.enabled.Some? then Filter(byCode, EnabledFilter(q.enabled.value)) else byCode
  }

  /** Role filtering is sound and complete and keeps order. */
  lemma FilterRolesSoundComplete(roles: seq<RoleListItem>, q: RoleSearchParams)
    ensures forall role :: role in FilterRoles(roles, q) <==> role in roles && RoleMatches(q, role)
    ensures IsSubsequence(FilterRoles(roles, q), roles)
  {
    FilterIsSubsequence(roles, RoleMatcher(q));
  }

  /** The `/api/role/list` handler: always code 200, with the requested page of
      the filtered list; `total` counts the roles that survive the filters. */
  function RoleListResponse(roles: seq<RoleListItem>, q: RoleSearchParams): (r: BaseResponse<PaginatedResponse<RoleListItem>>)
    ensures r == BaseResponse(200, RoleListOkMsg,
                   GeneratePaginatedData(Filter(roles, RoleMatcher(q)), q.current.GetOr(DefaultCurrent), q.size.GetOr(DefaultSize)))
    ensures r.code == 200
    ensures r.data.total == |Filter(roles, RoleMatcher(q))| <= |roles|
    ensures r.data.current == q.current.GetOr(DefaultCurrent) && r.data.size == q.size.GetOr(DefaultSize)
    ensures forall role :: role in r.data.records ==> role in roles && RoleMatches(q, role)
  {
    var current := q.current.GetOr(DefaultCurrent);
    var size := q.size.GetOr(DefaultSize);
    BaseResponse(200, RoleListOkMsg, GeneratePaginatedData(FilterRoles(roles, q), current, size))
  }

  /** With only `enabled` given, the answer holds exactly the roles with that
      flag, whichever value it has. */
  lemma EnabledOnlyFilter(roles: seq<RoleListItem>, q: RoleSearchParams)
    requires !Present(q.roleName) && !Present(q.roleCode) && q.enabled.Some?
    ensures FilterRoles(roles, q) == Filter(roles, EnabledFilter(q.enabled.value))
  {
  }
}
