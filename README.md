# Mock back end of the legal-document admin front end

The front end ships a mock back end. It answers the admin pages' requests
without a server. This project models the deterministic part of that mock
back end in Dafny and proves what its handlers promise.

- **Paging** (`generatePaginatedData`). Page `current` of a list with `size`
  records per page is the `slice` from `(current - 1) * size` to
  `current * size`. The answer echoes `current` and `size` and reports the
  length of the whole list as `total`. The model keeps JavaScript's `slice`
  rules: a negative position counts from the end, and positions are clamped
  to the list. So it needs no precondition, and the properties are proved for
  page numbers from 1 on and page sizes from 0 on. The defaults, page 1 and 10 per page, are Dafny
  default arguments.
- **User and role lists** (`/api/user/list`, `/api/role/list`). Each handler
  narrows a fixed list with up to three optional filters, one after another,
  and then pages the result. The user filters are: user name or nickname
  contains the query's name, gender equal, status equal. The role filters
  are: name contains, code contains, `enabled` equal. The last role filter is
  applied whenever `enabled` is given, even when it is `false`. The lists are
  inputs, not random output. The generators keep only their deterministic
  parts: ids `index + 1`, role names cycling through a ten-name table, and
  role codes `"ROLE_"` followed by an upper-cased drawn word.
- **Login and user info** (`/api/auth/login`, `/api/user/info`). A class
  holds the fixed account table and `tokenUserMap`, the store from issued
  tokens to user profiles. `Login` checks the credentials against the table,
  takes the first match, issues `"Bearer " + suffix` and binds it to that
  account's profile. `Info` checks the `Bearer ` prefix of the
  `authorization` header and looks the token up. The random 32-character
  suffix and the refresh token are parameters.

Modules: `Common` (option and response shapes), `Builtins` (the JavaScript
`slice`, `filter`, `find`, `includes` and `startsWith` the handlers use),
`Pagination`, `SystemManage` and `Auth`.

## Model

| member | source | states |
|---|---|---|
| `Builtins.Slice` | src/mock/utils.ts:153 | When `start <= end`, `slice` returns at most `end - start` elements (with `start > end` it may return more, since negative positions count from the end). For `0 <= start <= end` it returns exactly the positions `start` to `end`, clamped to the list. Every element it returns comes from the list. |
| `Builtins.Filter` | src/mock/system-manage.ts:76-86 | `filter` keeps an element iff it satisfies the predicate. Each kept element keeps its multiplicity in the input, and the result is no longer than the input. |
| `Builtins.FilterIsSubsequence` | src/mock/system-manage.ts:76-86 | Filtering keeps the relative order of the input: the result is a subsequence of it. |
| `Builtins.FilterFuse` | src/mock/system-manage.ts:73-87 | Two filters applied in a row equal one filter with the conjunction of both conditions. |
| `Builtins.FilterKeepsAll` | src/mock/system-manage.ts:73 | A filter whose condition every element meets returns the list unchanged. |
| `Builtins.FindIndex` | src/mock/auth.ts:69 | Returns the position of the first element that satisfies the predicate, or none when no element does. |
| `Builtins.Find` | src/mock/auth.ts:69 | `find` returns nothing iff no element satisfies the predicate. Otherwise it returns an element that satisfies it and has no satisfying element before it. |
| `Builtins.IncludesIffOccurs` | src/mock/system-manage.ts:77 | `includes` holds iff the substring occurs at some position (the empty string occurs everywhere). |
| `Pagination.PageStart` | src/mock/utils.ts:151 | With a non-negative size, a page's start is not negative from page 1 on. With a positive size it is negative from page 0 down. |
| `Pagination.PageStartIsProduct` | src/mock/utils.ts:151 | The page start equals `(current - 1) * size`. |
| `Pagination.GeneratePaginatedData` | src/mock/utils.ts:146-161 | `total` is the length of the whole list, and `current` and `size` are echoed unchanged. With a non-negative size, at most `size` records come back, and from page 1 on the records are exactly `data[min((current-1)*size, n) .. min(current*size, n)]`, and a page that starts at or past the end is empty. Every record comes from `data`. |
| `Pagination.DefaultsArePageOneOfTen` | src/mock/utils.ts:148-149 | Called without a page and a size, it answers the first ten records as page 1 of size 10. |
| `Pagination.AdjacentPages` | src/mock/utils.ts:151-153 | For a page `c` from 1 on and a non-negative size, pages `c` and `c + 1` together are the contiguous window from the start of page `c` to the end of page `c + 1`: no overlap and no gap. |
| `Pagination.PagesUpToIsPrefix` | src/mock/utils.ts:151-153 | Pages 1 to `k`, joined in order, are the prefix of the first `k * size` records (fewer if the list is shorter). |
| `Pagination.PageZeroIsEmpty` | src/mock/utils.ts:151-153 | Page 0 is empty for every page size. |
| `Pagination.NegativePageCountsFromEnd` | src/mock/utils.ts:151-153 | A page number below 0 with a positive size reads a window counted from the end of the list. |
| `SystemManage.GenerateUserList` | src/mock/system-manage.ts:11-33 | It generates `count` users. User `i` has id `i + 1`, so the ids run 1 to `count` in increasing order. |
| `SystemManage.GenerateRoleList` | src/mock/system-manage.ts:36-58 | It generates `count` roles. Role `i` has id `i + 1`. |
| `SystemManage.GeneratedRoles` | src/mock/system-manage.ts:37-53 | Role `i` is named `roleNames[i % 10]`, so the fallback name is never used and roles ten apart share a name. Every role code starts with `ROLE_` and has no lower-case letter. |
| `SystemManage.DecimalString` | src/mock/system-manage.ts:52 | The decimal digits of `n`, as template interpolation writes them: non-empty, digits only, no leading zero, and they denote `n`. |
| `SystemManage.RoleNameAt` | src/mock/system-manage.ts:52 | A role's name is never empty. When the table entry at `i % 10` is non-empty, it is that entry; `GeneratedRoles` shows every entry is non-empty. |
| `SystemManage.ToUpperAscii` | src/mock/system-manage.ts:53 | Upper-casing keeps the length. Each lower-case ASCII letter becomes its upper-case letter, and every other character stays as it was. No lower-case ASCII letter remains. |
| `SystemManage.FilterUsers` | src/mock/system-manage.ts:73-87 | The chain of optional name, gender and status filters equals one filter by `UserMatches`, which keeps a user iff it satisfies every supplied filter. |
| `SystemManage.FilterUsersSoundComplete` | src/mock/system-manage.ts:75-87 | A user is in the filtered list iff it is in the full list and matches every supplied filter (name contained in the user name or nickname, gender equal, status equal). The filtered list is a subsequence of the full list. |
| `SystemManage.UserListResponse` | src/mock/system-manage.ts:69-97 | The answer is code 200, message "获取用户列表成功" and the requested page (`current` and `size` defaulting to 1 and 10) of the list filtered by `UserMatches`. So `total` is the number of matching users, at most the list's length, and every returned user is in the list and matches every supplied filter. |
| `SystemManage.DefaultUserPage` | src/mock/system-manage.ts:70 | Without `current` and `size`, the answer holds the first ten filtered users. |
| `SystemManage.UnfilteredUserList` | src/mock/system-manage.ts:73-90 | With no name, gender or status filter, the handler pages the entire user list. |
| `SystemManage.FilterRoles` | src/mock/system-manage.ts:108-120 | The chain of name, code and `enabled` filters equals one filter by `RoleMatches`, which keeps a role iff it satisfies every supplied filter. |
| `SystemManage.FilterRolesSoundComplete` | src/mock/system-manage.ts:110-120 | A role is in the filtered list iff it is in the full list and matches every supplied filter. The filtered list is a subsequence of the full list. |
| `SystemManage.RoleListResponse` | src/mock/system-manage.ts:104-130 | The answer is code 200, message "获取角色列表成功" and the requested page (`current` and `size` defaulting to 1 and 10) of the list filtered by `RoleMatches`. So `total` is the number of matching roles, and every returned role is in the list and matches every supplied filter. |
| `SystemManage.EnabledOnlyFilter` | src/mock/system-manage.ts:118-120 | With only `enabled` given, the `enabled` filter is applied, whichever its value. |
| `Auth.MockUsers` | src/mock/auth.ts:10-55 | The table holds three accounts with distinct names, each with password "123456", user ids 1 to 3 in order, and a profile carrying the account's own name. Admin's buttons are all among Super's. `MockLoginAccepts` states which logins it accepts. |
| `Auth.Authenticate` | src/mock/auth.ts:69 | A login finds an account iff some account matches both name and password. The one it finds is the first such account in table order. |
| `Auth.MockLoginAccepts` | src/mock/auth.ts:10-55 | Against the fixed table, login succeeds iff the name is Super, Admin or User and the password is "123456". |
| `Auth.IssueToken` | src/mock/auth.ts:80 | Every issued token starts with "Bearer ", followed by the drawn suffix. |
| `Auth.IsBearerHeader` | src/mock/auth.ts:104 | A header passes the user-info check iff it is present and is "Bearer " followed by any suffix, which is the form of every token `IssueToken` builds (the model lets login draw any suffix). |
| `Auth.MockAuthServer.constructor` | src/mock/auth.ts:58 | The token store starts empty. |
| `Auth.MockAuthServer.Login` | src/mock/auth.ts:62-95 | Code 200 iff the credentials match an account. A failure answers 400 with null data and leaves the store unchanged. A success binds exactly the issued token to the first matching account's profile, changes no other entry and returns the token and the refresh token. No token is ever removed. |
| `Auth.MockAuthServer.Info` | src/mock/auth.ts:98-129 | A missing header, or one not starting with "Bearer ", gives 401 "未授权访问" whatever the store holds. A bearer token the store does not hold gives 401 "Token 无效或已过期". Otherwise the answer is 200 with exactly the stored profile. Every token in a well-formed store is answered with 200. |
| `Auth.LoginThenInfo` | src/mock/auth.ts:84-127 | After a successful login, an info request with the returned token gets 200 and exactly that account's profile. Tokens issued earlier stay in the store. |

## Left out

- Random generation (`mockjs` `Random.*`, `Math.random`): avatars, words, names, dates, phone numbers, flags, tags and tree data. Random values are inputs of the model: a `draw` function for the generators, avatar strings for the account table, and the token suffix and refresh token for login.
- `generatePrice`, `generateRating` and the other float generators: floating point.
- `delay`: a timer promise, pure I/O.
- Query parameters arrive as strings in the running mock, so `start + size` could concatenate strings, and a string `enabled` never equals a boolean. The model takes `current`, `size` and `enabled` as already-typed values (`int`, `Option<bool>`).
- `SystemManage.ToUpperAscii`: upper-cases ASCII letters only, not the whole Unicode case mapping of `toUpperCase`, because the drawn words are lower-case ASCII.
- The mock lists are generated once at start-up with 100 users and 15 roles. The handlers and generators take any list or count, so those two sizes are not part of the model. Neither are the generators' default counts (50 users, 20 roles), which no call uses.
- Login draws a 32-letter upper-case token suffix. The model lets the suffix be any string, so `Auth.IsBearerHeader` is stated against that wider set of tokens.
- The menu response in src/mock/system-manage.ts, the dashboard mock, the route table, the request wrappers in src/api/documents.ts and the type-only declaration files: constant data and wiring with no behaviour to prove.
- The batch submission, polling and aggregation design: no code for it exists in the repository.
- Login issues a token whose suffix may repeat an earlier one. In that case the store rebinds that one token, and `Login` states this exactly. The model does not assume the suffixes are unique.
