# Roles guard and users service, modelled in Dafny

This project models the two pieces of logic in a small NestJS backend module:

- the **roles guard** (`RolesGuard.canActivate`), which decides whether a request may reach a
  route handler from the roles declared on the handler or its controller class and the role of
  the user attached to the request;
- the **users service** (`UsersService.signup` and `UsersService.login`), which creates accounts
  in the user table with a hashed password and exchanges an email and password for a signed
  access token.

Files:

- `wrappers.dfy` — `Option` and `Result`.
- `roles_guard.dfy` — module `RolesGuard`: the guard as a pure function of the handler-level
  declaration, the class-level declaration and the optional request user, with lemmas for each
  of its outcomes. Being a function, the guard is deterministic and changes no state.
- `users_service.dfy` — module `UsersService`: a `UsersService` class whose `users` field is the
  user table as a map keyed by email. `Signup` is a method that modifies the service and the
  caller's payload object. `Login` is a function that only reads the table.

Modelling choices:

- `user.role?.includes(r)` depends on what `role` holds. `RoleValue` covers the three cases:
  `Missing` (`null`/`undefined`, so the optional call yields `undefined` and the test fails),
  `Text` (a string, where `includes` is substring containment) and `Tags` (an array, where
  `includes` is membership). The role enumeration and the database schema are not part of this
  model, so both shapes are kept. `StringRoleMatchesSubstring` shows the consequence of the
  string case: a role of `superadmin` satisfies a requirement of `admin`.
- `getAllAndOverride` over `[handler, class]` returns the first declaration that is not
  `undefined`. A handler that declares an empty list therefore hides the class-level list.
- The hashing library is a `Bcrypt` value holding two function values, `hash` and `compare`,
  held by the service as a constant. `Sound` states what the service relies on: a hash of a
  password compares equal to that password and is never the password itself.
- The database schema is not part of this model: ids are assumed to come from an autoincrement
  integer column, modelled as the counter `nextId` starting at 1, and the role enumeration is
  assumed to be a string enumeration.
- A token is its claims (`email`, `id`, `role`) plus the expiry `"1d"`.
- Signup hashes the password and writes the hash into the caller's payload before it checks for
  a duplicate email (users.service.ts:28-32). `Signup` keeps that order, so the payload holds the
  hash on both the success and the error path.
- Signup writes the hash into the caller's payload even when it refuses a duplicate email
  (src/users/users.service.ts:28-32). The two login refusals carry different messages: none for
  an unknown email, "Invalid password" for a wrong password (src/users/users.service.ts:61, 69).

## Model

| member | source | states |
|---|---|---|
| `RolesGuard.IsSubstring` | src/roles/roles.guard.ts:28 | String `includes`: true exactly when the required role occurs at some position of the role string |
| `RolesGuard.Includes` | src/roles/roles.guard.ts:28 | `role?.includes(r)`: always false for an absent role, membership for an array of tags, substring occurrence for a string |
| `RolesGuard.AnyIncluded` | src/roles/roles.guard.ts:28 | `some` over the required roles: true exactly when at least one required role is included in the user's role |
| `RolesGuard.ResolveRequiredRoles` | src/roles/roles.guard.ts:12-15 | `getAllAndOverride` over handler then class: the first declaration that is not undefined wins, so a handler list, even an empty one, hides the class list; nothing is declared only when both are absent |
| `RolesGuard.CanActivate` | src/roles/roles.guard.ts:9-29 | With no declaration on handler or class the request passes; with a resolved declaration it passes exactly when a user is present and some declared role is included in that user's role |
| `RolesGuard.NoRequirementAllowsAll` | src/roles/roles.guard.ts:12-19 | No declaration on handler or class allows the request whatever the user is |
| `RolesGuard.HandlerOverridesClass` | src/roles/roles.guard.ts:12-15 | A handler declaration makes the class declaration irrelevant; without one the class declaration decides as if declared on the handler |
| `RolesGuard.DeclarationsNotCombined` | src/roles/roles.guard.ts:12-15 | The declarations are not merged: a user with only the class-level role is refused by a handler that declares another role |
| `RolesGuard.MissingUserDenied` | src/roles/roles.guard.ts:20-24 | With a declaration present, a request without a user is refused |
| `RolesGuard.EmptyDeclarationDeniesAll` | src/roles/roles.guard.ts:17-28 | An empty declared list, on the handler or on the class, refuses every request with or without a user |
| `RolesGuard.AbsentRoleDenied` | src/roles/roles.guard.ts:28 | A user whose role is null or undefined is refused whenever a declaration is present |
| `RolesGuard.MoreRolesNeverDeny` | src/roles/roles.guard.ts:28 | For a present user, a declared list containing every role of another allows whenever the smaller one does |
| `RolesGuard.AdminRequirement` | src/roles/roles.guard.ts:17-28 | A requirement of `admin` allows a user with role `admin` and refuses one with role `user` and a request without a user |
| `RolesGuard.StringRoleMatchesSubstring` | src/roles/roles.guard.ts:28 | A string role `superadmin` satisfies a requirement of `admin`; an array holding `superadmin` does not |
| `UsersService.UsersService.EncryptPassword` | src/users/users.service.ts:105-107 | Under a sound hashing library the hash compares equal to the password and differs from it |
| `UsersService.UsersService.DecryptPassword` | src/users/users.service.ts:108-110 | Under a sound hashing library every hash made from the password matches it |
| `UsersService.UsersService.Signup` | src/users/users.service.ts:20-48 | Writes the hash into the payload on every path; a taken email gives BadRequest with the source's message and description and leaves table and counter unchanged; a fresh email adds exactly one row with the next id, the hash and the payload's email and role, answers with only email and id, and keeps every other row; the table invariant is preserved |
| `UsersService.UsersService.Login` | src/users/users.service.ts:50-83 | Unknown email gives Unauthorized without a message; a password that does not compare gives Unauthorized "Invalid password"; success exactly when the email is known and the password compares, and then the token carries the row's email, id and role with expiry "1d"; being a function it leaves the table unchanged |
| `UsersService.LoginAfterSignup` | src/users/users.service.ts:28-82 | A row as signup writes it lets the same email and plaintext log in and yields the token for that row |
| `UsersService.SignupThenLogin` | src/users/users.service.ts:20-83 | Running signup and then login with the same email and plaintext: a fresh email yields the new row's id in the signup answer and a one-day token with that email, id and role; a taken email yields the BadRequest and the login the table already gave |
| `UsersService.TokenNamesCaller` | src/users/users.service.ts:54-80 | In a well-formed table a token names the email that logged in, and its id belongs to that row alone |
| `UsersService.LoginRefusalsAreUnauthorized` | src/users/users.service.ts:60-70 | Every login refusal is an Unauthorized error |

## Left out

- The dependency-injection container, decorators, the reflector and the execution context: the
  guard receives the already-resolved handler and class declarations and the request user.
- The `console.log` calls in the guard (src/roles/roles.guard.ts:10, 16, 26): logging only.
- Role values other than null, undefined, a string or an array: `includes` on them would throw,
  which the model does not represent.
- The database: Prisma becomes a map keyed by email and an id counter; storage failures and the
  table's own unique-email constraint error are not modelled, since signup's lookup always runs
  first in this sequential model.
- Concurrency: async scheduling and the race between the lookup and the create of two
  concurrent signups for the same email.
- The internals of bcrypt (salt generation, cost factor, the 72-byte input limit): only the link
  stated by `Sound` is assumed; the random salt is part of the `hash` function value.
- JWT signing, encoding and clock arithmetic: a token is its claims and the literal expiry
  `"1d"`.
- Profile fields of the signup payload other than email, password and role, and column defaults:
  the payload type is not part of this model.
- DTO validation and the commented-out CRUD stubs (src/users/users.service.ts:85-103).
