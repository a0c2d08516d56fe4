/**
 * The role-based access check run before a protected route handler.
 *
 * The framework plumbing (the reflector, the execution context, the HTTP request) is reduced to
 * the three values the check actually consults: the roles declared on the handler, the roles
 * declared on its controller class, and the user attached to the request, if any.
 */
module RolesGuard {
  import opened Wrappers

  /** A role tag. The role enumeration is assumed to be a string enumeration; its members are not
      fixed here. */
  type Role = string

  /**
   * The `role` property of a request user, as JavaScript sees it when it calls `role?.includes(r)`:
   * absent (`null`/`undefined`), a single string, or an array of role tags.
   */
  datatype RoleValue = Missing | Text(text: string) | Tags(tags: seq<Role>)

  /** The user attached to the request by the authentication step. */
  datatype Principal = Principal(id: nat, email: string, role: RoleValue)

  /** `needle` sits in `hay` at position `k`. */
  predicate OccursAt(needle: string, hay: string, k: nat)
  {
    k + |needle| <= |hay| && hay[k..k + |needle|] == needle
  }

  /** `String.prototype.includes`: `needle` occurs in `hay` at some position. */
  function IsSubstring(needle: string, hay: string): (found: bool)
    ensures found <==> exists k: nat :: OccursAt(needle, hay, k)
    decreases |hay|
  {
    if |needle| > |hay| then false
    else if hay[..|needle|] == needle then
      assert OccursAt(needle, hay, 0);
      true
    else
      var tail := hay[1..];
      var rest := IsSubstring(needle, tail);
      if rest then
        var k: nat :| OccursAt(needle, tail, k);
        assert tail[k..k + |needle|] == hay[k + 1..k + 1 + |needle|];
        assert OccursAt(needle, hay, k + 1);
        true
      else
        assert !OccursAt(needle, hay, 0);
        ShiftOccurrence(needle, hay);
        false
  }

  /** An occurrence past the first position is an occurrence in the tail. */
  lemma ShiftOccurrence(needle: string, hay: string)
    requires |hay| > 0
    ensures forall k: nat :: 1 <= k && OccursAt(needle, hay, k) ==> OccursAt(needle, hay[1..], k - 1)
  {
  }

  /** `role?.includes(required)`: false when the role is absent, substring test on a string,
      membership test on an array. */
  function Includes(role: RoleValue, required: Role): (yes: bool)
    ensures role.Missing? ==> !yes
    ensures role.Tags? ==> (yes <==> required in role.tags)
    ensures role.Text? ==> (yes <==> exists k: nat :: OccursAt(required, role.text, k))
  {
    match role
    case Missing => false
    case Text(s) => IsSubstring(required, s)
    case Tags(ts) => required in ts
  }

  /** `required.some(r => role?.includes(r))`, scanning the list from its first element. */
  function AnyIncluded(required: seq<Role>, role: RoleValue): (some: bool)
    ensures some <==> exists i :: 0 <= i < |required| && Includes(role, required[i])
  {
    if required == [] then false
    else if Includes(role, required[0]) then true
    else
      var rest := AnyIncluded(required[1..], role);
      assert forall i :: 1 <= i < |required| ==> required[i] == required[1..][i - 1];
      rest
  }

  /** `Reflector.getAllAndOverride` over `[handler, class]`: the first declaration that is not
      `undefined`. */
  function ResolveRequiredRoles(handler: Option<seq<Role>>, cls: Option<seq<Role>>): (required: Option<seq<Role>>)
    ensures required.None? <==> handler.None? && cls.None?
    ensures handler.Some? ==> required == handler
    ensures handler.None? ==> required == cls
  {
    if handler.Some? then handler else cls
  }

  /** `RolesGuard.canActivate`: true lets the request through to the handler. */
  function CanActivate(handler: Option<seq<Role>>, cls: Option<seq<Role>>, user: Option<Principal>): (allowed: bool)
    ensures handler.None? && cls.None? ==> allowed
    ensures ResolveRequiredRoles(handler, cls).Some? ==>
      (allowed <==>
         user.Some? &&
         exists i :: 0 <= i < |ResolveRequiredRoles(handler, cls).value| &&
                     Includes(user.value.role, ResolveRequiredRoles(handler, cls).value[i]))
  {
    match ResolveRequiredRoles(handler, cls)
    case None => true
    case Some(required) =>
      match user
      case None => false
      case Some(u) => AnyIncluded(required, u.role)
  }

  /** With no declaration on the handler or on the class, every request passes, with or without a user. */
  lemma NoRequirementAllowsAll(user: Option<Principal>)
    ensures CanActivate(None, None, user)
  {
  }

  /** A handler-level declaration replaces the class-level one; without one the class-level
      declaration is used as if it were the handler's. */
  lemma HandlerOverridesClass(handler: seq<Role>, cls: Option<seq<Role>>, other: Option<seq<Role>>, user: Option<Principal>)
    ensures CanActivate(Some(handler), cls, user) == CanActivate(Some(handler), other, user)
    ensures CanActivate(None, cls, user) == CanActivate(cls, None, user)
  {
  }

  /** The two declarations are not merged: a user holding only the class-level role is refused
      by a handler that declares another role. */
  lemma DeclarationsNotCombined(id: nat, email: string)
    ensures !CanActivate(Some(["admin"]), Some(["user"]), Some(Principal(id, email, Tags(["user"]))))
    ensures CanActivate(None, Some(["user"]), Some(Principal(id, email, Tags(["user"]))))
  {
  }

  /** Once a requirement is declared, a request without a user is refused. */
  lemma MissingUserDenied(handler: Option<seq<Role>>, cls: Option<seq<Role>>)
    requires handler.Some? || cls.Some?
    ensures !CanActivate(handler, cls, None)
  {
  }

  /** A declared but empty list of roles refuses every request: it is not `undefined`, so the
      default-allow branch is skipped, and `some` over no roles is false. */
  lemma EmptyDeclarationDeniesAll(cls: Option<seq<Role>>, user: Option<Principal>)
    ensures !CanActivate(Some([]), cls, user)
    ensures !CanActivate(None, Some([]), user)
  {
  }

  /** A user whose role is `null` or `undefined` is refused whenever a requirement is declared. */
  lemma AbsentRoleDenied(handler: Option<seq<Role>>, cls: Option<seq<Role>>, id: nat, email: string)
    requires handler.Some? || cls.Some?
    ensures !CanActivate(handler, cls, Some(Principal(id, email, Missing)))
  {
  }

  /** Adding roles to a declared list never turns an allowed user into a refused one. */
  lemma MoreRolesNeverDeny(required: seq<Role>, more: seq<Role>, cls: Option<seq<Role>>, user: Principal)
    requires forall i :: 0 <= i < |required| ==> required[i] in more
    ensures CanActivate(Some(required), cls, Some(user)) ==> CanActivate(Some(more), cls, Some(user))
  {
  }

  /** A requirement of `admin`: a user with role `admin` passes, one with role `user` does not,
      and neither does a request without a user. */
  lemma AdminRequirement(id: nat, email: string)
    ensures CanActivate(Some(["admin"]), None, Some(Principal(id, email, Text("admin"))))
    ensures !CanActivate(Some(["admin"]), None, Some(Principal(id, email, Text("user"))))
    ensures !CanActivate(Some(["admin"]), None, None)
  {
  }

  /** A role held as a string is matched by substring, so `superadmin` satisfies a requirement
      of `admin`, while an array of tags must hold `admin` itself. */
  lemma StringRoleMatchesSubstring(id: nat, email: string)
    ensures CanActivate(Some(["admin"]), None, Some(Principal(id, email, Text("superadmin"))))
    ensures !CanActivate(Some(["admin"]), None, Some(Principal(id, email, Tags(["superadmin"]))))
  {
  }
}
