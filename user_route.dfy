/**
 * The role update API (src/routes/api/user/+server.ts): an owner or dev may
 * set the role of a known user. The user table is a map from user id to
 * role; `roles` is the list of valid roles, which the database module
 * defines.
 */
module UserRoute {
  import opened Wrappers

  /** The answers of `POST`, in the order the checks are made. */
  datatype UserResponse =
    | Unauthorized
    | BodyUnreadable
    | MissingId
    | UserNotFound
    | InvalidRole
    | Success
  {
    function Status(): int {
      match this
      case Unauthorized => 401
      case BodyUnreadable => 500
      case MissingId => 400
      case UserNotFound => 404
      case InvalidRole => 400
      case Success => 200
    }
  }

  /** A body field or role is truthy when present and not empty. */
  predicate Given(p: Option<string>) {
    p.Some? && p.value != ""
  }

  /** `user && ["owner", "dev"].includes(user.role)`: `caller` is the role of the logged-in user, if any. */
  predicate MayChangeRoles(caller: Option<Option<string>>) {
    caller.Some? && caller.value in {Some("owner"), Some("dev")}
  }

  /**
   * The guard chain of `POST`: which answer it gives. `bodyNonNull` says
   * whether the body parses as JSON other than `null`: otherwise
   * `request.json()` or `body.id` throws, which SvelteKit answers with a 500.
   */
  function Check(caller: Option<Option<string>>, bodyNonNull: bool, id: Option<string>, role: Option<string>,
                 users: map<string, string>, roles: set<string>): (r: UserResponse)
    ensures !MayChangeRoles(caller) ==> r == Unauthorized
    ensures r == BodyUnreadable <==> MayChangeRoles(caller) && !bodyNonNull
    ensures r == Success <==>
      MayChangeRoles(caller) && bodyNonNull && Given(id) && id.value in users && Given(role) && role.value in roles
    ensures r == UserNotFound ==> MayChangeRoles(caller) && bodyNonNull && Given(id) && id.value !in users
    ensures r == InvalidRole ==> bodyNonNull && Given(id) && id.value in users && !(Given(role) && role.value in roles)
  {
    if !MayChangeRoles(caller) then Unauthorized
    else if !bodyNonNull then BodyUnreadable
    else if !Given(id) then MissingId
    else if id.value !in users then UserNotFound
    else if !Given(role) || role.value !in roles then InvalidRole
    else Success
  }

  /** An unknown user is reported before the role is looked at. */
  lemma UnknownUserBeforeRole(caller: Option<Option<string>>, id: string, role1: Option<string>, role2: Option<string>,
                              users: map<string, string>, roles: set<string>)
    requires MayChangeRoles(caller) && id != "" && id !in users
    ensures Check(caller, true, Some(id), role1, users, roles) == Check(caller, true, Some(id), role2, users, roles) == UserNotFound
  {
  }

  class UserApi {
    /** The role of each user, by user id. */
    var users: map<string, string>

    constructor (users: map<string, string>)
      ensures this.users == users
    {
      this.users := users;
    }

    /**
     * `POST` with the role of the caller (`None` when not logged in, `Some(None)`
     * for a caller without a role), whether the body parses as JSON other
     * than `null`, and the body's `id` and `role`: the role is set only when
     * every check passes.
     */
    method Post(caller: Option<Option<string>>, bodyNonNull: bool, id: Option<string>, role: Option<string>,
                roles: set<string>)
      returns (resp: UserResponse)
      modifies this
      ensures resp == Check(caller, bodyNonNull, id, role, old(users), roles)
      ensures resp == Success ==> users == old(users)[id.value := role.value]
      ensures resp != Success ==> users == old(users)
    {
      if caller.None? || caller.value !in {Some("owner"), Some("dev")} {
        return Unauthorized;
      }
      if !bodyNonNull {
        return BodyUnreadable;
      }
      if id.None? || id.value == "" {
        return MissingId;
      }
      if id.value !in users {
        return UserNotFound;
      }
      if role.None? || role.value == "" || role.value !in roles {
        return InvalidRole;
      }
      users := users[id.value := role.value];
      return Success;
    }
  }
}
