/** The two user services: the one in the user-management module and the
    older copy under services. Their `getUsers` parameter building is
    character for character the same; they differ in the verb `updateUser`
    uses, and only the module copy has `updateSelf`. */
module UserService {
  import opened Wrappers
  import opened Text
  import opened Records

  /** The page, the page size and the optional search, before the filters. */
  function PagedParams(page: int, pageSize: int, search: Option<string>): (q: Entries)
    ensures UniqueKeys(q) && |q| >= 2 && Keys(q)[..2] == ["page", "pageSize"]
    ensures forall k :: k in KeySet(q) <==>
      k == "page" || k == "pageSize" || (k == "search" && search.Some? && Truthy(search.value))
  {
    var base := [("page", IntToString(page)), ("pageSize", IntToString(pageSize))];
    assert Keys(base) == ["page", "pageSize"];
    if search.Some? && Truthy(search.value) then
      SpreadKeys(base, [("search", search.value)]);
      SpreadKeepsPrefix(base, [("search", search.value)]);
      Spread(base, [("search", search.value)])
    else base
  }

  /** `getUsers`: an object literal with page and pageSize, the search when it
      is a non-empty string (as given, untrimmed), then every filter entry,
      empty values included. Being one object, each key appears once; a
      filter named `page`, `pageSize` or `search` replaces the earlier value
      in place. */
  function GetUsersParams(page: int, pageSize: int, search: Option<string>, filters: Option<Entries>): (q: Entries)
    requires filters.Some? ==> UniqueKeys(filters.value)
    ensures forall k :: k in KeySet(q) <==>
      || k == "page" || k == "pageSize" || (k == "search" && search.Some? && Truthy(search.value))
      || (filters.Some? && k in KeySet(filters.value))
  {
    var withSearch := PagedParams(page, pageSize, search);
    if filters.Some? then Spread(withSearch, filters.value) else withSearch
  }

  /** What each key of the parameters holds. */
  lemma GetUsersParamsValues(page: int, pageSize: int, search: Option<string>, filters: Option<Entries>, k: string)
    requires filters.Some? ==> UniqueKeys(filters.value)
    ensures var q := GetUsersParams(page, pageSize, search, filters);
      var fs := if filters.Some? then filters.value else [];
      Get(q, k) ==
        if k in KeySet(fs) then Get(fs, k)
        else if k == "page" then Some(IntToString(page))
        else if k == "pageSize" then Some(IntToString(pageSize))
        else if k == "search" && search.Some? && Truthy(search.value) then search
        else None
  {
    var base := [("page", IntToString(page)), ("pageSize", IntToString(pageSize))];
    var s := [("search", search.GetOr(""))];
    assert UniqueKeys(s);
    var withSearch := if search.Some? && Truthy(search.value) then Spread(base, s) else base;
    if search.Some? && Truthy(search.value) {
      SpreadGet(base, s, k);
    }
    if filters.Some? {
      SpreadGet(withSearch, filters.value, k);
    }
  }

  /** Each key appears once, and page and pageSize keep the first two places
      even when a filter overrides them. */
  lemma GetUsersParamsShape(page: int, pageSize: int, search: Option<string>, filters: Option<Entries>)
    requires filters.Some? ==> UniqueKeys(filters.value)
    ensures var q := GetUsersParams(page, pageSize, search, filters);
      && UniqueKeys(q)
      && |q| >= 2
      && Keys(q)[..2] == ["page", "pageSize"]
  {
    var withSearch := PagedParams(page, pageSize, search);
    if filters.Some? {
      SpreadKeys(withSearch, filters.value);
      SpreadKeepsPrefix(withSearch, filters.value);
      var q := Spread(withSearch, filters.value);
      assert Keys(q)[..2] == Keys(q)[..|withSearch|][..2];
    }
  }

  /** A filter named "page" replaces the requested page instead of adding a
      second one, and an empty filter value is sent rather than dropped. */
  lemma FilterOverridesPage(page: int, pageSize: int, v: string)
    ensures Get(GetUsersParams(page, pageSize, None, Some([("page", v)])), "page") == Some(v)
    ensures Get(GetUsersParams(page, pageSize, None, Some([("role", "")])), "role") == Some("")
  {
    assert UniqueKeys([("page", v)]);
    assert UniqueKeys([("role", "")]);
    GetUsersParamsValues(page, pageSize, None, Some([("page", v)]), "page");
    GetUsersParamsValues(page, pageSize, None, Some([("role", "")]), "role");
  }

  /** A whitespace-only search is sent as it is. */
  lemma BlankSearchSent(page: int, pageSize: int)
    ensures Get(GetUsersParams(page, pageSize, Some("  "), None), "search") == Some("  ")
  {
    GetUsersParamsValues(page, pageSize, Some("  "), None, "search");
  }

  /** The two copies of the service. */
  datatype Copy = ModuleCopy | LegacyCopy

  datatype Verb = GET | POST | PUT | PATCH | DELETE

  datatype UserCall = GetUsers | CreateUser | UpdateUser(id: string) | UpdateSelf | DeleteUser(id: string)

  /** A request as the HTTP client receives it: verb and path under the
      client's base URL (query strings aside). */
  datatype Request = Request(verb: Verb, path: string)

  /** The request a call sends, or `None` when the copy has no such call. */
  function UserRequest(copy: Copy, call: UserCall): (r: Option<Request>)
    ensures r.None? <==> copy.LegacyCopy? && call.UpdateSelf?
    ensures call.UpdateUser? ==>
      r == Some(Request(if copy.ModuleCopy? then PUT else PATCH, "/users/" + call.id))
    ensures call.UpdateSelf? && copy.ModuleCopy? ==> r == Some(Request(PATCH, "/users/me"))
  {
    match call
    case GetUsers => Some(Request(GET, "/users"))
    case CreateUser => Some(Request(POST, "/users"))
    case UpdateUser(id) => Some(Request(if copy.ModuleCopy? then PUT else PATCH, "/users/" + id))
    case UpdateSelf => if copy.ModuleCopy? then Some(Request(PATCH, "/users/me")) else None
    case DeleteUser(id) => Some(Request(DELETE, "/users/" + id))
  }

  /** The copies agree on every call both have except `updateUser`. */
  lemma CopiesDifferOnlyInUpdate(call: UserCall)
    requires !call.UpdateSelf?
    ensures UserRequest(ModuleCopy, call) == UserRequest(LegacyCopy, call) <==> !call.UpdateUser?
  {
  }

  /** Updating a user whose id is "me" through the module copy sends PUT to
      the path that `updateSelf` sends PATCH to. */
  lemma UpdateUserMeCollides()
    ensures UserRequest(ModuleCopy, UpdateUser("me")).value.path == UserRequest(ModuleCopy, UpdateSelf).value.path
    ensures UserRequest(ModuleCopy, UpdateUser("me")).value.verb != UserRequest(ModuleCopy, UpdateSelf).value.verb
  {
  }
}
