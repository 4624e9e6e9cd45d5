/** The team-members dialog: the case-insensitive search over the fetched
    users, the membership test, the two lists it shows and the ids its
    buttons hand to the add and remove callbacks. */
module TeamMembers {
  import opened Text
  import opened Seqs
  import opened TaskModel

  /** The search box matches a user when the lower-cased name or the
      lower-cased email includes the lower-cased search text. */
  predicate Matches(search: string, u: User)
    ensures search == "" ==> Matches(search, u)
  {
    assert search == "" ==> Lower(search) == "";
    EmptyIncludedEverywhere(Lower(u.name));
    Includes(Lower(u.name), Lower(search)) || Includes(Lower(u.email), Lower(search))
  }

  /** `filteredUsers`. */
  function FilterUsers(users: seq<User>, search: string): (r: seq<User>)
    ensures forall u :: u in r <==> u in users && Matches(search, u)
    ensures forall u :: multiset(r)[u] == if Matches(search, u) then multiset(users)[u] else 0
    ensures IsSubseq(r, users)
  {
    FilterIsSubseq(u => Matches(search, u), users);
    Filter(u => Matches(search, u), users)
  }

  /** A user is listed exactly when the search text occurs, ignoring ASCII
      case, somewhere in the name or somewhere in the email. */
  lemma FilterUsersKeepsIff(users: seq<User>, search: string, u: User)
    ensures u in FilterUsers(users, search) <==>
      u in users && (Contains(Lower(u.name), Lower(search)) || Contains(Lower(u.email), Lower(search)))
  {
    IncludesIsContains(Lower(u.name), Lower(search));
    IncludesIsContains(Lower(u.email), Lower(search));
  }

  /** An empty search lists every fetched user, in order. */
  lemma EmptySearchKeepsAll(users: seq<User>)
    ensures FilterUsers(users, "") == users
  {
    forall i | 0 <= i < |users| ensures Matches("", users[i]) {
      EmptyIncludedEverywhere(Lower(users[i].name));
    }
    FilterKeepsAll(u => Matches("", u), users);
  }

  /** `isCurrentMember`: some current member has this id. */
  function IsCurrentMember(members: seq<User>, id: string): (b: bool)
    ensures b <==> exists i :: 0 <= i < |members| && members[i].id == id
  {
    if members == [] then false
    else members[0].id == id || IsCurrentMember(members[1..], id)
  }

  /** The "Available Users" list: the filtered users that are not members. */
  function Available(users: seq<User>, members: seq<User>, search: string): (r: seq<User>)
    ensures forall u :: u in r <==> u in users && Matches(search, u) && !IsCurrentMember(members, u.id)
    ensures forall u ::
      multiset(r)[u] == if Matches(search, u) && !IsCurrentMember(members, u.id) then multiset(users)[u] else 0
    ensures forall i, j :: 0 <= i < |r| && 0 <= j < |members| ==> r[i].id != members[j].id
    ensures IsSubseq(r, FilterUsers(users, search))
  {
    var f := FilterUsers(users, search);
    FilterIsSubseq((u: User) => !IsCurrentMember(members, u.id), f);
    Filter((u: User) => !IsCurrentMember(members, u.id), f)
  }

  /** What the dialog shows: every current member, whatever the search, and
      the available users. */
  datatype View = View(current: seq<User>, available: seq<User>)

  function Render(users: seq<User>, members: seq<User>, search: string): (v: View)
    ensures v.current == members
    ensures forall u :: u in v.available <==> u in users && Matches(search, u) && !IsCurrentMember(members, u.id)
  {
    View(members, Available(users, members, search))
  }

  /** Every current member is listed, whatever the search text, and the
      available list never repeats one of them. */
  lemma MembersShownInFull(users: seq<User>, members: seq<User>, search: string)
    ensures Render(users, members, search).current == members
    ensures forall u :: u in Render(users, members, search).available ==> u !in members
  {
  }

  /** A click on a row's button. */
  datatype Click = RemoveClicked(row: nat) | AddClicked(row: nat)

  /** The callback a click fires and the id it passes. */
  datatype Callback = OnRemoveMember(userId: string) | OnAddMember(userId: string)

  /** Only rows that are shown can be clicked. */
  predicate Clickable(v: View, c: Click) {
    match c
    case RemoveClicked(i) => i < |v.current|
    case AddClicked(i) => i < |v.available|
  }

  /** A click fires remove for a member row and add for an available row,
      with the id shown in that row. */
  function Fire(v: View, c: Click): (cb: Callback)
    requires Clickable(v, c)
    ensures cb.OnRemoveMember? <==> c.RemoveClicked?
    ensures cb.OnRemoveMember? ==> exists m :: m in v.current && m.id == cb.userId
    ensures cb.OnAddMember? ==> exists u :: u in v.available && u.id == cb.userId
  {
    match c
    case RemoveClicked(i) => OnRemoveMember(v.current[i].id)
    case AddClicked(i) => OnAddMember(v.available[i].id)
  }

  /** Add is only ever called with a non-member's id, and Remove only with a
      current member's id. */
  lemma CallbacksRespectMembership(users: seq<User>, members: seq<User>, search: string, c: Click)
    requires Clickable(Render(users, members, search), c)
    ensures var cb := Fire(Render(users, members, search), c);
      && (cb.OnAddMember? ==> !IsCurrentMember(members, cb.userId))
      && (cb.OnRemoveMember? ==> IsCurrentMember(members, cb.userId))
  {
    var v := Render(users, members, search);
    match c
    case AddClicked(i) =>
      assert v.available[i] in Available(users, members, search);
    case RemoveClicked(i) =>
      assert members[i].id == Fire(v, c).userId;
  }
}
