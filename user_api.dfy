/** The user endpoints: the signed-in user's profile and its update, and the admin's user
    list, single user, role change and deletion. */
module UserApi {
  import opened Wrappers
  import opened CacheTags

  const Kind := "User"

  function MeTag(): Tag { Tag(Kind, Str("ME")) }

  function CurrentUserRequest(): Request {
    Request("GET", "/users/me", None, None)
  }

  function UpdateProfileRequest(updateData: string): Request {
    Request("PATCH", "/users/me/update", None, Some(updateData))
  }

  /** The list query ignores its argument: paging parameters are never sent. */
  function AllUsersRequest(params: Option<string>): (r: Request)
    ensures r.params.None? && r.httpMethod == "GET" && r.url == "/users/"
  {
    Request("GET", "/users/", None, None)
  }

  function UserByIdRequest(userId: string): Request {
    Request("GET", "/users/" + userId, None, None)
  }

  /** The role change sends the bare role as the body, not an object holding it. */
  function UpdateRoleRequest(userId: string, role: string): (r: Request)
    ensures r.httpMethod == "PATCH" && r.body == Some(role)
  {
    Request("PATCH", "/users/" + userId + "/role", None, Some(role))
  }

  function DeleteUserRequest(userId: string): Request {
    Request("DELETE", "/users/" + userId, None, None)
  }

  function CurrentUserTags(): (r: seq<Tag>)
    ensures Entries(r) == {(Kind, "ME")}
  {
    EntriesOfOne(MeTag());

    [MeTag()]
  }

  function UpdateProfileInvalidates(): (r: seq<Tag>)
    ensures Entries(r) == {(Kind, "ME")}
  {
    EntriesOfOne(MeTag());

    [MeTag()]
  }

  function AllUsersTags(userIds: Option<seq<string>>): (r: seq<Tag>)
    ensures (Kind, "LIST") in Entries(r)
    ensures userIds.Some? ==> forall i :: 0 <= i < |userIds.value| ==> (Kind, userIds.value[i]) in Entries(r)
    ensures forall x :: x in Entries(r) ==> x.0 == Kind && (x.1 == "LIST" || (userIds.Some? && x.1 in userIds.value))
  {
    ProvidesList(userIds, Kind)
  }

  function UserByIdTags(userId: string): (r: seq<Tag>)
    ensures Entries(r) == {(Kind, userId)}
  {
    EntriesOfOne(Tag(Kind, Str(userId)));

    [Tag(Kind, Str(userId))]
  }

  /** The role change as written: the invalidation callback names its whole argument
      `userId`, so the per-user tag carries the argument object as its id, and every role
      change names the same entry whatever user it changes. */
  function UpdateRoleInvalidatesAsWritten(userId: string, role: string): (r: seq<Tag>)
    ensures Entries(r) == {(Kind, "[object Object]"), (Kind, "LIST")}
  {
    EntriesOfTwo(Tag(Kind, UserRoleArg(userId, role)), ListTag(Kind));

    [Tag(Kind, UserRoleArg(userId, role)), ListTag(Kind)]
  }

  /** The role change as intended: the per-user tag carries the user's id. */
  function UpdateRoleInvalidates(userId: string, role: string): (r: seq<Tag>)
    ensures Entries(r) == {(Kind, userId), (Kind, "LIST")}
  {
    EntriesOfTwo(Tag(Kind, Str(userId)), ListTag(Kind));

    [Tag(Kind, Str(userId)), ListTag(Kind)]
  }

  function DeleteUserInvalidates(userId: string): (r: seq<Tag>)
    ensures Entries(r) == {(Kind, userId), (Kind, "LIST")}
  {
    EntriesOfTwo(Tag(Kind, Str(userId)), ListTag(Kind));

    [Tag(Kind, Str(userId)), ListTag(Kind)]
  }

  /** The profile update refetches the profile and, for ids other than the two markers,
      neither a single user nor the user list. */
  lemma ProfileUpdateRefetchesProfileOnly(userId: string, userIds: Option<seq<string>>)
    requires userId != "ME"
    requires userIds.None? || forall i :: 0 <= i < |userIds.value| ==> userIds.value[i] != "ME"
    ensures Invalidates(UpdateProfileInvalidates(), CurrentUserTags())
    ensures !Invalidates(UpdateProfileInvalidates(), UserByIdTags(userId))
    ensures !Invalidates(UpdateProfileInvalidates(), AllUsersTags(userIds))
  {
    assert SameEntry(UpdateProfileInvalidates()[0], CurrentUserTags()[0]);
    var tags := AllUsersTags(userIds);
    forall j | 0 <= j < |tags| ensures !SameEntry(MeTag(), tags[j]) {
      if j > 0 { assert tags[j] == Tag(Kind, Str(userIds.value[j - 1])); }
    }
  }

  /** Deleting a user refetches that user and every user list. */
  lemma DeleteRefetchesUserAndLists(userId: string, userIds: Option<seq<string>>)
    ensures Invalidates(DeleteUserInvalidates(userId), UserByIdTags(userId))
    ensures Invalidates(DeleteUserInvalidates(userId), AllUsersTags(userIds))
  {
    assert SameEntry(DeleteUserInvalidates(userId)[0], UserByIdTags(userId)[0]);
    ListTagReachesList(DeleteUserInvalidates(userId), 1, userIds, Kind);
  }

  /** As written, a role change refetches the user lists but never the changed user's own
      entry, for any id other than the text an object turns into and the list marker. */
  lemma RoleChangeMissesUser(userId: string, role: string, userIds: Option<seq<string>>)
    requires userId != "[object Object]" && userId != "LIST"
    ensures Invalidates(UpdateRoleInvalidatesAsWritten(userId, role), AllUsersTags(userIds))
    ensures !Invalidates(UpdateRoleInvalidatesAsWritten(userId, role), UserByIdTags(userId))
  {
    ListTagReachesList(UpdateRoleInvalidatesAsWritten(userId, role), 1, userIds, Kind);
  }

  /** As intended, a role change refetches the changed user and every user list, as a
      deletion does. */
  lemma RoleChangeRefetchesUser(userId: string, role: string, userIds: Option<seq<string>>)
    ensures Invalidates(UpdateRoleInvalidates(userId, role), UserByIdTags(userId))
    ensures Invalidates(UpdateRoleInvalidates(userId, role), AllUsersTags(userIds))
    ensures UpdateRoleInvalidates(userId, role) == DeleteUserInvalidates(userId)
  {
    assert SameEntry(UpdateRoleInvalidates(userId, role)[0], UserByIdTags(userId)[0]);
    ListTagReachesList(UpdateRoleInvalidates(userId, role), 1, userIds, Kind);
  }
}
