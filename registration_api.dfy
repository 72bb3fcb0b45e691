/** The registration endpoints: register and unregister for an event, the registrations of
    an event and of the signed-in user, and the signed-in user's status for one event. */
module RegistrationApi {
  import opened Wrappers
  import opened CacheTags

  const Kind := "Registration"

  function UserMeTag(): Tag { Tag(Kind, Str("USER_ME")) }

  function StatusTag(eventId: string): Tag { Tag(Kind, Str(eventId + "-STATUS")) }

  function RegisterRequest(eventId: string): Request {
    Request("POST", "/events/" + eventId + "/register", None, None)
  }

  function UnregisterRequest(eventId: string): Request {
    Request("DELETE", "/events/" + eventId + "/unregister", None, None)
  }

  function EventRegistrationsRequest(eventId: string, params: Option<string>): Request {
    Request("GET", "/events/" + eventId + "/registrations", params, None)
  }

  function UserRegistrationsRequest(params: Option<string>): Request {
    Request("GET", "/users/me/registrations", params, None)
  }

  function StatusRequest(eventId: string): Request {
    Request("GET", "/events/" + eventId + "/registration-status", None, None)
  }

  /** Each request names its event: different events give different requests, and the two
      mutations never build the same request. */
  lemma RequestsNameTheirEvent(e1: string, e2: string)
    ensures RegisterRequest(e1) == RegisterRequest(e2) ==> e1 == e2
    ensures UnregisterRequest(e1) == UnregisterRequest(e2) ==> e1 == e2
    ensures StatusRequest(e1) == StatusRequest(e2) ==> e1 == e2
    ensures RegisterRequest(e1) != UnregisterRequest(e2)
  {
    AffixCancels("/events/", e1, e2, "/register");
    AffixCancels("/events/", e1, e2, "/unregister");
    AffixCancels("/events/", e1, e2, "/registration-status");
  }

  /** Both mutations invalidate the same two entries: the user's own and the event's status. */
  function RegisterInvalidates(eventId: string): (r: seq<Tag>)
    ensures Entries(r) == {(Kind, "USER_ME"), (Kind, eventId + "-STATUS")}
  {
    EntriesOfTwo(UserMeTag(), StatusTag(eventId));

    [UserMeTag(), StatusTag(eventId)]
  }

  function UnregisterInvalidates(eventId: string): (r: seq<Tag>)
    ensures Entries(r) == {(Kind, "USER_ME"), (Kind, eventId + "-STATUS")}
  {
    EntriesOfTwo(UserMeTag(), StatusTag(eventId));

    [UserMeTag(), StatusTag(eventId)]
  }

  function EventRegistrationsTags(eventId: string): (r: seq<Tag>)
    ensures Entries(r) == {(Kind, "EVENT-" + eventId)}
  {
    EntriesOfOne(Tag(Kind, Str("EVENT-" + eventId)));

    [Tag(Kind, Str("EVENT-" + eventId))]
  }

  /** The list tags of the user's registrations, then the user's own tag. */
  function UserRegistrationsTags(registrationIds: Option<seq<string>>): (r: seq<Tag>)
    ensures Entries(r) == Entries(ProvidesList(registrationIds, Kind)) + {(Kind, "USER_ME")}
  {
    EntriesConcat(ProvidesList(registrationIds, Kind), [UserMeTag()]);
    EntriesOfOne(UserMeTag());
    ProvidesList(registrationIds, Kind) + [UserMeTag()]
  }

  function StatusTags(eventId: string): (r: seq<Tag>)
    ensures Entries(r) == {(Kind, eventId + "-STATUS")}
  {
    EntriesOfOne(StatusTag(eventId));

    [StatusTag(eventId)]
  }

  /** Registering or unregistering refetches the status of that event... */
  lemma ChangeRefetchesOwnStatus(eventId: string)
    ensures Invalidates(RegisterInvalidates(eventId), StatusTags(eventId))
    ensures Invalidates(UnregisterInvalidates(eventId), StatusTags(eventId))
  {
    assert SameEntry(RegisterInvalidates(eventId)[1], StatusTags(eventId)[0]);
  }

  /** ...and of no other event. */
  lemma ChangeKeepsOtherStatus(eventId: string, other: string)
    requires other != eventId
    ensures !Invalidates(RegisterInvalidates(eventId), StatusTags(other))
    ensures !Invalidates(UnregisterInvalidates(eventId), StatusTags(other))
  {
    if eventId + "-STATUS" == other + "-STATUS" {
      SuffixCancels(eventId, other, "-STATUS");
    }
    NotUserMe(other);
  }

  /** No status id is the user's own tag id. */
  lemma NotUserMe(eventId: string)
    ensures eventId + "-STATUS" != "USER_ME"
  {
    var s := eventId + "-STATUS";
    assert s[|s| - 1] == 'S';
  }

  /** Both mutations refetch the user's registrations, whatever they hold. */
  lemma ChangeRefetchesUserRegistrations(eventId: string, registrationIds: Option<seq<string>>)
    ensures Invalidates(RegisterInvalidates(eventId), UserRegistrationsTags(registrationIds))
    ensures Invalidates(UnregisterInvalidates(eventId), UserRegistrationsTags(registrationIds))
  {
    var tags := UserRegistrationsTags(registrationIds);
    assert tags[|tags| - 1] == UserMeTag();
    assert SameEntry(RegisterInvalidates(eventId)[0], tags[|tags| - 1]);
  }

  /** Neither mutation refetches an event's registration list, for server ids of one fixed
      length such as the 24-character object ids. */
  lemma ChangeKeepsEventRegistrations(eventId: string, other: string)
    requires |eventId| == |other|
    ensures !Invalidates(RegisterInvalidates(eventId), EventRegistrationsTags(other))
    ensures !Invalidates(UnregisterInvalidates(eventId), EventRegistrationsTags(other))
  {
    var e := "EVENT-" + other;
    assert e[0] == 'E';
    assert |e| != |eventId + "-STATUS"|;
  }
}
