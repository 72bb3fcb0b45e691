/** The event endpoints: the event list, one event, and creating, updating and deleting an
    event. */
module EventApi {
  import opened Wrappers
  import opened CacheTags

  const Kind := "Event"

  function EventsRequest(params: Option<string>): Request {
    Request("GET", "/events", params, None)
  }

  function EventByIdRequest(eventId: string): Request {
    Request("GET", "/events/" + eventId, None, None)
  }

  function CreateEventRequest(eventData: string): Request {
    Request("POST", "/events", None, Some(eventData))
  }

  function UpdateEventRequest(eventId: string, updateData: string): Request {
    Request("PATCH", "/events/" + eventId, None, Some(updateData))
  }

  function DeleteEventRequest(eventId: string): Request {
    Request("DELETE", "/events/" + eventId, None, None)
  }

  /** The list query provides the list tag and one tag per event it returned. */
  function EventsTags(eventIds: Option<seq<string>>): (r: seq<Tag>)
    ensures (Kind, "LIST") in Entries(r)
    ensures eventIds.Some? ==> forall i :: 0 <= i < |eventIds.value| ==> (Kind, eventIds.value[i]) in Entries(r)
    ensures forall x :: x in Entries(r) ==> x.0 == Kind && (x.1 == "LIST" || (eventIds.Some? && x.1 in eventIds.value))
  {
    ProvidesList(eventIds, Kind)
  }

  function EventByIdTags(eventId: string): (r: seq<Tag>)
    ensures Entries(r) == {(Kind, eventId)}
  {
    EntriesOfOne(Tag(Kind, Str(eventId)));

    [Tag(Kind, Str(eventId))]
  }

  function CreateEventInvalidates(): (r: seq<Tag>)
    ensures Entries(r) == {(Kind, "LIST")}
  {
    EntriesOfOne(ListTag(Kind));

    [ListTag(Kind)]
  }

  function UpdateEventInvalidates(eventId: string): (r: seq<Tag>)
    ensures Entries(r) == {(Kind, eventId), (Kind, "LIST")}
  {
    EntriesOfTwo(Tag(Kind, Str(eventId)), ListTag(Kind));

    [Tag(Kind, Str(eventId)), ListTag(Kind)]
  }

  function DeleteEventInvalidates(eventId: string): (r: seq<Tag>)
    ensures Entries(r) == {(Kind, eventId), (Kind, "LIST")}
  {
    EntriesOfTwo(Tag(Kind, Str(eventId)), ListTag(Kind));

    [Tag(Kind, Str(eventId)), ListTag(Kind)]
  }

  /** Creating refetches every event list and, for ids other than the list marker, no
      single event. */
  lemma CreateRefetchesListsOnly(eventIds: Option<seq<string>>, eventId: string)
    requires eventId != "LIST"
    ensures Invalidates(CreateEventInvalidates(), EventsTags(eventIds))
    ensures !Invalidates(CreateEventInvalidates(), EventByIdTags(eventId))
  {
    ListTagReachesList(CreateEventInvalidates(), 0, eventIds, Kind);
  }

  /** Updating or deleting an event refetches that event and every event list. */
  lemma ChangeRefetchesEventAndLists(eventId: string, eventIds: Option<seq<string>>)
    ensures Invalidates(UpdateEventInvalidates(eventId), EventByIdTags(eventId))
    ensures Invalidates(UpdateEventInvalidates(eventId), EventsTags(eventIds))
    ensures Invalidates(DeleteEventInvalidates(eventId), EventByIdTags(eventId))
    ensures Invalidates(DeleteEventInvalidates(eventId), EventsTags(eventIds))
  {
    assert SameEntry(UpdateEventInvalidates(eventId)[0], EventByIdTags(eventId)[0]);
    ListTagReachesList(UpdateEventInvalidates(eventId), 1, eventIds, Kind);
  }

  /** Updating or deleting one event leaves another single event cached. */
  lemma ChangeKeepsOtherEvent(eventId: string, other: string)
    requires other != eventId && other != "LIST"
    ensures !Invalidates(UpdateEventInvalidates(eventId), EventByIdTags(other))
    ensures !Invalidates(DeleteEventInvalidates(eventId), EventByIdTags(other))
  {
  }
}
