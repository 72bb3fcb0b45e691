/** Who may see what of an event: the access gate of the live page and the status flags,
    status panel and registration handlers of the event detail page. */
module EventAccess {
  import opened Wrappers
  import opened JsStrings

  /** A time as `new Date(...)` yields it: milliseconds, or an invalid date, with which every
      comparison is false. */
  datatype Time = At(ms: int) | InvalidDate

  /** `now >= t` and `now < t` on `Date` values. */
  predicate NotBefore(now: int, t: Time) { t.At? && now >= t.ms }
  predicate Before(now: int, t: Time) { t.At? && now < t.ms }

  /** The signed-in user, as far as these pages look at it. */
  datatype Viewer = Viewer(id: string, name: string, role: string)

  /** The fields of an event these pages read; `organizerId` is `None` when the event has
      no organizer object. */
  datatype Event = Event(
    organizerId: Option<string>,
    status: string,
    start: Time,
    end: Time,
    title: string,
    jitsiRoomName: string)

  // ---- The live page ----

  /** The query results and context the live page decides from. */
  datatype LiveInput = LiveInput(
    eventId: string,
    isLoadingEvent: bool,
    isErrorEvent: bool,
    errorMessage: Option<string>,
    event: Option<Event>,
    user: Option<Viewer>,
    isLoadingStatus: bool,
    isRegistered: bool,
    now: int)

  /** The properties handed to the video component. */
  datatype VideoProps = VideoProps(roomName: string, displayName: string, eventTitle: string)

  datatype LiveView =
    | Spinner
    | ErrorShown(message: string)
    | RedirectToLogin(from: string, replace: bool)
    | Live(props: VideoProps)

  predicate LiveLoading(inp: LiveInput) {
    inp.isLoadingEvent || (inp.user.Some? && inp.isLoadingStatus)
  }

  /** Staff may enter without registering: the organizer of the event, or an admin, and only
      when the event has an organizer at all. */
  predicate IsStaff(u: Viewer, e: Event) {
    e.organizerId.Some? && (u.id == e.organizerId.value || u.role == "admin")
  }

  /** `start <= now < end` and status `live`. */
  predicate LiveNow(now: int, e: Event) {
    NotBefore(now, e.start) && Before(now, e.end) && e.status == "live"
  }

  const NotRegistered := "You are not registered for this event"

  /** The message for an event outside its live window, naming its status. */
  function NotLive(status: string): (m: string)
    ensures |m| == |status| + 44
    ensures m[..42] == "This event is not currently live (Status: " && m[|m| - 2..] == ")."
    ensures m[42..|m| - 2] == status
  {
    "This event is not currently live (Status: " + status + ")."
  }

  /** The access gate of `EventLivePage`: loading, then a failed or missing event, then no
      user, then an unregistered non-staff user, then an event that is not live, and only
      then the room. */
  function LiveGate(inp: LiveInput): (v: LiveView)
    ensures v.Spinner? <==> LiveLoading(inp)
    ensures v.Live? <==>
              !LiveLoading(inp) && !inp.isErrorEvent && inp.event.Some? && inp.user.Some? &&
              (inp.isRegistered || IsStaff(inp.user.value, inp.event.value)) &&
              LiveNow(inp.now, inp.event.value)
    ensures v.RedirectToLogin? <==>
              !LiveLoading(inp) && !inp.isErrorEvent && inp.event.Some? && inp.user.None?
    ensures v.RedirectToLogin? ==> v.from == "/events/" + inp.eventId + "/live" && v.replace
    ensures !LiveLoading(inp) && (inp.isErrorEvent || inp.event.None?) ==>
              v == ErrorShown(MessageOr(inp.errorMessage, "Event not found."))
    ensures !LiveLoading(inp) && !inp.isErrorEvent && inp.event.Some? && inp.user.Some? &&
            !inp.isRegistered && !IsStaff(inp.user.value, inp.event.value) ==>
              v == ErrorShown(NotRegistered)
    ensures !LiveLoading(inp) && !inp.isErrorEvent && inp.event.Some? && inp.user.Some? &&
            (inp.isRegistered || IsStaff(inp.user.value, inp.event.value)) &&
            !LiveNow(inp.now, inp.event.value) ==>
              v == ErrorShown(NotLive(inp.event.value.status))
  {
    if LiveLoading(inp) then Spinner
    else if inp.isErrorEvent || inp.event.None? then
      ErrorShown(MessageOr(inp.errorMessage, "Event not found."))
    else if inp.user.None? then
      RedirectToLogin("/events/" + inp.eventId + "/live", true)
    else
      var e, u := inp.event.value, inp.user.value;
      if !inp.isRegistered && !IsStaff(u, e) then ErrorShown(NotRegistered)
      else if !LiveNow(inp.now, e) then ErrorShown(NotLive(e.status))
      else Live(VideoProps(e.jitsiRoomName, u.name, e.title))
  }

  /** The room is entered only by a signed-in user who is registered or is staff, while the
      event is live, and the video gets the event's room and title and the user's name. */
  lemma LiveRoomIsGuarded(inp: LiveInput)
    requires LiveGate(inp).Live?
    ensures inp.user.Some? && inp.event.Some?
    ensures inp.isRegistered || IsStaff(inp.user.value, inp.event.value)
    ensures inp.event.value.start.At? && inp.event.value.end.At?
    ensures inp.event.value.start.ms <= inp.now < inp.event.value.end.ms
    ensures LiveGate(inp).props ==
              VideoProps(inp.event.value.jitsiRoomName, inp.user.value.name, inp.event.value.title)
  {
  }

  /** A speaker who is neither registered nor the organizer is turned away: speakers have
      no exemption. */
  lemma SpeakerNeedsRegistration(inp: LiveInput)
    requires !LiveLoading(inp) && !inp.isErrorEvent && inp.event.Some? && inp.user.Some?
    requires inp.user.value.role == "speaker" && !inp.isRegistered
    requires inp.event.value.organizerId != Some(inp.user.value.id)
    ensures LiveGate(inp) == ErrorShown(NotRegistered)
  {
  }

  /** An unregistered user is turned away as well when the event has no organizer. */
  lemma NoOrganizerNoStaff(inp: LiveInput)
    requires !LiveLoading(inp) && !inp.isErrorEvent && inp.event.Some? && inp.user.Some?
    requires inp.event.value.organizerId.None? && !inp.isRegistered
    ensures LiveGate(inp) == ErrorShown(NotRegistered)
  {
  }

  /** Outside the live window everyone admitted, registered users and staff alike, gets the
      message naming the status, and different statuses give different messages. */
  lemma NotLiveMessage(inp: LiveInput)
    requires !LiveLoading(inp) && !inp.isErrorEvent && inp.event.Some? && inp.user.Some?
    requires inp.isRegistered || IsStaff(inp.user.value, inp.event.value)
    requires !LiveNow(inp.now, inp.event.value)
    ensures LiveGate(inp) == ErrorShown(NotLive(inp.event.value.status))
    ensures forall other :: NotLive(other) == LiveGate(inp).message ==> other == inp.event.value.status
  {
    forall other | NotLive(other) == LiveGate(inp).message
      ensures other == inp.event.value.status
    {
      assert NotLive(other)[42..|NotLive(other)| - 2] == other;
    }
  }

  // ---- The detail page ----

  datatype Flags = Flags(isLive: bool, isUpcoming: bool, isPast: bool, canRegister: bool)

  /** The status flags of `EventDetailPage`. */
  function StatusFlags(now: int, e: Event): (f: Flags)
    ensures f.isLive == LiveNow(now, e)
    ensures f.isUpcoming == (Before(now, e.start) && e.status == "upcoming")
    ensures f.isPast == (NotBefore(now, e.end) && e.status == "past")
    ensures f.canRegister == (f.isUpcoming || f.isLive)
  {
    var isLive := NotBefore(now, e.start) && Before(now, e.end) && e.status == "live";
    var isUpcoming := Before(now, e.start) && e.status == "upcoming";
    var isPast := NotBefore(now, e.end) && e.status == "past";
    Flags(isLive, isUpcoming, isPast, isUpcoming || (isLive && !isPast))
  }

  /** No two of live, upcoming and past hold at once, and registration is never open for
      a past event. */
  lemma FlagsExclusive(now: int, e: Event)
    ensures var f := StatusFlags(now, e);
            !(f.isLive && f.isUpcoming) && !(f.isLive && f.isPast) && !(f.isUpcoming && f.isPast) &&
            (f.canRegister ==> !f.isPast)
  {
  }

  /** `registrationStatusData?.data?.isRegistered || false`: `None` when the status data is
      absent. */
  function RegisteredFlag(statusData: Option<bool>): (b: bool)
    ensures b <==> statusData == Some(true)
  {
    statusData.GetOr(false)
  }

  /** What the right-hand status panel shows. */
  datatype PanelItem = Ended | CancelButton | RegisterButton | LoginButton | Closed

  function Panel(f: Flags, signedIn: bool, isRegistered: bool): (items: set<PanelItem>)
    ensures Ended in items <==> f.isPast
    ensures CancelButton in items <==> !f.isPast && signedIn && isRegistered
    ensures RegisterButton in items <==> !f.isPast && signedIn && !isRegistered && f.canRegister
    ensures LoginButton in items <==> !f.isPast && !signedIn && f.canRegister
    ensures Closed in items <==> !f.isPast && !f.canRegister
  {
    (if f.isPast then {Ended} else {}) +
    (if !f.isPast && signedIn && isRegistered then {CancelButton} else {}) +
    (if !f.isPast && signedIn && !isRegistered && f.canRegister then {RegisterButton} else {}) +
    (if !f.isPast && !signedIn && f.canRegister then {LoginButton} else {}) +
    (if !f.isPast && !f.canRegister then {Closed} else {})
  }

  /** For the flags of a real event the panel shows exactly one item, except that a
      registered user also sees the cancel button while registration is closed. */
  lemma PanelChoice(now: int, e: Event, signedIn: bool, isRegistered: bool)
    ensures var f := StatusFlags(now, e);
            var items := Panel(f, signedIn, isRegistered);
            (f.isPast ==> items == {Ended}) &&
            (!f.isPast && f.canRegister && signedIn && isRegistered ==> items == {CancelButton}) &&
            (!f.isPast && f.canRegister && signedIn && !isRegistered ==> items == {RegisterButton}) &&
            (!f.isPast && f.canRegister && !signedIn ==> items == {LoginButton}) &&
            (!f.isPast && !f.canRegister && signedIn && isRegistered ==> items == {CancelButton, Closed}) &&
            (!f.isPast && !f.canRegister && !(signedIn && isRegistered) ==> items == {Closed})
  {
    var f := StatusFlags(now, e);
    var items := Panel(f, signedIn, isRegistered);
    if f.isPast {
      assert items == {Ended};
    } else if f.canRegister && signedIn && isRegistered {
      assert items == {CancelButton};
    } else if f.canRegister && signedIn {
      assert items == {RegisterButton};
    } else if f.canRegister {
      assert items == {LoginButton};
    } else if signedIn && isRegistered {
      assert items == {CancelButton, Closed};
    } else {
      assert items == {Closed};
    }
  }

  /** The "Join Live Event" link. */
  predicate ShowJoinLink(f: Flags, isRegistered: bool) {
    f.isLive && isRegistered
  }

  /** The "Register below to join the live event" hint. */
  predicate ShowRegisterHint(f: Flags, isRegistered: bool) {
    f.isLive && !isRegistered && f.canRegister
  }

  /** During a live event a viewer sees exactly one of the join link and the hint. */
  lemma LiveLinkOrHint(now: int, e: Event, isRegistered: bool)
    requires StatusFlags(now, e).isLive
    ensures ShowJoinLink(StatusFlags(now, e), isRegistered) != ShowRegisterHint(StatusFlags(now, e), isRegistered)
  {
  }

  /** The effects of a click on register or cancel. */
  datatype Action =
    | NoAction
    | ToastAndLogin(toast: string, from: string)
    | CallRegister(eventId: string)
    | CallUnregister(eventId: string)

  /** `handleRegister`: without a user, no mutation and a redirect to the login page that
      remembers the event; otherwise the register mutation. */
  function HandleRegister(signedIn: bool, eventId: string): (a: Action)
    ensures !signedIn ==> a == ToastAndLogin("Please log in to register for events", "/events/" + eventId)
    ensures signedIn ==> a == CallRegister(eventId)
  {
    if !signedIn then ToastAndLogin("Please log in to register for events", "/events/" + eventId)
    else CallRegister(eventId)
  }

  /** `handleUnregister`: nothing without a user. */
  function HandleUnregister(signedIn: bool, eventId: string): (a: Action)
    ensures !signedIn ==> a == NoAction
    ensures signedIn ==> a == CallUnregister(eventId)
  {
    if !signedIn then NoAction else CallUnregister(eventId)
  }

  const RegisterFailed := "Registration failed. Please try again"
  const UnregisterFailed := "Unregistration failed. Please try again."

  /** The toast once a mutation settles: `true` for a success toast. Only the server's
      `data.message` can replace the fallback text. */
  function RegisterToast(succeeded: bool, serverMessage: Option<string>): (t: (bool, string))
    ensures t.0 == succeeded
    ensures succeeded ==> t.1 == "Successfully Registered"
    ensures !succeeded ==> t.1 == MessageOr(serverMessage, RegisterFailed) && t.1 != ""
  {
    if succeeded then (true, "Successfully Registered") else (false, MessageOr(serverMessage, RegisterFailed))
  }

  function UnregisterToast(succeeded: bool, serverMessage: Option<string>): (t: (bool, string))
    ensures t.0 == succeeded
    ensures succeeded ==> t.1 == "Successfully unregistered."
    ensures !succeeded ==> t.1 == MessageOr(serverMessage, UnregisterFailed) && t.1 != ""
  {
    if succeeded then (true, "Successfully unregistered.") else (false, MessageOr(serverMessage, UnregisterFailed))
  }

  /** The detail page as a whole: spinner, error, or the page with its flags. */
  datatype DetailView = DetailSpinner | DetailError(message: string) | DetailPage(flags: Flags)

  function DetailGate(isLoadingEvent: bool, isErrorEvent: bool, errorMessage: Option<string>,
                      event: Option<Event>, signedIn: bool, isLoadingStatus: bool, now: int): (v: DetailView)
    ensures v.DetailSpinner? <==> isLoadingEvent || (signedIn && isLoadingStatus)
    ensures v.DetailPage? <==> !(isLoadingEvent || (signedIn && isLoadingStatus)) && !isErrorEvent && event.Some?
    ensures v.DetailPage? ==> v.flags == StatusFlags(now, event.value)
    ensures v.DetailError? ==> v.message == MessageOr(errorMessage, "Event not found")
  {
    if isLoadingEvent || (signedIn && isLoadingStatus) then DetailSpinner
    else if isErrorEvent || event.None? then DetailError(MessageOr(errorMessage, "Event not found"))
    else DetailPage(StatusFlags(now, event.value))
  }
}
