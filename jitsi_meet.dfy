/** The video-conference widget of the live page: it loads the vendor script once, builds one
    meeting instance when the script, a room name and its container are there, and disposes
    that instance before every rebuild and on unmount.

    The vendor widget is abstracted to numbered instances that are constructed, disposed,
    report `videoConferenceJoined` and receive commands. */
module JitsiWidget {
  import opened Wrappers

  type InstanceId = nat

  const JitsiDomain := "meet.jit.si"

  /** `currentUser?.name || propDisplayName || 'Attendee'`. */
  function DisplayName(userName: Option<string>, propName: Option<string>): (r: string)
    ensures userName.Some? && userName.value != "" ==> r == userName.value
    ensures !(userName.Some? && userName.value != "") && propName.Some? && propName.value != "" ==> r == propName.value
    ensures !(userName.Some? && userName.value != "") && !(propName.Some? && propName.value != "") ==> r == "Attendee"
    ensures r != ""
  {
    if userName.Some? && userName.value != "" then userName.value
    else if propName.Some? && propName.value != "" then propName.value
    else "Attendee"
  }

  /** The inputs of the init effect; a change of any of them re-runs it. */
  datatype Deps = Deps(roomName: string, eventTitle: string, displayName: string, email: Option<string>)

  /** The options handed to the constructor (layout and toolbar settings left out). */
  datatype Options = Options(
    roomName: string,
    displayName: string,
    email: string,
    startWithAudioMuted: bool,
    startWithVideoMuted: bool,
    prejoinPageEnabled: bool)

  function MeetingOptions(d: Deps): (o: Options)
    ensures o.roomName == d.roomName && o.displayName == d.displayName
    ensures o.email == (if d.email.Some? then d.email.value else "")
    ensures o.startWithAudioMuted && o.startWithVideoMuted && !o.prejoinPageEnabled
  {
    Options(d.roomName, d.displayName, d.email.GetOr(""), true, true, false)
  }

  /** The subject set once the local user has joined: `eventTitle || roomName`. */
  function Subject(d: Deps): (s: string)
    ensures d.eventTitle != "" ==> s == d.eventTitle
    ensures d.eventTitle == "" ==> s == d.roomName
  {
    if d.eventTitle != "" then d.eventTitle else d.roomName
  }

  /** What one run of the init effect does. */
  datatype Plan =
    | Wait(stopLoading: bool)   // prerequisites missing; no cleanup is returned
    | NoApi                     // the inner check fails; loading stops
    | Build                     // an instance is constructed and stored
    | BuildFailed               // the constructor throws; loading stops

  function InitPlan(jitsiLoaded: bool, roomName: string, hasContainer: bool,
                    apiPresent: bool, constructorThrows: bool): (p: Plan)
    ensures p.Build? <==> jitsiLoaded && roomName != "" && hasContainer && apiPresent && !constructorThrows
    ensures p.Wait? <==> !jitsiLoaded || roomName == "" || !hasContainer
    ensures p.Wait? ==> (p.stopLoading <==> jitsiLoaded && roomName == "")
  {
    if !jitsiLoaded || roomName == "" || !hasContainer then Wait(jitsiLoaded && roomName == "")
    else if !apiPresent then NoApi
    else if constructorThrows then BuildFailed
    else Build
  }

  datatype Construction = Construction(id: InstanceId, options: Options, subject: string)

  datatype Command = SetSubject(instance: InstanceId, subject: string)

  /** What the container element holds. */
  datatype Container = Empty | Iframe(instance: InstanceId)

  class JitsiMeet {
    var loading: bool
    var jitsiLoaded: bool
    var apiRef: Option<InstanceId>
    var container: Container
    /** Whether the last run of the init effect returned a cleanup that has not run yet. */
    var cleanupPending: bool
    var scriptTags: nat
    var constructed: seq<Construction>
    var disposed: seq<InstanceId>
    var commands: seq<Command>

    /** Instance ids are handed out in order; every instance built is either the stored one
        or has been disposed, exactly once; and nothing is stored without a pending cleanup. */
    predicate Valid()
      reads this
    {
      (forall i :: 0 <= i < |constructed| ==> constructed[i].id == i) &&
      (forall i :: 0 <= i < |disposed| ==> disposed[i] < |constructed|) &&
      (forall i, j :: 0 <= i < j < |disposed| ==> disposed[i] != disposed[j]) &&
      (apiRef.Some? ==> apiRef.value < |constructed| && apiRef.value !in disposed) &&
      (forall id :: 0 <= id < |constructed| ==> id in disposed || apiRef == Some(id)) &&
      (apiRef.Some? ==> cleanupPending)
    }

    /** The instances built and not disposed. */
    function LiveInstances(): set<InstanceId>
      reads this
    {
      set id | 0 <= id < |constructed| && id !in disposed
    }

    /** `useState(true)` and `useState(Boolean(window.JitsiMeetExternalAPI))` on mount. */
    constructor (apiPresent: bool)
      ensures Valid() && loading && jitsiLoaded == apiPresent
      ensures apiRef.None? && !cleanupPending && container == Empty
      ensures scriptTags == 0 && constructed == [] && disposed == [] && commands == []
    {
      loading := true;
      jitsiLoaded := apiPresent;
      apiRef := None;
      container := Empty;
      cleanupPending := false;
      scriptTags := 0;
      constructed := [];
      disposed := [];
      commands := [];
    }

    /** The script effect: a script tag is appended only while the script is not loaded. */
    method ScriptEffect()
      requires Valid()
      modifies this
      ensures Valid()
      ensures scriptTags == old(scriptTags) + (if old(jitsiLoaded) then 0 else 1)
      ensures loading == old(loading) && jitsiLoaded == old(jitsiLoaded) && apiRef == old(apiRef)
      ensures constructed == old(constructed) && disposed == old(disposed) && commands == old(commands)
      ensures container == old(container) && cleanupPending == old(cleanupPending)
    {
      if !jitsiLoaded {
        scriptTags := scriptTags + 1;
      }
    }

    /** `script.onload`. */
    method ScriptLoaded()
      requires Valid()
      modifies this
      ensures Valid() && jitsiLoaded
      ensures loading == old(loading) && apiRef == old(apiRef) && scriptTags == old(scriptTags)
      ensures constructed == old(constructed) && disposed == old(disposed) && commands == old(commands)
      ensures container == old(container) && cleanupPending == old(cleanupPending)
    {
      jitsiLoaded := true;
    }

    /** `script.onerror`: loading stops and the script stays unloaded. */
    method ScriptFailed()
      requires Valid()
      modifies this
      ensures Valid() && !loading && jitsiLoaded == old(jitsiLoaded)
      ensures apiRef == old(apiRef) && scriptTags == old(scriptTags)
      ensures constructed == old(constructed) && disposed == old(disposed) && commands == old(commands)
      ensures container == old(container) && cleanupPending == old(cleanupPending)
    {
      loading := false;
    }

    /** The cleanup the init effect returned, run on unmount or before the next run. */
    method Cleanup()
      requires Valid()
      modifies this
      ensures Valid() && apiRef.None? && !cleanupPending
      ensures old(cleanupPending) && old(apiRef).Some? ==> disposed == old(disposed) + [old(apiRef).value]
      ensures !(old(cleanupPending) && old(apiRef).Some?) ==> disposed == old(disposed)
      ensures old(cleanupPending) ==> loading && container == Empty
      ensures !old(cleanupPending) ==> loading == old(loading) && container == old(container)
      ensures jitsiLoaded == old(jitsiLoaded) && scriptTags == old(scriptTags)
      ensures constructed == old(constructed) && commands == old(commands)
    {
      if cleanupPending {
        if apiRef.Some? {
          disposed := disposed + [apiRef.value];
          apiRef := None;
        }
        container := Empty;
        loading := true;
        cleanupPending := false;
      }
    }

    /** A run of the init effect: first the previous run's cleanup, then the body. */
    method InitEffect(d: Deps, hasContainer: bool, apiPresent: bool, constructorThrows: bool)
      requires Valid()
      modifies this
      ensures Valid()
      ensures var p := InitPlan(jitsiLoaded, d.roomName, hasContainer, apiPresent, constructorThrows);
              (p.Build? ==> constructed == old(constructed) + [Construction(|old(constructed)|, MeetingOptions(d), Subject(d))] &&
                            apiRef == Some(|old(constructed)|) && loading && container == Iframe(|old(constructed)|)) &&
              (!p.Build? ==> constructed == old(constructed) && apiRef.None?) &&
              (p.Wait? ==> !cleanupPending && (p.stopLoading ==> !loading)) &&
              (p.NoApi? || p.BuildFailed? ==> cleanupPending && !loading)
      ensures old(cleanupPending) && old(apiRef).Some? ==> disposed == old(disposed) + [old(apiRef).value]
      ensures !(old(cleanupPending) && old(apiRef).Some?) ==> disposed == old(disposed)
      ensures jitsiLoaded == old(jitsiLoaded) && scriptTags == old(scriptTags) && commands == old(commands)
    {
      Cleanup();
      var plan := InitPlan(jitsiLoaded, d.roomName, hasContainer, apiPresent, constructorThrows);
      match plan
      case Wait(stop) =>
        if stop { loading := false; }
      case NoApi =>
        loading := false;
        cleanupPending := true;
      case BuildFailed =>
        container := Empty;
        loading := false;
        cleanupPending := true;
      case Build =>
        container := Empty;
        loading := true;
        var id := |constructed|;
        constructed := constructed + [Construction(id, MeetingOptions(d), Subject(d))];
        apiRef := Some(id);
        container := Iframe(id);
        cleanupPending := true;
    }

    /** The stored instance reports `videoConferenceJoined`: loading stops and the subject
        is set. */
    method ConferenceJoined()
      requires Valid() && apiRef.Some?
      modifies this
      ensures Valid() && !loading && apiRef == old(apiRef)
      ensures commands == old(commands) + [SetSubject(apiRef.value, constructed[apiRef.value].subject)]
      ensures && jitsiLoaded == old(jitsiLoaded) && scriptTags == old(scriptTags)
      ensures constructed == old(constructed) && disposed == old(disposed)
      ensures container == old(container) && cleanupPending == old(cleanupPending)
    {
      loading := false;
      commands := commands + [SetSubject(apiRef.value, constructed[apiRef.value].subject)];
    }

    /** Because every rebuild is preceded by the cleanup, at most one instance is alive, and
        it is the stored one. */
    lemma AtMostOneLive()
      requires Valid()
      ensures LiveInstances() <= (if apiRef.Some? then {apiRef.value} else {})
      ensures |LiveInstances()| <= 1
    {
      var s := if apiRef.Some? then {apiRef.value} else {};
      forall id | id in LiveInstances() ensures id in s {
        assert id !in disposed;
      }
      SubsetCard(LiveInstances(), s);
    }
  }

  lemma SubsetCard<T>(a: set<T>, b: set<T>)
    requires a <= b
    ensures |a| <= |b|
  {
    if a != {} {
      var x :| x in a;
      SubsetCard(a - {x}, b - {x});
    }
  }
}
