/**
 * The dashboard page of the web front end: its own avatar and picture
 * helpers, the local update after a connection request, the outcome
 * handling of the profile fetch, the order in which the page loads its
 * data, the fallback challenge and the label shown for a buddy's status.
 */
module Dashboard {
  import opened Common
  import ApiClient
  import ProfileRoutes
  import Buddies
  import Models
  import PersonalizedChallenges

  const API_BASE: string := "http://127.0.0.1:5000"
  const UPLOADS_PATH: string := "/uploads/profile_pics/"
  const SESSION_EXPIRED: string := "Session expired. Please login again."
  const PROFILE_LOAD_FAILED: string := "Failed to load profile"
  const CONNECT_SENT: string := "Connection request sent successfully!"
  const CONNECT_FAILED: string := "Failed to send connection request"
  /** The message of the error axios rejects an aborted request with. */
  const CANCELED: string := "canceled"
  const FORM_SEPARATOR: string := ", "

  // ------------------------------------------------------------- pictures

  /**
   * The dashboard's own `getInitialsAvatar`: it keeps the initials when
   * there is at least one, and shows the same image as the shared client.
   */
  function InitialsAvatar(username: Option<string>): (r: string)
    ensures r == ApiClient.InitialsAvatar(username)
  {
    if !Truthy(username) then "https://placehold.co/100/ff0000/ffffff?text=US"
    else
      var initials := ApiClient.Initials(username.value);
      ApiClient.AVATAR_BASE + (if |initials| >= 1 then initials else "US")
  }

  /**
   * The dashboard's own `getProfilePicture`: a stored picture not starting
   * with "http" is looked up under the uploads folder of `API_BASE`.
   */
  function ProfilePicture(picture: Option<string>, avatar: Option<string>, username: Option<string>): (r: string)
    ensures r != []
    ensures Truthy(picture) && StartsWith(picture.value, "http") ==> r == picture.value
    ensures Truthy(picture) && !StartsWith(picture.value, "http") ==> r == API_BASE + UPLOADS_PATH + picture.value
    ensures !Truthy(picture) ==> r == ApiClient.ProfilePicture(picture, avatar, username)
  {
    if Truthy(picture) then
      if StartsWith(picture.value, "http") then picture.value else API_BASE + UPLOADS_PATH + picture.value
    else if Truthy(avatar) then avatar.value
    else InitialsAvatar(username)
  }

  /** For a stored name that is not a URL the two clients point at different addresses. */
  lemma PictureHelpersDiverge(picture: string, avatar: Option<string>, username: Option<string>)
    requires picture != [] && !StartsWith(picture, "http")
    ensures ProfilePicture(Some(picture), avatar, username) != ApiClient.ProfilePicture(Some(picture), avatar, username)
  {
    var mine := ProfilePicture(Some(picture), avatar, username);
    var shared := ApiClient.ProfilePicture(Some(picture), avatar, username);
    assert StartsWith(API_BASE, "http");
    assert |mine| == |shared| + |UPLOADS_PATH|;
  }

  /** A picture the profile route returns is a URL, so both clients show it as it is. */
  lemma BackendPictureShownAsIs(stored: Option<string>, avatar: Option<string>, username: Option<string>)
    requires Truthy(stored)
    ensures var url := ProfileRoutes.PictureUrl(stored);
            url.Some?
            && ProfilePicture(url, avatar, username) == url.value
            && ApiClient.ProfilePicture(url, avatar, username) == url.value
  {
    var url := ProfileRoutes.PictureUrl(stored).value;
    assert url[..|ProfileRoutes.PICTURE_HOST|] == ProfileRoutes.PICTURE_HOST;
    assert url[..4] == ProfileRoutes.PICTURE_HOST[..4];
    assert StartsWith(url, "http");
  }

  // ---------------------------------------------------------------- labels

  /** The label of a buddy card: `not_connected`, `request_sent` and `request_received` have their own, anything else reads "Connected". */
  function StatusLabel(status: string): (r: string)
    ensures r == "Connect" <==> status == Buddies.NOT_CONNECTED
    ensures r == "Request Sent" <==> status == Buddies.REQUEST_SENT
    ensures r == "Request Received" <==> status == Buddies.REQUEST_RECEIVED
    ensures r == "Connected" <==> status !in {Buddies.NOT_CONNECTED, Buddies.REQUEST_SENT, Buddies.REQUEST_RECEIVED}
  {
    if status == Buddies.NOT_CONNECTED then "Connect"
    else if status == Buddies.REQUEST_SENT then "Request Sent"
    else if status == Buddies.REQUEST_RECEIVED then "Request Received"
    else "Connected"
  }

  /** Every status the buddy routes report gets its own label, and only "not_connected" offers the Connect button. */
  lemma LabelsTellStatusesApart(rows: seq<Models.Connection>, me: nat, other: nat, rows': seq<Models.Connection>, other': nat)
    ensures var s := Buddies.ConnectionStatus(rows, me, other);
            var s' := Buddies.ConnectionStatus(rows', me, other');
            (StatusLabel(s) == StatusLabel(s') <==> s == s')
            && (StatusLabel(s) == "Connected" <==> s == Buddies.CONNECTED)
  {
  }

  // ------------------------------------------------------- connect requests

  /** After a sent request every card of that buddy shows `request_sent`; all other cards, the order and the length stay. */
  function MarkRequested(cards: seq<Buddies.BuddyEntry>, buddyId: nat): (r: seq<Buddies.BuddyEntry>)
    ensures |r| == |cards|
    ensures forall i :: 0 <= i < |r| && cards[i].id != buddyId ==> r[i] == cards[i]
    ensures forall i :: 0 <= i < |r| && cards[i].id == buddyId ==> r[i] == cards[i].(status := Buddies.REQUEST_SENT)
  {
    seq(|cards|, i requires 0 <= i < |cards| =>
      if cards[i].id == buddyId then cards[i].(status := Buddies.REQUEST_SENT) else cards[i])
  }

  /** Marking twice is marking once, and afterwards every card of the buddy reads "Request Sent". */
  lemma MarkRequestedSettles(cards: seq<Buddies.BuddyEntry>, buddyId: nat)
    ensures MarkRequested(MarkRequested(cards, buddyId), buddyId) == MarkRequested(cards, buddyId)
    ensures forall e :: e in MarkRequested(cards, buddyId) && e.id == buddyId ==> StatusLabel(e.status) == "Request Sent"
  {
  }

  // --------------------------------------------------------------- outcomes

  /** How a request ended: with a body, or with an error (aborted, or with an optional status, error body and message). */
  datatype Failure = Aborted | Failed(status: Option<int>, errorBody: Option<string>, message: Option<string>)
  datatype Outcome<T> = Done(value: T) | Threw(failure: Failure)

  predicate IsStatus<T>(o: Outcome<T>, code: int)
  {
    o.Threw? && o.failure.Failed? && o.failure.status == Some(code)
  }

  /**
   * What axios actually rejects an aborted request with: an error named
   * "CanceledError" (so never "AbortError"), with no response and the
   * message "canceled".
   */
  const AXIOS_CANCELED: Failure := Failed(None, None, Some(CANCELED))

  /** `fetchProfile`'s return value: success, or a 404 (no profile yet). */
  predicate ProfileFetchSucceeded<T>(o: Outcome<T>)
  {
    o.Done? || IsStatus(o, 404)
  }

  /**
   * The error `fetchProfile` sets when it settles: none after success, a
   * 404 or a cancellation it recognises (`Aborted`); the session text after a
   * 401; otherwise the body's error, the error's message or the default text.
   * A shown error is never empty.
   */
  function ProfileFetchError<T>(o: Outcome<T>): (r: Option<string>)
    ensures r.None? <==> ProfileFetchSucceeded(o) || (o.Threw? && o.failure.Aborted?)
    ensures IsStatus(o, 401) ==> r == Some(SESSION_EXPIRED)
    ensures r.Some? ==> r.value != []
  {
    match o
    case Done(_) => None
    case Threw(Aborted) => None
    case Threw(Failed(status, body, message)) =>
      if status == Some(401) then Some(SESSION_EXPIRED)
      else if status == Some(404) then None
      else if Truthy(body) then body
      else if Truthy(message) then message
      else Some(PROFILE_LOAD_FAILED)
  }

  /**
   * The error left once a fetch settles: the error it sets, or, when it
   * sets none, the error as it was.
   */
  function ErrorAfterSettle<T>(before: Option<string>, o: Outcome<T>): Option<string>
  {
    if ProfileFetchError(o).Some? then ProfileFetchError(o) else before
  }

  /**
   * As written, the abort test never matches: a later `fetchProfile` clears
   * the error and aborts the earlier call, whose rejection then sets the
   * error to "canceled", and the later call's success leaves it there.
   */
  lemma CanceledErrorStaysAsWritten<T>(data: T)
    ensures ProfileFetchError(Outcome<T>.Threw(AXIOS_CANCELED)) == Some(CANCELED)
    ensures ErrorAfterSettle(ErrorAfterSettle(None, Outcome<T>.Threw(AXIOS_CANCELED)), Done(data)) == Some(CANCELED)
  {
  }

  /**
   * With the cancellation recognised (`Aborted`), the error shown after two
   * overlapping fetches is the later fetch's own.
   */
  lemma LatestFetchDecidesError<T>(later: Outcome<T>)
    ensures ErrorAfterSettle(ErrorAfterSettle(None, Outcome<T>.Threw(Aborted)), later) == ProfileFetchError(later)
  {
  }

  /** The alert after a connection request: the success text, the body's error or the default text. */
  function ConnectAlert<T>(o: Outcome<T>): (r: string)
    ensures r != []
    ensures o.Done? ==> r == CONNECT_SENT
    ensures o.Threw? && o.failure.Failed? && Truthy(o.failure.errorBody) ==> r == o.failure.errorBody.value
    ensures o.Threw? && !(o.failure.Failed? && Truthy(o.failure.errorBody)) ==> r == CONNECT_FAILED
  {
    if o.Done? then CONNECT_SENT
    else if o.failure.Failed? && Truthy(o.failure.errorBody) then o.failure.errorBody.value
    else CONNECT_FAILED
  }

  // ------------------------------------------------------------ edit form

  /** The interests as the profile body carries them: a list, or some other value (text or nothing). */
  datatype InterestsField = InterestList(items: seq<string>) | InterestText(text: Option<string>)

  datatype ProfileFields = ProfileFields(bio: Option<string>, interests: InterestsField,
                                         specialization: Option<string>, schedule: Option<string>)

  /** The body of the profile fetch; `profile` may be missing. */
  datatype ProfileData = ProfileData(profile: Option<ProfileFields>)

  datatype EditForm = EditForm(bio: string, interests: string, specialization: string, schedule: string)

  const EMPTY_FORM: EditForm := EditForm("", "", "", "")

  /** The interests text of the edit form: a list joined with ", ", else the value, else "". */
  function FormInterests(f: InterestsField): (r: string)
    ensures f.InterestList? && |f.items| == 1 ==> r == f.items[0]
    ensures f.InterestText? ==> r == OrEmpty(f.text)
  {
    match f
    case InterestList(items) => Join(items, FORM_SEPARATOR)
    case InterestText(t) => OrEmpty(t)
  }

  /** The edit form filled from a fetched profile; every field missing from it is "". */
  function FormFrom(data: ProfileData): (r: EditForm)
    ensures data.profile.None? ==> r == EMPTY_FORM
    ensures data.profile.Some? ==> r.bio == OrEmpty(data.profile.value.bio)
                                   && r.interests == FormInterests(data.profile.value.interests)
                                   && r.specialization == OrEmpty(data.profile.value.specialization)
                                   && r.schedule == OrEmpty(data.profile.value.schedule)
  {
    match data.profile
    case None => EMPTY_FORM
    case Some(p) => EditForm(OrEmpty(p.bio), FormInterests(p.interests), OrEmpty(p.specialization), OrEmpty(p.schedule))
  }

  /** A wider separator makes a join of two or more parts strictly longer. */
  lemma {:induction false} JoinWidens(parts: seq<string>, narrow: string, wide: string)
    requires |narrow| < |wide|
    ensures |Join(parts, narrow)| + (if |parts| >= 2 then 1 else 0) <= |Join(parts, wide)|
  {
    if |parts| >= 2 {
      JoinWidens(parts[1..], narrow, wide);
    }
  }

  /**
   * Saving the edit form unchanged does not give back the stored interests:
   * the route splits them at every comma without stripping, and the form
   * joins the pieces with ", ", so each save adds one space per comma.
   */
  lemma EditedInterestsGrow(stored: string)
    requires stored != [] && ',' in stored
    ensures |FormInterests(InterestList(ProfileRoutes.InterestsOut(Some(stored))))| > |stored|
  {
    var parts := ProfileRoutes.InterestsOut(Some(stored));
    assert |parts| >= 2;
    JoinWidens(parts, ",", FORM_SEPARATOR);
  }

  /** "a, b" is offered for editing as "a,  b". */
  lemma TwoInterestsGainASpace()
    ensures FormInterests(InterestList(ProfileRoutes.InterestsOut(Some("a, b")))) != "a, b"
  {
    assert "a, b"[1] == ',';
    EditedInterestsGrow("a, b");
  }

  /** The interests text joined with the separator the route splits at. */
  function FormInterestsKept(f: InterestsField): (r: string)
    ensures f.InterestText? ==> r == OrEmpty(f.text)
  {
    match f
    case InterestList(items) => Join(items, ",")
    case InterestText(t) => OrEmpty(t)
  }

  /** Joined with ",", the interests the route returns give back exactly the stored text. */
  lemma KeptInterestsRoundTrip(stored: Option<string>)
    ensures FormInterestsKept(InterestList(ProfileRoutes.InterestsOut(stored))) == OrEmpty(stored)
  {
  }

  // ------------------------------------------------------------ page state

  /** The fallback challenge shown when the personalised ones cannot be fetched. */
  const FALLBACK_CHALLENGE: PersonalizedChallenges.Suggestion :=
    PersonalizedChallenges.Suggestion("fallback-1", "Complete 5 coding exercises",
                                      "Practice your programming skills with daily exercises",
                                      "Programming", "Beginner", "5 days", 200, 40, [])

  /** The challenges shown after the fetch: the fetched ones, else exactly the one fallback challenge. */
  function ChallengesAfter(o: Outcome<seq<PersonalizedChallenges.Suggestion>>): (r: seq<PersonalizedChallenges.Suggestion>)
    ensures o.Done? ==> r == o.value
    ensures o.Threw? ==> |r| == 1 && r[0].id == "fallback-1"
  {
    if o.Done? then o.value else [FALLBACK_CHALLENGE]
  }

  /** The state of the dashboard page that its loaders and handlers set. */
  class DashboardState {
    var profile: Option<ProfileData>
    var loading: bool
    var error: Option<string>
    var profileLoadAttempted: bool
    var editForm: EditForm
    var recommended: seq<Buddies.BuddyEntry>
    var allBuddies: seq<Buddies.BuddyEntry>
    var challenges: seq<PersonalizedChallenges.Suggestion>
    var initialLoadComplete: bool
    /** Set once the page has called the session's `logout`. */
    var loggedOut: bool

    constructor ()
      ensures profile.None? && loading && error.None? && !profileLoadAttempted && editForm == EMPTY_FORM
      ensures recommended == [] && allBuddies == [] && challenges == [] && !initialLoadComplete && !loggedOut
    {
      profile := None;
      loading := true;
      error := None;
      profileLoadAttempted := false;
      editForm := EMPTY_FORM;
      recommended := [];
      allBuddies := [];
      challenges := [];
      initialLoadComplete := false;
      loggedOut := false;
    }

    /** The start of `fetchProfile`: loading, no error, and a load attempted. */
    method BeginFetchProfile()
      modifies this
      ensures loading && error.None? && profileLoadAttempted
      ensures profile == old(profile) && editForm == old(editForm) && loggedOut == old(loggedOut)
      ensures recommended == old(recommended) && allBuddies == old(allBuddies) && challenges == old(challenges)
      ensures initialLoadComplete == old(initialLoadComplete)
    {
      loading := true;
      error := None;
      profileLoadAttempted := true;
    }

    /**
     * The settling of `fetchProfile`: a body fills the profile and the edit
     * form; a 401 sets the session text and logs out; a 404 counts as
     * success; a recognised cancellation sets no error. Loading ends in every
     * case.
     */
    method SettleProfile(o: Outcome<ProfileData>) returns (ok: bool)
      modifies this
      ensures ok <==> ProfileFetchSucceeded(o)
      ensures !loading && profileLoadAttempted == old(profileLoadAttempted)
      ensures error == ErrorAfterSettle(old(error), o)
      ensures o.Done? ==> profile == Some(o.value) && editForm == FormFrom(o.value)
      ensures o.Threw? ==> profile == old(profile) && editForm == old(editForm)
      ensures loggedOut <==> old(loggedOut) || IsStatus(o, 401)
      ensures recommended == old(recommended) && allBuddies == old(allBuddies) && challenges == old(challenges)
      ensures initialLoadComplete == old(initialLoadComplete)
    {
      match o {
        case Done(data) =>
          profile := Some(data);
          editForm := FormFrom(data);
          ok := true;
        case Threw(failure) =>
          ok := false;
          if failure.Failed? {
            if failure.status == Some(401) {
              error := Some(SESSION_EXPIRED);
              loggedOut := true;
            } else if failure.status == Some(404) {
              ok := true;
            } else {
              error := ProfileFetchError(o);
            }
          }
      }
      loading := false;
    }

    /** `fetchProfile`: its start and its settling, with no other call in between. */
    method FetchProfile(o: Outcome<ProfileData>) returns (ok: bool)
      modifies this
      ensures ok <==> ProfileFetchSucceeded(o)
      ensures !loading && profileLoadAttempted
      ensures error == ProfileFetchError(o)
      ensures o.Done? ==> profile == Some(o.value) && editForm == FormFrom(o.value)
      ensures o.Threw? ==> profile == old(profile) && editForm == old(editForm)
      ensures loggedOut <==> old(loggedOut) || IsStatus(o, 401)
      ensures recommended == old(recommended) && allBuddies == old(allBuddies) && challenges == old(challenges)
      ensures initialLoadComplete == old(initialLoadComplete)
    {
      BeginFetchProfile();
      ok := SettleProfile(o);
    }

    /**
     * Two overlapping `fetchProfile` calls: the later one starts and aborts
     * the earlier one, the earlier one settles with `earlier`, then the later
     * one settles with `later`.
     */
    method OverlappingFetchProfile(earlier: Outcome<ProfileData>, later: Outcome<ProfileData>) returns (ok: bool)
      modifies this
      ensures ok <==> ProfileFetchSucceeded(later)
      ensures !loading && profileLoadAttempted
      ensures error == ErrorAfterSettle(ErrorAfterSettle(None, earlier), later)
      ensures later.Done? ==> profile == Some(later.value) && editForm == FormFrom(later.value)
      ensures recommended == old(recommended) && allBuddies == old(allBuddies) && challenges == old(challenges)
      ensures initialLoadComplete == old(initialLoadComplete)
    {
      BeginFetchProfile();
      var _ := SettleProfile(earlier);
      ok := SettleProfile(later);
    }

    /** `fetchRecommendedBuddies` / `fetchAllBuddies`: the list is replaced only by a fetched one. */
    method FetchBuddies(recommendedList: bool, o: Outcome<seq<Buddies.BuddyEntry>>) returns (ok: bool)
      modifies this
      ensures ok <==> o.Done?
      ensures recommended == (if recommendedList && o.Done? then o.value else old(recommended))
      ensures allBuddies == (if !recommendedList && o.Done? then o.value else old(allBuddies))
      ensures profile == old(profile) && error == old(error) && editForm == old(editForm)
      ensures challenges == old(challenges) && initialLoadComplete == old(initialLoadComplete)
      ensures loading == old(loading) && loggedOut == old(loggedOut)
      ensures profileLoadAttempted == old(profileLoadAttempted)
    {
      ok := o.Done?;
      if o.Done? {
        if recommendedList {
          recommended := o.value;
        } else {
          allBuddies := o.value;
        }
      }
    }

    /** `fetchPersonalizedChallenges`: the fetched challenges or the one fallback; it reports success either way. */
    method FetchChallenges(o: Outcome<seq<PersonalizedChallenges.Suggestion>>) returns (ok: bool)
      modifies this
      ensures ok
      ensures challenges == ChallengesAfter(o)
      ensures profile == old(profile) && error == old(error) && editForm == old(editForm)
      ensures recommended == old(recommended) && allBuddies == old(allBuddies)
      ensures initialLoadComplete == old(initialLoadComplete)
      ensures loading == old(loading) && loggedOut == old(loggedOut)
      ensures profileLoadAttempted == old(profileLoadAttempted)
    {
      challenges := ChallengesAfter(o);
      ok := true;
    }

    /**
     * `loadDashboardData`: the profile first; only when it succeeded the
     * buddies, all buddies and challenges, and the initial load is complete
     * only once those have settled.
     */
    method LoadDashboardData(p: Outcome<ProfileData>, rec: Outcome<seq<Buddies.BuddyEntry>>,
                             all: Outcome<seq<Buddies.BuddyEntry>>,
                             ch: Outcome<seq<PersonalizedChallenges.Suggestion>>)
      modifies this
      ensures initialLoadComplete <==> old(initialLoadComplete) || ProfileFetchSucceeded(p)
      ensures error == ProfileFetchError(p)
      ensures !ProfileFetchSucceeded(p) ==>
                recommended == old(recommended) && allBuddies == old(allBuddies) && challenges == old(challenges)
      ensures ProfileFetchSucceeded(p) ==>
                recommended == (if rec.Done? then rec.value else old(recommended))
                && allBuddies == (if all.Done? then all.value else old(allBuddies))
                && challenges == ChallengesAfter(ch)
      ensures !loading
    {
      error := None;
      var ok := FetchProfile(p);
      if !ok {
        return;
      }
      var _ := FetchBuddies(true, rec);
      var _ := FetchBuddies(false, all);
      var _ := FetchChallenges(ch);
      initialLoadComplete := true;
    }

    /**
     * `handleConnectBuddy`: after a sent request both lists mark the buddy;
     * a failure changes neither. The alert text is returned.
     */
    method ConnectBuddy(buddyId: nat, o: Outcome<()>) returns (alert: string)
      modifies this
      ensures alert == ConnectAlert(o)
      ensures o.Done? ==> recommended == MarkRequested(old(recommended), buddyId)
                          && allBuddies == MarkRequested(old(allBuddies), buddyId)
      ensures o.Threw? ==> recommended == old(recommended) && allBuddies == old(allBuddies)
      ensures profile == old(profile) && error == old(error) && editForm == old(editForm)
      ensures challenges == old(challenges) && initialLoadComplete == old(initialLoadComplete)
      ensures loading == old(loading) && loggedOut == old(loggedOut)
      ensures profileLoadAttempted == old(profileLoadAttempted)
    {
      if o.Done? {
        recommended := MarkRequested(recommended, buddyId);
        allBuddies := MarkRequested(allBuddies, buddyId);
      }
      alert := ConnectAlert(o);
    }
  }

  /**
   * The dashboard's own 401 handler: the stored "user" and "token" are
   * removed and the browser is always sent to "/login", even from there.
   */
  method OnResponseError(browser: ApiClient.Browser, status: Option<int>) returns (rejected: bool)
    modifies browser
    ensures rejected
    ensures browser.pathname == old(browser.pathname)
    ensures status == Some(401) ==> browser.storage == old(browser.storage) - {"user", "token"}
                                    && browser.href == Some("/login")
    ensures status != Some(401) ==> browser.storage == old(browser.storage) && browser.href == old(browser.href)
  {
    if status == Some(401) {
      browser.storage := browser.storage - {"user", "token"};
      browser.href := Some("/login");
    }
    rejected := true;
  }
}
