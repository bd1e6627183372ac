/**
 * The activity feed of the dashboard: the relative time shown for an
 * entry, posting a challenge, and loading the feed with its demonstration
 * entries when the request fails. Times are milliseconds since the epoch.
 */
module ActivityFeed {
  import opened Common

  const SECOND: nat := 1000
  const MINUTE: nat := 60 * SECOND
  const HOUR: nat := 60 * MINUTE
  const DAY: nat := 24 * HOUR
  const JUST_NOW: string := "just now"
  const CHALLENGE_PREFIX: string := "🎯 Challenge: "
  const CHALLENGE_SHARED: string := "challenge_shared"

  /** An entry of the feed. */
  datatype Activity = Activity(id: int, kind: string, description: string, timestamp: int)

  /** Whole minutes counted from whole seconds are the whole minutes of the milliseconds. */
  lemma MinutesOfSeconds(x: int)
    ensures (x / 1000) / 60 == x / 60000
  {
    var q, r := x / 60000, x % 60000;
    assert x == 60000 * q + r && 0 <= r < 60000;
    assert x / 1000 == 60 * q + r / 1000;
  }

  /** Whole hours counted from whole minutes are the whole hours of the milliseconds. */
  lemma HoursOfMinutes(x: int)
    ensures (x / 60000) / 60 == x / 3600000
  {
    var q, r := x / 3600000, x % 3600000;
    assert x == 3600000 * q + r && 0 <= r < 3600000;
    assert x / 60000 == 60 * q + r / 60000;
  }

  /**
   * `formatRelativeTime`: under a minute "just now" (a time in the future
   * included), under an hour the whole minutes, under a day the whole
   * hours, otherwise the date as the browser writes it (`localeDate`).
   */
  function RelativeTime(now: int, at: int, localeDate: string): (r: string)
    ensures now - at < MINUTE ==> r == JUST_NOW
    ensures MINUTE <= now - at < HOUR ==> r == NatToString((now - at) / MINUTE) + " min ago"
                                            && 1 <= (now - at) / MINUTE < 60
    ensures HOUR <= now - at < DAY ==> r == NatToString((now - at) / HOUR) + " hr ago"
                                         && 1 <= (now - at) / HOUR < 24
    ensures DAY <= now - at ==> r == localeDate
  {
    var seconds := (now - at) / 1000;
    MinutesOfSeconds(now - at);
    if seconds < 60 then JUST_NOW
    else
      var minutes := seconds / 60;
      HoursOfMinutes(now - at);
      if minutes < 60 then NatToString(minutes) + " min ago"
      else
        var hours := minutes / 60;
        if hours < 24 then NatToString(hours) + " hr ago"
        else localeDate
  }

  /** The three demonstration entries, two, five and twenty-four hours old. */
  function Fallback(now: int): (r: seq<Activity>)
    ensures |r| == 3
    ensures r[0].timestamp == now - 2 * HOUR && r[1].timestamp == now - 5 * HOUR && r[2].timestamp == now - DAY
  {
    [Activity(1, "study_session", "📚 You studied 2 hours of Mathematics", now - 2 * HOUR),
     Activity(2, "buddy_connected", "🤝 You and Alex Johnson became study buddies", now - 5 * HOUR),
     Activity(3, "challenge_completed", "🏆 You smashed the Weekly Coding Challenge!", now - DAY)]
  }

  /** Right after the fallback is installed, its entries read "2 hr ago", "5 hr ago" and the date of yesterday. */
  lemma FallbackAges(now: int, localeDate: string)
    ensures RelativeTime(now, Fallback(now)[0].timestamp, localeDate) == "2 hr ago"
    ensures RelativeTime(now, Fallback(now)[1].timestamp, localeDate) == "5 hr ago"
    ensures RelativeTime(now, Fallback(now)[2].timestamp, localeDate) == localeDate
  {
    assert (2 * HOUR) / HOUR == 2 && (5 * HOUR) / HOUR == 5;
    assert NatToString(2) == "2" && NatToString(5) == "5";
  }

  /** The answer of the activities request: its `success` flag, list and user, or no answer. */
  datatype FeedAnswer = FeedAnswer(success: bool, activities: Option<seq<Activity>>, user: Option<string>) | FeedFailed

  /** The feed's state. */
  class Feed {
    var activities: seq<Activity>
    var loading: bool
    var user: Option<string>
    var challenge: string

    constructor ()
      ensures activities == [] && loading && user.None? && challenge == []
    {
      activities := [];
      loading := true;
      user := None;
      challenge := [];
    }

    /**
     * `fetchActivities`: a successful answer replaces the list (a missing
     * one by the empty list) and the user; an unsuccessful one changes
     * neither; no answer installs the three demonstration entries.
     */
    method FetchActivities(answer: FeedAnswer, now: int)
      modifies this
      ensures answer.FeedAnswer? && answer.success ==>
                activities == (if answer.activities.Some? then answer.activities.value else [])
                && user == (if Truthy(answer.user) then answer.user else None)
      ensures answer.FeedAnswer? && !answer.success ==> activities == old(activities) && user == old(user)
      ensures answer.FeedFailed? ==> activities == Fallback(now) && user == old(user)
      ensures !loading && challenge == old(challenge)
    {
      loading := true;
      match answer {
        case FeedAnswer(success, list, name) =>
          if success {
            activities := if list.Some? then list.value else [];
            user := if Truthy(name) then name else None;
          }
        case FeedFailed =>
          activities := Fallback(now);
      }
      loading := false;
    }

    /**
     * `handleChallengePost`: a blank challenge sends nothing and changes
     * nothing; a successful post puts one shared-challenge entry in front
     * of the list, the rest in their order, and clears the input; any other
     * outcome (`posted` is `None` for an exception) changes nothing.
     */
    method PostChallenge(posted: Option<bool>, now: int) returns (sent: bool)
      modifies this
      ensures sent <==> Strip(old(challenge)) != []
      ensures sent && posted == Some(true) ==>
                activities == [Activity(now, CHALLENGE_SHARED, CHALLENGE_PREFIX + old(challenge), now)] + old(activities)
                && challenge == []
      ensures !(sent && posted == Some(true)) ==> activities == old(activities) && challenge == old(challenge)
      ensures user == old(user) && loading == old(loading)
    {
      if Strip(challenge) == [] {
        return false;
      }
      sent := true;
      if posted == Some(true) {
        var entry := Activity(now, CHALLENGE_SHARED, CHALLENGE_PREFIX + challenge, now);
        activities := [entry] + activities;
        challenge := [];
      }
    }
  }
}
