/** The two request middlewares of the links app.

    StatsSinceLastVisitMiddleware: on a logged-in user's first request of a new
    day, tell them how many clicks and downloads their links earned since
    their previous visit, and remember today as their last visit.

    ReferralSkipMiddleware: if the request resolves to one of a set of view
    names, run that view at once and return its response.

    Days are whole numbers (the day the clock reads); the clock, the user's
    data points and the URL resolver are parameters. */
module LinksMiddleware {
  import opened Wrappers
  import opened Http

  type Day = int

  /** One day's counts for one of the user's links. */
  datatype DataPoint = DataPoint(date: Day, linkClicks: nat, firefoxDownloads: nat)

  /** Summed counts; also the content of the "since your last visit" message. */
  datatype Activity = Activity(clicks: nat, downloads: nat)

  /** The stored UserProfile row; `lastVisit` is updated in place and saved. */
  class UserProfile {
    var lastVisit: Option<Day>

    constructor (lastVisit: Option<Day>)
      ensures this.lastVisit == lastVisit
    {
      this.lastVisit := lastVisit;
    }
  }

  /** The user attached to a request. An authenticated user may have no
      profile: a Facebook user, or a user whose profile row is missing. */
  datatype RequestUser = Anonymous | Authenticated(profile: Option<UserProfile>)

  // ---------------------------------------------------------------------------
  // Stats since last visit

  /** The window reported on a visit: after the last visit's day, up to and
      including today. */
  predicate InWindow(p: DataPoint, lastVisit: Day, today: Day) {
    lastVisit < p.date <= today
  }

  predicate HasActivity(p: DataPoint) {
    p.linkClicks > 0 || p.firefoxDownloads > 0
  }

  /** Link clicks summed over the data points in the window. */
  function WindowClicks(points: seq<DataPoint>, lastVisit: Day, today: Day): nat {
    if points == [] then 0
    else (if InWindow(points[0], lastVisit, today) then points[0].linkClicks else 0)
         + WindowClicks(points[1..], lastVisit, today)
  }

  /** Firefox downloads summed over the data points in the window. */
  function WindowDownloads(points: seq<DataPoint>, lastVisit: Day, today: Day): nat {
    if points == [] then 0
    else (if InWindow(points[0], lastVisit, today) then points[0].firefoxDownloads else 0)
         + WindowDownloads(points[1..], lastVisit, today)
  }

  lemma {:induction false} NoActivityIffZero(points: seq<DataPoint>, lastVisit: Day, today: Day)
    ensures WindowClicks(points, lastVisit, today) == 0 && WindowDownloads(points, lastVisit, today) == 0 <==>
      forall i :: 0 <= i < |points| && InWindow(points[i], lastVisit, today) ==> !HasActivity(points[i])
  {
    if points != [] {
      NoActivityIffZero(points[1..], lastVisit, today);
      assert forall i :: 1 <= i < |points| ==> points[i] == points[1..][i - 1];
    }
  }

  /** Both sums over the window: the `Sum` aggregation of the data points of
      the user's links dated after `lastVisit` and up to `today`. They are zero
      exactly when no data point in the window has a click or a download. */
  function WindowActivity(points: seq<DataPoint>, lastVisit: Day, today: Day): (a: Activity)
    ensures a == Activity(0, 0) <==>
      forall i :: 0 <= i < |points| && InWindow(points[i], lastVisit, today) ==> !HasActivity(points[i])
  {
    NoActivityIffZero(points, lastVisit, today);
    Activity(WindowClicks(points, lastVisit, today), WindowDownloads(points, lastVisit, today))
  }

  /** What a visit leaves behind: the new `last_visit` and the message sent. */
  datatype StatsOutcome = StatsOutcome(lastVisit: Option<Day>, message: Option<Activity>)

  /** The decision `StatsSinceLastVisitMiddleware.process_request` makes for a
      user with a profile. */
  function StatsSinceLastVisit(lastVisit: Option<Day>, today: Day, points: seq<DataPoint>): (o: StatsOutcome)
    // No recorded visit: record today, say nothing.
    ensures lastVisit.None? ==> o == StatsOutcome(Some(today), None)
    // Less than a day since the last visit: nothing changes, nothing is said.
    ensures lastVisit.Some? && today - lastVisit.value < 1 ==> o == StatsOutcome(lastVisit, None)
    // Otherwise today is recorded, and a message goes out exactly when some
    // data point in the window has a click or a download.
    ensures lastVisit.Some? && today - lastVisit.value >= 1 ==>
      o.lastVisit == Some(today) &&
      (o.message.Some? <==>
        exists i :: 0 <= i < |points| && InWindow(points[i], lastVisit.value, today) && HasActivity(points[i]))
    // The message reports the window's sums.
    ensures o.message.Some? ==> lastVisit.Some? && o.message.value == WindowActivity(points, lastVisit.value, today)
    // The recorded visit never moves backwards.
    ensures o.lastVisit.Some? && (lastVisit.Some? ==> lastVisit.value <= o.lastVisit.value)
  {
    match lastVisit
    case None => StatsOutcome(Some(today), None)
    case Some(last) =>
      if today - last < 1 then StatsOutcome(lastVisit, None)
      else
        var activity := WindowActivity(points, last, today);
        StatsOutcome(Some(today), if activity != Activity(0, 0) then Some(activity) else None)
  }

  /** The profile a request's user has, if any. */
  function ProfileOf(user: RequestUser): Option<UserProfile> {
    if user.Authenticated? then user.profile else None
  }

  function Footprint(user: RequestUser): set<object> {
    if ProfileOf(user).Some? then {ProfileOf(user).value} else {}
  }

  /** `StatsSinceLastVisitMiddleware.process_request`: always lets the request
      through (returns None); updates the profile's last visit and returns the
      message to show, if any. `points` are the data points of the user's
      links and `today` is the current day. */
  method ProcessStatsRequest(user: RequestUser, today: Day, points: seq<DataPoint>)
    returns (response: Option<Response>, message: Option<Activity>)
    modifies Footprint(user)
    ensures response == None
    ensures ProfileOf(user).None? ==> message == None
    ensures ProfileOf(user).Some? ==>
      var o := StatsSinceLastVisit(old(ProfileOf(user).value.lastVisit), today, points);
      ProfileOf(user).value.lastVisit == o.lastVisit && message == o.message
  {
    response, message := None, None;
    if !user.Authenticated? || user.profile.None? {
      return;
    }
    var profile := user.profile.value;
    var o := StatsSinceLastVisit(profile.lastVisit, today, points);
    profile.lastVisit := o.lastVisit;
    message := o.message;
  }

  /** Splitting a window at any day in between splits its sums: the two parts
      count every data point of the whole window exactly once. */
  lemma {:induction false} WindowSplit(points: seq<DataPoint>, first: Day, middle: Day, last: Day)
    requires first <= middle <= last
    ensures WindowClicks(points, first, last) == WindowClicks(points, first, middle) + WindowClicks(points, middle, last)
    ensures WindowDownloads(points, first, last) == WindowDownloads(points, first, middle) + WindowDownloads(points, middle, last)
  {
    if points != [] {
      WindowSplit(points[1..], first, middle, last);
    }
  }

  /** The counts a visit's message reports, 0 when no message is sent. */
  function Reported(o: StatsOutcome): Activity {
    if o.message.Some? then o.message.value else Activity(0, 0)
  }

  /** Two reporting visits in a row report, between them, exactly the activity
      since the visit before the first: nothing is lost and nothing is counted
      twice. The data points are taken to be the same at both visits; a point
      recorded after the first visit but dated on or before it is never
      reported. */
  lemma {:induction false} ConsecutiveVisitsReportEverything(points: seq<DataPoint>, last: Day, day1: Day, day2: Day)
    requires last < day1 < day2
    ensures var o1 := StatsSinceLastVisit(Some(last), day1, points);
      var o2 := StatsSinceLastVisit(o1.lastVisit, day2, points);
      Reported(o1).clicks + Reported(o2).clicks == WindowClicks(points, last, day2) &&
      Reported(o1).downloads + Reported(o2).downloads == WindowDownloads(points, last, day2)
  {
    WindowSplit(points, last, day1, day2);
  }

  /** A second request on the same day changes nothing and says nothing. */
  lemma SameDayIsSilent(lastVisit: Option<Day>, today: Day, points: seq<DataPoint>, later: seq<DataPoint>)
    ensures var o := StatsSinceLastVisit(lastVisit, today, points);
      StatsSinceLastVisit(o.lastVisit, today, later) == StatsOutcome(o.lastVisit, None)
  {
  }

  /** The scenario of the middleware's test: last visit on day 1, today is day 3;
      the data point of day 1 is left out and those of days 2 and 3 add up to 5
      clicks and 9 downloads. */
  lemma ClicksAndDownloadsExample()
    ensures StatsSinceLastVisit(Some(1), 3, [DataPoint(1, 3, 9), DataPoint(2, 4, 7), DataPoint(3, 1, 2)])
         == StatsOutcome(Some(3), Some(Activity(5, 9)))
  {
  }

  // ---------------------------------------------------------------------------
  // Referral skip

  datatype Request = Request(pathInfo: string)

  /** A positional or keyword argument captured from the URL. */
  datatype Arg = IntArg(i: int) | StrArg(s: string)

  /** A view function called as `func(request, *args, **kwargs)`. */
  type View = (Request, seq<Arg>, map<string, Arg>) -> Response

  /** What `resolve` returns for a path that matches a route. */
  datatype ResolverMatch = ResolverMatch(viewName: string, func: View, args: seq<Arg>, kwargs: map<string, Arg>)

  /** `ReferralSkipMiddleware.process_request`. `resolve` returns None where
      Django's resolver raises Resolver404. */
  function ReferralSkip(request: Request, resolve: string -> Option<ResolverMatch>, viewNames: seq<string>): (r: Option<Response>)
    ensures r.Some? <==> resolve(request.pathInfo).Some? && resolve(request.pathInfo).value.viewName in viewNames
    ensures r.Some? ==>
      var m := resolve(request.pathInfo).value;
      r.value == m.func(request, m.args, m.kwargs)
  {
    match resolve(request.pathInfo)
    case None => None
    case Some(m) =>
      if m.viewName in viewNames then Some(m.func(request, m.args, m.kwargs)) else None
  }
}
