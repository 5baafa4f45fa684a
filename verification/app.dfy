/** The application shell: the auth-state callback with its once-per-day
    reminder, the hand-over of a freshly generated briefing, and the
    choice of which screen to show. The wall clock, the store lookup and
    the identity provider are parameters; `localStorage` is a field. */
module App {
  import opened Wrappers
  import opened Types
  import opened JsStrings

  datatype View = DashboardView | ChatView

  /** What `renderView` shows. */
  datatype Screen = Spinner | InputScreen | ChatScreen | DashboardScreen(data: DashboardData)

  predicate IsDigit(c: char) {
    '0' <= c <= '9'
  }

  predicate DigitsIn(s: string, lo: nat, hi: nat)
    requires lo <= hi <= |s|
  {
    forall i :: lo <= i < hi ==> IsDigit(s[i])
  }

  /** `YYYY-MM-DD`: the complete calendar date of ISO 8601:2004 section
      4.1.2.2, extended format, with a four-digit year. */
  predicate IsCalendarDate(d: string) {
    && |d| == 10
    && DigitsIn(d, 0, 4) && d[4] == '-' && DigitsIn(d, 5, 7) && d[7] == '-' && DigitsIn(d, 8, 10)
  }

  /** What `Date.prototype.toISOString` yields for a year from 0 to 9999:
      `YYYY-MM-DDTHH:mm:ss.sssZ`, in UTC. */
  predicate IsIsoTimestamp(s: string) {
    && |s| == 24
    && IsCalendarDate(s[..10]) && s[10] == 'T'
    && DigitsIn(s, 11, 13) && s[13] == ':' && DigitsIn(s, 14, 16) && s[16] == ':'
    && DigitsIn(s, 17, 19) && s[19] == '.' && DigitsIn(s, 20, 23) && s[23] == 'Z'
  }

  /** `now.toISOString().split('T')[0]`: the day key. */
  function DayKey(iso: string): (key: string)
    ensures StartsWith(iso, key)
    ensures !Contains(key, "T")
    ensures key != iso ==> iso[|key|] == 'T'
  {
    SplitHead(iso, "T");
    var key := Split(iso, "T")[0];
    assert key != iso ==> OccursAt(iso, "T", |key|) && iso[|key|..|key| + 1] == [iso[|key|]];
    key
  }

  /** For a timestamp in `toISOString` form the day key is its leading
      calendar date, so two instants share a key exactly when they fall on
      the same UTC day. */
  lemma DayKeyOfTimestamp(iso: string)
    requires IsIsoTimestamp(iso)
    ensures DayKey(iso) == iso[..10]
    ensures IsCalendarDate(DayKey(iso))
  {
    assert OccursAt(iso, "T", 10) by {
      assert iso[10..11] == [iso[10]];
    }
    forall j: nat | j < 10 ensures !OccursAt(iso, "T", j) {
      assert iso[j] == iso[..10][j];
      assert iso[j..j + 1] == [iso[j]];
    }
    assert IndexOf(iso, "T") == Some(10);
    SplitHead(iso, "T");
  }

  /** The reminder is due when no briefing exists for today and the last
      reminder was not shown today (an absent record counts as another
      day). */
  predicate ReminderDue(data: Option<DashboardData>, lastReminderDate: Option<string>, today: string) {
    data.None? && lastReminderDate != Some(today)
  }

  class AppState {
    var currentView: View
    var user: Option<User>
    var dashboardData: Option<DashboardData>
    var isAuthLoading: bool
    var showReminder: bool
    /** `localStorage.getItem('lastReminderDate')`. */
    var lastReminderDate: Option<string>

    constructor (storedReminderDate: Option<string>)
      ensures currentView == DashboardView && user == None && dashboardData == None
      ensures isAuthLoading && !showReminder && lastReminderDate == storedReminderDate
    {
      currentView, user, dashboardData := DashboardView, None, None;
      isAuthLoading, showReminder := true, false;
      lastReminderDate := storedReminderDate;
    }

    /** The `onAuthStateChanged` callback. `fetched` is what the store
        returned for the signed-in user today (`None` for no document or a
        failed read); `nowIso` is `new Date().toISOString()`. Signing out
        clears the briefing; with a user, a missing briefing triggers the
        reminder at most once per day; every call ends the loading
        state. */
    method OnAuthStateChanged(currentUser: Option<User>, fetched: Option<DashboardData>, nowIso: string)
      modifies this
      ensures user == currentUser && !isAuthLoading && currentView == old(currentView)
      ensures currentUser.None? ==>
        dashboardData == None && showReminder == old(showReminder) && lastReminderDate == old(lastReminderDate)
      ensures currentUser.Some? ==> dashboardData == fetched
      ensures currentUser.Some? && ReminderDue(fetched, old(lastReminderDate), DayKey(nowIso)) ==>
        showReminder && lastReminderDate == Some(DayKey(nowIso))
      ensures currentUser.Some? && !ReminderDue(fetched, old(lastReminderDate), DayKey(nowIso)) ==>
        showReminder == old(showReminder) && lastReminderDate == old(lastReminderDate)
    {
      user := currentUser;
      if currentUser.Some? {
        dashboardData := fetched;
        if fetched.None? {
          var today := DayKey(nowIso);
          if lastReminderDate != Some(today) {
            showReminder := true;
            lastReminderDate := Some(today);
          }
        }
      } else {
        dashboardData := None;
      }
      isAuthLoading := false;
    }

    /** `handleDataGenerated`: the new briefing replaces the old one. */
    method HandleDataGenerated(data: DashboardData)
      modifies this`dashboardData
      ensures dashboardData == Some(data)
    {
      dashboardData := Some(data);
    }

    /** The sidebar's `setCurrentView`. */
    method SetCurrentView(view: View)
      modifies this`currentView
      ensures currentView == view
    {
      currentView := view;
    }

    /** The reminder's close handler. */
    method CloseReminder()
      modifies this`showReminder
      ensures !showReminder
    {
      showReminder := false;
    }

    /** `renderView`, in priority order: the spinner while the auth state
        is loading; the input screen when nobody is signed in; the chat for
        the chat view; otherwise the dashboard when a briefing exists and
        the input screen when none does. */
    function RenderView(): (s: Screen)
      reads this
      ensures s == Spinner <==> isAuthLoading
      ensures s == InputScreen <==>
        !isAuthLoading && (user.None? || (currentView == DashboardView && dashboardData.None?))
      ensures s == ChatScreen <==> !isAuthLoading && user.Some? && currentView == ChatView
      ensures s.DashboardScreen? <==>
        !isAuthLoading && user.Some? && currentView == DashboardView && dashboardData.Some?
      ensures s.DashboardScreen? ==> dashboardData == Some(s.data)
    {
      if isAuthLoading then Spinner
      else if user.None? then InputScreen
      else match currentView
        case DashboardView => if dashboardData.Some? then DashboardScreen(dashboardData.value) else InputScreen
        case ChatView => ChatScreen
    }
  }

  /** Two sign-ins on the same UTC day, with the reminder closed in
      between, on a freshly mounted app whose stored reminder date is
      `storedDate`: the first shows the reminder exactly when it is due,
      the two never both show it, and once it has been shown the stored
      date is that day. */
  method SameDaySignIns(storedDate: Option<string>, user1: User, fetched1: Option<DashboardData>, iso1: string,
                        user2: User, fetched2: Option<DashboardData>, iso2: string)
    returns (firstShown: bool, secondShown: bool, storedAfter: Option<string>)
    requires DayKey(iso1) == DayKey(iso2)
    ensures firstShown <==> ReminderDue(fetched1, storedDate, DayKey(iso1))
    ensures !(firstShown && secondShown)
    ensures firstShown || secondShown ==> storedAfter == Some(DayKey(iso1))
    ensures !firstShown && !secondShown ==> storedAfter == storedDate
  {
    var app := new AppState(storedDate);
    app.OnAuthStateChanged(Some(user1), fetched1, iso1);
    firstShown := app.showReminder;
    app.CloseReminder();
    app.OnAuthStateChanged(Some(user2), fetched2, iso2);
    secondShown := app.showReminder;
    storedAfter := app.lastReminderDate;
  }
}
