/** Runs of the background script's handlers that show how they interact across events.
    Each run starts from a fresh monitor on which the user set a goal and then loaded one page. */
module Scenarios {
  import opened Urls
  import opened TabHistory
  import opened Effects
  import opened Intervention
  import opened Background

  const Goal := "finish the essay"
  const Shot := "data:image/png;base64,AAAA"
  const PageA := "https://a.example/"
  const PageB := "https://b.example/"
  const PageC := "https://c.example/"

  /** The pages used below are distinct ordinary web pages. */
  lemma PagesAreWatched()
    ensures !IsRestricted(PageA) && !IsRestricted(PageB) && !IsRestricted(PageC)
    ensures PageA != PageB && PageB != PageC && PageA != PageC
  {
    // The ninth character tells the pages apart; a first character 'h' rules out both
    // restricted prefixes, "chrome://" and "about:".
    assert PageA[8] == 'a' && PageB[8] == 'b' && PageC[8] == 'c';
    assert PageA[..9][0] == PageB[..9][0] == PageC[..9][0] == 'h';
    assert PageA[..6][0] == PageB[..6][0] == PageC[..6][0] == 'h';
  }

  /** `startTracking(Goal)`, then a completed load of `url` in tab `tabId` at time `now`. */
  method TrackingOnePage(tabId: int, url: string, now: int) returns (m: Monitor)
    requires !IsRestricted(url)
    ensures fresh(m) && m.Valid()
    ensures m.isTracking && m.currentGoal == Goal
    ensures m.currentSession == Some(Session(tabId, url, now))
    ensures m.tabHistory == map[tabId := [url]]
    ensures m.lastCaptureTime == 0 && m.overlayListeners == []
  {
    assert Entries(map[], tabId) + [url] == [url];
    assert Updated(map[], tabId, url) == map[][tabId := [url]];
    m := new Monitor();
    var _ := m.StartTracking(Goal);
    var _ := m.OnUpdated(tabId, true, url, now);
  }

  /** A load of B 500 ms after A's session began. A's timer then captures, with the URL it
      was armed for and B's session id; B's timer, 500 ms after that capture, is throttled. */
  method ThrottleDropsSecondCapture() returns (first: seq<Action>, second: seq<Action>)
    ensures first == [CaptureVisibleTab(PageA, 10500)]
    ensures second == []
  {
    PagesAreWatched();
    var m := TrackingOnePage(1, PageA, 10000);
    var _ := m.OnUpdated(1, true, PageB, 10500);
    first := m.FireScheduledCapture(1, PageA, 12000);
    second := m.FireScheduledCapture(1, PageB, 12500);
  }

  /** A timer armed for a session that a reload of the same tab replaced still captures,
      with the old URL and the new session's id. */
  method TimerSurvivesSameTabReload() returns (actions: seq<Action>)
    ensures actions == [CaptureVisibleTab(PageA, 1500)]
  {
    PagesAreWatched();
    var m := TrackingOnePage(1, PageA, 1000);
    var _ := m.OnUpdated(1, true, PageB, 1500);
    actions := m.FireScheduledCapture(1, PageA, 3000);
  }

  /** A timer whose tab no longer holds the live session does nothing. */
  method TimerDroppedAfterTabSwitch() returns (actions: seq<Action>)
    ensures actions == []
  {
    PagesAreWatched();
    var m := TrackingOnePage(1, PageA, 1000);
    var _ := m.OnTabFetched(2, PageC, 1200);
    actions := m.FireScheduledCapture(1, PageA, 3000);
  }

  /** A screenshot is sent for analysis, then the user switches tabs before the score comes
      back: the score, for a session that is no longer live, is dropped. */
  method StaleScoreIsDropped() returns (analysis: seq<Action>, actions: seq<Action>)
    ensures analysis == [PostAnalyze(Shot, Goal, 1000)]
    ensures actions == []
  {
    PagesAreWatched();
    var m := TrackingOnePage(1, PageA, 1000);
    var _ := m.FireScheduledCapture(1, PageA, 3000);
    analysis := m.OnCaptured(1000, Some(Shot));
    var _ := m.OnTabFetched(2, PageB, 3500);
    actions := m.OnScore(Shot, Goal, 1000, Score(Some(95)));
  }

  /** A load of a new watched page in a tab with a single recorded list. */
  lemma LoadAppends(tabId: int, list: seq<string>, url: string)
    requires !IsRestricted(url) && list != [] && list[|list| - 1] != url
    ensures Updated(map[tabId := list], tabId, url) == map[tabId := list + [url]]
  {
    assert Entries(map[tabId := list], tabId) == list;
  }

  lemma LoadsOfBThenC()
    ensures Updated(map[4 := [PageA]], 4, PageB) == map[4 := [PageA, PageB]]
    ensures Updated(map[4 := [PageA, PageB]], 4, PageC) == map[4 := [PageA, PageB, PageC]]
  {
    PagesAreWatched();
    LoadAppends(4, [PageA], PageB);
    assert [PageA] + [PageB] == [PageA, PageB];
    LoadAppends(4, [PageA, PageB], PageC);
    assert [PageA, PageB] + [PageC] == [PageA, PageB, PageC];
  }

  /** Loads of A, B and C in tab 4, one second apart. */
  method TrackingThreePages() returns (m: Monitor)
    ensures fresh(m) && m.Valid()
    ensures m.currentSession == Some(Session(4, PageC, 3000))
    ensures m.tabHistory == map[4 := [PageA, PageB, PageC]]
  {
    PagesAreWatched();
    LoadsOfBThenC();
    m := TrackingOnePage(4, PageA, 1000);
    var _ := m.OnUpdated(4, true, PageB, 2000);
    var _ := m.OnUpdated(4, true, PageC, 3000);
  }

  /** History [A, B, C] on a tab and a confident off-task score: back to B. */
  method ConfidentScoreGoesBack() returns (actions: seq<Action>)
    ensures actions == [InjectGif(4), NavigateAfterDelay(4, PageB, 2000)]
  {
    assert OffTaskActions(map[4 := [PageA, PageB, PageC]], 4) == [InjectGif(4), NavigateAfterDelay(4, PageB, 2000)];
    var m := TrackingThreePages();
    actions := m.OnScore(Shot, Goal, 3000, Score(Some(71)));
  }

  /** One round on tab 1 showing PageA in session `sessionId`: the timer fires at `at`, the
      screenshot goes out for analysis and comes back with a middling `score`, which blurs
      the page and registers a listener for the user's justification. */
  method NegotiationRound(m: Monitor, sessionId: int, at: int, score: int) returns (actions: seq<Action>)
    requires m.Valid() && m.currentGoal == Goal
    requires m.currentSession == Some(Session(1, PageA, sessionId))
    requires m.lastCaptureTime + CaptureIntervalMs <= at
    requires NegotiateFrom <= score <= EscalateAbove
    modifies m`lastCaptureTime, m`captures, m`overlayListeners
    ensures m.Valid()
    ensures m.lastCaptureTime == at
    ensures m.overlayListeners == old(m.overlayListeners) + [Listener(1, Goal, Shot)]
    ensures actions == [InjectBlurOverlay(1)]
  {
    var _ := m.FireScheduledCapture(1, PageA, at);
    var analysis := m.OnCaptured(sessionId, Some(Shot));
    assert analysis == [PostAnalyze(Shot, Goal, sessionId)];
    actions := m.OnScore(Shot, Goal, sessionId, Score(Some(score)));
  }

  lemma TwoListenersFire()
    ensures Updated(map[1 := [PageA]], 1, PageA) == map[1 := [PageA]]
    ensures var pending := Listener(1, Goal, Shot);
            Matching([] + [pending] + [pending], 1) == [pending, pending]
  {
    assert Entries(map[1 := [PageA]], 1) == [PageA];
    var pending := Listener(1, Goal, Shot);
    assert [] + [pending] + [pending] == [pending, pending];
    assert [pending, pending][1..] == [pending] && [pending][1..] == [];
    assert Matching([pending], 1) == [pending];
  }

  /** A middling score, a reload of the same page, and a middling score for the new session:
      the first listener was never removed, so one justification sends two validation
      requests. */
  method OverlayListenersStack() returns (actions: seq<Action>)
    ensures |actions| == 2
    ensures actions[0] == actions[1] == PostValidate(1, Shot, Goal, "reading docs")
  {
    PagesAreWatched();
    TwoListenersFire();
    var m := TrackingOnePage(1, PageA, 1000);
    var _ := NegotiationRound(m, 1000, 3000, 30);
    var _ := m.OnUpdated(1, true, PageA, 5000);
    var _ := NegotiationRound(m, 5000, 7000, 70);
    actions := m.OnOverlayResponse(1, "reading docs");
  }

  lemma ClosingOnAcceptedPass()
    ensures IsPass("Pass")
    ensures OffTaskActions(map[5 := [PageA]], 5) == [InjectGif(5), CloseAfterDelay(5, 2000)]
  {
    PassIgnoringCase("Pass");
    assert Entries(map[5 := [PageA]], 5) == [PageA];
  }

  /** A justification accepted after tracking stopped still escalates: the tab has only the
      page it is judged on, so it is closed. */
  method PassAfterStopEscalates() returns (actions: seq<Action>)
    ensures actions == [RemoveBlurOverlay(5), InjectGif(5), CloseAfterDelay(5, 2000)]
  {
    PagesAreWatched();
    ClosingOnAcceptedPass();
    var m := TrackingOnePage(5, PageA, 1000);
    var _ := m.OnScore(Shot, Goal, 1000, Score(Some(50)));
    m.StopTracking();
    actions := m.OnValidation(5, Verdict("Pass"));
  }

  /** A tab switch answered after tracking stopped still starts a session. */
  method ActivationAnsweredAfterStop() returns (tracking: bool, live: bool)
    ensures !tracking && live
  {
    PagesAreWatched();
    var m := new Monitor();
    var _ := m.StartTracking(Goal);
    var _ := m.OnActivated(3);
    m.StopTracking();
    var _ := m.OnTabFetched(3, PageA, 4000);
    tracking := m.isTracking;
    live := m.currentSession.Some?;
  }
}
