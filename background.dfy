/** The background script's control state and its event handlers. Each handler runs to
    completion; the clock (`Date.now()`) is the `now` argument, every browser call, request
    and timer is an `Action` in the result, and each reply or timer expiry is a later call. */
module Background {
  import opened Urls
  import opened TabHistory
  import opened Effects
  import opened Intervention

  const SettleDelayMs := 2000
  const CaptureIntervalMs := 1000

  /** `{tabId, url, sessionId}`; the id is the clock reading when the session started. */
  datatype Session = Session(tabId: int, url: string, sessionId: int)

  /** The reply to POST /analyze_screenshot: a failed request or unreadable JSON, a falsy JSON
      value (numeric 0 included), or a truthy value and its `parseInt` (`None` for `NaN`). */
  datatype ScoreReply = ScoreFailed | FalsyScore | Score(parsed: Option<int>)

  /** The reply to POST /validate_reason: a failed request or unreadable JSON, or `String(data)`. */
  datatype VerdictReply = VerdictFailed | Verdict(text: string)

  /** The session `startSession(tabId, url)` leaves live. */
  function StartedSession(tabId: int, url: string, now: int): (session: Option<Session>)
  {
    if IsRestricted(url) then None else Some(Session(tabId, url, now))
  }

  function StartedActions(tabId: int, url: string): (actions: seq<Action>)
  {
    if IsRestricted(url) then [] else [ScheduleCapture(tabId, url, SettleDelayMs)]
  }

  class Monitor {
    var currentSession: Option<Session>
    var lastCaptureTime: int
    var isTracking: bool
    var currentGoal: string
    var tabHistory: History
    var overlayListeners: seq<Listener>
    /** The clock readings of every capture the throttle let through, oldest first. */
    ghost var captures: seq<int>

    ghost predicate Valid()
      reads this
    {
      WellFormed(tabHistory)
      && (currentSession.Some? ==> !IsRestricted(currentSession.value.url))
      && (forall i | 0 <= i < |captures| :: captures[i] <= lastCaptureTime)
      && (forall i, j | 0 <= i < j < |captures| :: captures[i] + CaptureIntervalMs <= captures[j])
    }

    constructor ()
      ensures Valid()
      ensures currentSession == None && lastCaptureTime == 0 && !isTracking && currentGoal == ""
      ensures tabHistory == map[] && overlayListeners == [] && captures == []
    {
      currentSession := None;
      lastCaptureTime := 0;
      isTracking := false;
      currentGoal := "";
      tabHistory := map[];
      overlayListeners := [];
      captures := [];
    }

    predicate IsLive(sessionId: int)
      reads this
    {
      currentSession.Some? && currentSession.value.sessionId == sessionId
    }

    /** Message `startTracking`: replies `{success: true, goal}`. */
    method StartTracking(goal: string) returns (replyGoal: string)
      requires Valid()
      modifies this`isTracking, this`currentGoal
      ensures Valid()
      ensures isTracking && currentGoal == goal && replyGoal == goal
    {
      isTracking := true;
      currentGoal := goal;
      replyGoal := currentGoal;
    }

    /** Message `stopTracking`: the goal is kept. */
    method StopTracking()
      requires Valid()
      modifies this`isTracking, this`currentSession
      ensures Valid()
      ensures !isTracking && currentSession == None
    {
      isTracking := false;
      EndSession();
    }

    /** Message `getTrackingState`. */
    method GetTrackingState() returns (tracking: bool, goal: string)
      ensures tracking == isTracking && goal == currentGoal
    {
      tracking, goal := isTracking, currentGoal;
    }

    method EndSession()
      requires Valid()
      modifies this`currentSession
      ensures Valid()
      ensures currentSession == None
    {
      if currentSession.Some? {
        currentSession := None;
      }
    }

    method UpdateTabHistory(tabId: int, url: string)
      requires Valid()
      modifies this`tabHistory
      ensures Valid()
      ensures tabHistory == Updated(old(tabHistory), tabId, url)
    {
      UpdatedKeepsWellFormed(tabHistory, tabId, url);
      if IsRestricted(url) {
        return;
      }
      var list := Entries(tabHistory, tabId);
      if tabId !in tabHistory {
        tabHistory := tabHistory[tabId := []];
      }
      if |list| == 0 || list[|list| - 1] != url {
        tabHistory := tabHistory[tabId := list + [url]];
      }
    }

    /** Ends any live session, then starts one on `url` unless it is restricted and arms
        the settle-delay capture timer for it. */
    method StartSession(tabId: int, url: string, now: int) returns (actions: seq<Action>)
      requires Valid()
      modifies this`currentSession
      ensures Valid()
      ensures currentSession == StartedSession(tabId, url, now)
      ensures actions == StartedActions(tabId, url)
    {
      EndSession();
      if IsRestricted(url) {
        return [];
      }
      currentSession := Some(Session(tabId, url, now));
      actions := [ScheduleCapture(tabId, url, SettleDelayMs)];
    }

    /** Record the page, restart the session and send the focus animation. */
    method Visit(tabId: int, url: string, now: int) returns (actions: seq<Action>)
      requires Valid()
      modifies this`tabHistory, this`currentSession
      ensures Valid()
      ensures tabHistory == Updated(old(tabHistory), tabId, url)
      ensures currentSession == StartedSession(tabId, url, now)
      ensures actions == StartedActions(tabId, url) + [FlyFocus(tabId)]
    {
      UpdateTabHistory(tabId, url);
      actions := StartSession(tabId, url, now);
      actions := actions + [FlyFocus(tabId)];
    }

    /** `tabs.onUpdated`: acts only while tracking, on status "complete" and a non-empty URL. */
    method OnUpdated(tabId: int, complete: bool, url: string, now: int) returns (actions: seq<Action>)
      requires Valid()
      modifies this`tabHistory, this`currentSession
      ensures Valid()
      ensures isTracking && complete && url != "" ==>
                tabHistory == Updated(old(tabHistory), tabId, url)
                && currentSession == StartedSession(tabId, url, now)
                && actions == StartedActions(tabId, url) + [FlyFocus(tabId)]
      ensures !(isTracking && complete && url != "") ==>
                tabHistory == old(tabHistory) && currentSession == old(currentSession) && actions == []
    {
      actions := [];
      if isTracking && complete && url != "" {
        actions := Visit(tabId, url, now);
      }
    }

    /** `tabs.onCreated`: a tab without a URL counts as "about:blank". */
    method OnCreated(tabId: int, url: string, now: int) returns (actions: seq<Action>)
      requires Valid()
      modifies this`tabHistory, this`currentSession
      ensures Valid()
      ensures var u := if url == "" then "about:blank" else url;
              isTracking ==>
                tabHistory == Updated(old(tabHistory), tabId, u)
                && currentSession == StartedSession(tabId, u, now)
                && actions == StartedActions(tabId, u) + [FlyFocus(tabId)]
      ensures !isTracking ==>
                tabHistory == old(tabHistory) && currentSession == old(currentSession) && actions == []
    {
      actions := [];
      if isTracking {
        actions := Visit(tabId, if url == "" then "about:blank" else url, now);
      }
    }

    /** `tabs.onActivated`: while tracking, asks for the tab; the rest happens in OnTabFetched. */
    method OnActivated(tabId: int) returns (actions: seq<Action>)
      ensures isTracking ==> actions == [GetTab(tabId)]
      ensures !isTracking ==> actions == []
    {
      actions := if isTracking then [GetTab(tabId)] else [];
    }

    /** The `tabs.get` callback of `tabs.onActivated`; it does not look at `isTracking` again. */
    method OnTabFetched(tabId: int, url: string, now: int) returns (actions: seq<Action>)
      requires Valid()
      modifies this`tabHistory, this`currentSession
      ensures Valid()
      ensures tabHistory == Updated(old(tabHistory), tabId, url)
      ensures currentSession == StartedSession(tabId, url, now)
      ensures actions == StartedActions(tabId, url) + [FlyFocus(tabId)]
    {
      actions := Visit(tabId, url, now);
    }

    /** The settle-delay timer armed by StartSession for (`tabId`, `url`). It only checks that
        the live session is on the same tab, and passes that session's id. */
    method FireScheduledCapture(tabId: int, url: string, now: int) returns (actions: seq<Action>)
      requires Valid()
      modifies this`lastCaptureTime, this`captures
      ensures Valid()
      ensures var proceeds := currentSession.Some? && currentSession.value.tabId == tabId
                              && now - old(lastCaptureTime) >= CaptureIntervalMs;
              (proceeds ==> lastCaptureTime == now && captures == old(captures) + [now]
                            && actions == [CaptureVisibleTab(url, currentSession.value.sessionId)])
              && (!proceeds ==> lastCaptureTime == old(lastCaptureTime) && captures == old(captures)
                                && actions == [])
    {
      actions := [];
      if currentSession.Some? && currentSession.value.tabId == tabId {
        actions := TakeScreenshot(url, currentSession.value.sessionId, now);
      }
    }

    /** `takeScreenshot`: the global throttle. */
    method TakeScreenshot(url: string, sessionId: int, now: int) returns (actions: seq<Action>)
      requires Valid()
      modifies this`lastCaptureTime, this`captures
      ensures Valid()
      ensures now - old(lastCaptureTime) >= CaptureIntervalMs ==>
                lastCaptureTime == now && captures == old(captures) + [now]
                && actions == [CaptureVisibleTab(url, sessionId)]
      ensures now - old(lastCaptureTime) < CaptureIntervalMs ==>
                lastCaptureTime == old(lastCaptureTime) && captures == old(captures) && actions == []
    {
      if now - lastCaptureTime < CaptureIntervalMs {
        return [];
      }
      lastCaptureTime := now;
      captures := captures + [now];
      actions := [CaptureVisibleTab(url, sessionId)];
    }

    /** The `captureVisibleTab` callback: `None` is a capture error. The goal sent is the one
        current when the image arrives. */
    method OnCaptured(sessionId: int, dataUrl: Option<string>) returns (actions: seq<Action>)
      ensures dataUrl.Some? && IsLive(sessionId) ==>
                actions == [PostAnalyze(dataUrl.value, currentGoal, sessionId)]
      ensures !(dataUrl.Some? && IsLive(sessionId)) ==> actions == []
    {
      actions := [];
      if dataUrl.Some? {
        actions := AnalyzeScreenshot(dataUrl.value, currentGoal, sessionId);
      }
    }

    /** `analyzeScreenshotWithOpenAI`, up to sending the request: dropped when the session
        it was captured for is no longer live. */
    method AnalyzeScreenshot(screenshot: string, goal: string, sessionId: int) returns (actions: seq<Action>)
      ensures IsLive(sessionId) ==> actions == [PostAnalyze(screenshot, goal, sessionId)]
      ensures !IsLive(sessionId) ==> actions == []
    {
      if !IsLive(sessionId) {
        return [];
      }
      actions := [PostAnalyze(screenshot, goal, sessionId)];
    }

    /** The reply to PostAnalyze(`screenshot`, `goal`, `sessionId`). A score is acted on only
        while that session is live, and then on the live session's tab. */
    method OnScore(screenshot: string, goal: string, sessionId: int, reply: ScoreReply)
      returns (actions: seq<Action>)
      requires Valid()
      modifies this`overlayListeners
      ensures Valid()
      ensures !(reply.Score? && IsLive(sessionId)) ==>
                actions == [] && overlayListeners == old(overlayListeners)
      ensures reply.Score? && IsLive(sessionId) ==>
                var tab := currentSession.value.tabId;
                match ScoreTier(reply.parsed)
                case Escalate =>
                  actions == OffTaskActions(tabHistory, tab) && overlayListeners == old(overlayListeners)
                case Negotiate =>
                  actions == [InjectBlurOverlay(tab)]
                  && overlayListeners == old(overlayListeners) + [Listener(tab, goal, screenshot)]
                case Clear =>
                  actions == [RemoveThoughtBubble(tab)] && overlayListeners == old(overlayListeners)
    {
      actions := [];
      match reply
      case ScoreFailed =>
      case FalsyScore =>
      case Score(parsed) =>
        if !IsLive(sessionId) {
          return;
        }
        var tab := currentSession.value.tabId;
        match ScoreTier(parsed)
        case Escalate =>
          actions := HandleOffTask(tab);
        case Negotiate =>
          actions := ShowBlurOverlay(tab, goal, screenshot);
        case Clear =>
          actions := [RemoveThoughtBubble(tab)];
    }

    /** `handleOffTask`. */
    method HandleOffTask(tabId: int) returns (actions: seq<Action>)
      ensures actions == OffTaskActions(tabHistory, tabId)
    {
      var list := Entries(tabHistory, tabId);
      if |list| > 1 {
        actions := [InjectGif(tabId), NavigateAfterDelay(tabId, list[|list| - 2], EscalationDelayMs)];
      } else {
        actions := [InjectGif(tabId), CloseAfterDelay(tabId, EscalationDelayMs)];
      }
    }

    /** `showBlurOverlay`: injects the overlay and registers one more listener for the tab;
        earlier listeners for the same tab stay registered. */
    method ShowBlurOverlay(tabId: int, goal: string, screenshot: string) returns (actions: seq<Action>)
      modifies this`overlayListeners
      ensures actions == [InjectBlurOverlay(tabId)]
      ensures overlayListeners == old(overlayListeners) + [Listener(tabId, goal, screenshot)]
    {
      actions := [InjectBlurOverlay(tabId)];
      overlayListeners := overlayListeners + [Listener(tabId, goal, screenshot)];
    }

    /** Message `overlayResponse` from tab `senderTab`: every listener registered for that tab
        removes itself and sends its own validation request, in registration order. */
    method OnOverlayResponse(senderTab: int, response: string) returns (actions: seq<Action>)
      modifies this`overlayListeners
      ensures var fired := Matching(old(overlayListeners), senderTab);
              |actions| == |fired|
              && (forall i | 0 <= i < |fired| ::
                    actions[i] == PostValidate(senderTab, fired[i].screenshot, fired[i].goal, response))
      ensures overlayListeners == Others(old(overlayListeners), senderTab)
      ensures multiset(overlayListeners) + multiset(Matching(old(overlayListeners), senderTab))
              == multiset(old(overlayListeners))
    {
      var fired := Matching(overlayListeners, senderTab);
      ListenersPartitioned(overlayListeners, senderTab);
      actions := seq(|fired|, i requires 0 <= i < |fired| =>
                       PostValidate(fired[i].tabId, fired[i].screenshot, fired[i].goal, response));
      overlayListeners := Others(overlayListeners, senderTab);
    }

    /** The reply to PostValidate for `tabId`. PASS removes the overlay and then sends the bubble
        removal to the live session's tab; with no live session that step throws, and the
        `.catch` escalates just as for a failed reply or a failed request. */
    method OnValidation(tabId: int, reply: VerdictReply) returns (actions: seq<Action>)
      ensures !(reply.Verdict? && IsPass(reply.text)) ==> actions == OffTaskActions(tabHistory, tabId)
      ensures reply.Verdict? && IsPass(reply.text) && currentSession.Some? ==>
                actions == [RemoveBlurOverlay(tabId), RemoveThoughtBubble(currentSession.value.tabId)]
      ensures reply.Verdict? && IsPass(reply.text) && currentSession.None? ==>
                actions == [RemoveBlurOverlay(tabId)] + OffTaskActions(tabHistory, tabId)
    {
      if reply.Verdict? && IsPass(reply.text) {
        actions := [RemoveBlurOverlay(tabId)];
        if currentSession.Some? {
          actions := actions + [RemoveThoughtBubble(currentSession.value.tabId)];
        } else {
          var escalation := HandleOffTask(tabId);
          actions := actions + escalation;
        }
      } else {
        actions := HandleOffTask(tabId);
      }
    }
  }
}
