# Goal-tracking monitor: background control state

A Dafny model of the background script of a browser extension that watches the active tab
while the user pursues a stated goal. The script keeps five pieces of state: the one live
session (`{tabId, url, sessionId}`), the time of the last screenshot, whether tracking is
on, the goal text, and a per-tab list of visited URLs. Navigation, new-tab and tab-switch
events restart the session. A timer two seconds later takes a screenshot, subject to a
global one-second throttle. The screenshot goes to a scoring server. The score then
decides the action:

- above 70, escalate: go back one page in the tab's history, or close the tab;
- 30 to 70, cover the page with an overlay and ask the user for a justification, which a
  second request validates (PASS ends it; anything else escalates);
- below 30, or not a number, clear the thought bubble.

Structure:

- `urls.dfy` (`Urls`): which URLs are never recorded or watched (empty, `chrome://`, `about:`).
- `history.dfy` (`TabHistory`): the per-tab history as a pure map update, with a reference
  reading (visible URLs, consecutive repeats collapsed) proved equal to replaying visits.
- `effects.dfy` (`Effects`): the browser calls, HTTP requests and timers as `Action` values.
- `intervention.dfy` (`Intervention`): score tiers, the escalation target, the PASS test and
  the pending overlay listeners, as functions and lemmas.
- `background.dfy` (`Background`): class `Monitor` holds the five module-level variables,
  the registered overlay listeners, and a ghost log of the captures the throttle let through.
  It has one method per event handler. `Date.now()` is the `now` argument. Every outside
  effect is returned as an `Action`. Every reply or timer expiry is a later method call:
  `OnTabFetched`, `FireScheduledCapture`, `OnCaptured`, `OnScore`, `OnOverlayResponse`,
  `OnValidation`.
- `scenarios.dfy` (`Scenarios`): runs of the handlers from a fresh `Monitor` that show how
  they interact across events.

The model follows the code as written. Behaviour worth knowing:

- The settle-delay timer compares only the tab id with the live session. It then captures
  under the live session's id and the URL it was armed with. So a timer armed before a
  reload of the same tab still fires (`Scenarios.TimerSurvivesSameTabReload`).
- Each middling score adds one more overlay listener. A listener is removed only when it
  fires, and a new session does not remove it, so one justification can send several
  validation requests
  (`Scenarios.OverlayListenersStack`).
- `stopTracking` keeps the goal text. The `tabs.get` callback of a tab switch does not check
  `isTracking` again, so a switch answered after stop starts a session
  (`Scenarios.ActivationAnsweredAfterStop`).
- A session's id is the clock reading at which it started; two sessions started in the same
  millisecond get the same id. A session records only its tab, URL and id.
- A falsy score reply (numeric `0` among them) does nothing. A non-numeric truthy reply
  clears the bubble.
- On PASS the bubble removal goes to the live session's tab, not to the tab that was
  negotiated. With no live session that access throws, and the `.catch` escalates
  (`Scenarios.PassAfterStopEscalates`).

## Model

| member | source | states |
|---|---|---|
| TabHistory.Updated | background.js:83-95 | only the visited tab's list can change; it gains `url` exactly when the URL is non-empty, is neither `chrome://` nor `about:`, and differs from the tab's last entry |
| TabHistory.UpdatedKeepsWellFormed | background.js:83-95 | every recorded list stays non-empty, free of restricted URLs and free of immediate repeats |
| TabHistory.ReplayIsCollapsedVisits | background.js:83-95 | a fresh tab's list after any visits equals its non-restricted visited URLs with consecutive repeats collapsed |
| TabHistory.ReplayKeepsOtherTabs | background.js:83-95 | visits to one tab never change another tab's list |
| Intervention.ScoreTier | background.js:169-184 | exactly one tier applies: escalate iff score > 70, overlay iff 30 <= score <= 70, clear iff below 30 or not a number |
| Intervention.EscalationTarget | background.js:199-201 | go back iff the list has at least two entries, and then to the second-to-last one; otherwise close |
| Intervention.OffTaskActions | background.js:194-231 | the GIF is injected first, then after 2000 ms the tab is navigated to the previous entry (two or more entries) or closed |
| Intervention.EscalationLeavesCurrentPage | background.js:199-201 | on a well-formed history the back target is never the current (offending) page and never restricted |
| Intervention.BackToPreviousVisit | background.js:199-214 | after visiting A then a different B in a tab, escalation goes back to A |
| Intervention.SingleVisitCloses | background.js:215-229 | a tab whose only visible visit is the offending page is closed |
| Intervention.PassIgnoringCase | background.js:282 | a reply passes iff it is "pass" in any mix of letter case |
| Intervention.Matching | background.js:262-264 | the listeners one justification reaches are exactly the registered ones for the sender's tab |
| Intervention.Others | background.js:262-264 | the listeners left are exactly the registered ones for other tabs |
| Intervention.FiringFollowsRegistration | background.js:262-264 | listeners registered earlier fire earlier: the fired and the remaining listeners of a concatenation are those of each part, in order |
| Intervention.ListenersPartitioned | background.js:262-264 | fired and remaining listeners together are the registered ones, none lost or duplicated |
| Background.Monitor.constructor | background.js:3-7 | no session, last capture at 0, not tracking, empty goal, no history, no listeners |
| Background.Monitor.StartTracking | background.js:11-15 | tracking on and the goal overwritten; the reply carries the goal; session and history untouched |
| Background.Monitor.StopTracking | background.js:16-20 | tracking off and no live session; the goal is kept |
| Background.Monitor.GetTrackingState | background.js:21-22 | reports the tracking flag and the goal |
| Background.Monitor.EndSession | background.js:117-122 | afterwards no session is live, whether or not one was |
| Background.Monitor.UpdateTabHistory | background.js:83-95 | the history becomes `Updated` of the old one and stays well-formed |
| Background.Monitor.StartSession | background.js:98-114 | the prior session is always gone; a restricted URL leaves none, any other leaves `{tabId, url, now}` and arms a 2000 ms capture timer |
| Background.Monitor.Visit | background.js:30-40 | records the URL, restarts the session and sends the focus animation to the tab |
| Background.Monitor.OnUpdated | background.js:27-42 | acts only while tracking, on a complete load with a URL; otherwise nothing changes |
| Background.Monitor.OnCreated | background.js:45-60 | while tracking, a new tab is visited with its URL or "about:blank"; otherwise nothing changes |
| Background.Monitor.OnActivated | background.js:63-65 | while tracking asks for the tab, otherwise does nothing |
| Background.Monitor.OnTabFetched | background.js:65-78 | visits the switched-to tab without checking the tracking flag again |
| Background.Monitor.FireScheduledCapture | background.js:107-113 | captures only if the live session is on the timer's tab and the throttle allows, under that session's id; the throttle invariant holds |
| Background.Monitor.TakeScreenshot | background.js:125-141 | proceeds iff at least 1000 ms have passed since the last capture, and only then records the time; all captures are 1000 ms apart |
| Background.Monitor.OnCaptured | background.js:133-140 | a captured image is sent for scoring with the current goal iff its session is still live |
| Background.Monitor.AnalyzeScreenshot | background.js:146-161 | the scoring request is sent iff the session it was captured for is still live |
| Background.Monitor.OnScore | background.js:162-191 | a score acts only when its session is live, on that session's tab, per tier; otherwise nothing changes and nothing is emitted |
| Background.Monitor.HandleOffTask | background.js:194-231 | emits the escalation for the tab's current history without changing it |
| Background.Monitor.ShowBlurOverlay | background.js:252-264 | injects the overlay and adds one listener for the tab, keeping earlier ones |
| Background.Monitor.OnOverlayResponse | background.js:262-279 | every listener for the sender's tab removes itself and sends one validation request, in registration order; the rest stay |
| Background.Monitor.OnValidation | background.js:280-303 | PASS with a live session removes overlay and bubble; a failed reply and a failed request escalate identically; PASS with no session removes the overlay then escalates |
| Scenarios.ThrottleDropsSecondCapture | background.js:125-131 | after a load of B 500 ms into A's session, A's timer captures A under B's session id, and B's timer 500 ms after that capture is throttled |
| Scenarios.TimerSurvivesSameTabReload | background.js:107-113 | a timer armed before a same-tab reload still captures, with the old URL and the new session's id |
| Scenarios.TimerDroppedAfterTabSwitch | background.js:107-113 | a timer whose tab no longer holds the live session does nothing |
| Scenarios.StaleScoreIsDropped | background.js:133-167 | a screenshot sent for analysis whose session is replaced by a tab switch before the reply gets its score dropped |
| Scenarios.ConfidentScoreGoesBack | background.js:171-172 | history [A, B, C] and a score of 71 send the tab back to B |
| Scenarios.OverlayListenersStack | background.js:262-268 | a middling score, a reload of the same page and a middling score for the new session make one justification send two validation requests |
| Scenarios.PassAfterStopEscalates | background.js:282-303 | a justification accepted after tracking stopped removes the overlay and still closes the single-page tab |
| Scenarios.ActivationAnsweredAfterStop | background.js:63-68 | a tab switch answered after stop leaves a live session while tracking is off |

## Left out

- Page-side code (`injectGif`, `injectBlurOverlay`, `removeBlurOverlay`, background.js:234-249 and 309-373), content.js and popup.js: DOM work and animation, shown only as `Action` values.
- main.py: the HTTP server that forwards to the language model; its replies are method inputs (`ScoreReply`, `VerdictReply`).
- Chrome API delivery errors (`runtime.lastError` on `sendMessage`) and all logging: logged and ignored in the source, so they change nothing.
- Timing: `setTimeout` delays appear as fields of the actions they arm; when a timer fires is the caller's choice (`FireScheduledCapture`), and the delayed `tabs.update` / `tabs.remove` of an escalation are final actions without a later step.
- `captureVisibleTab` captures the window's visible tab, whatever tab the session is on; the model does not track which tab is visible.
- `parseInt` on arbitrary JSON: the caller supplies its result as `Option<int>` (`None` for `NaN`), and whether the value was falsy.
- Intervention.PassIgnoringCase: the reply is upper-cased on ASCII letters only; JavaScript's full Unicode mapping also turns a few non-ASCII replies (such as "paß") into "PASS".
- Exceptions inside promise handlers other than the PASS branch's access to the ended session: none of the other handler code can throw.
