/** What the background script asks of the browser and of the scoring server. The model
    returns these requests instead of performing them; their replies come back as inputs. */
module Effects {

  datatype Option<T> = None | Some(value: T)

  datatype Action =
    | FlyFocus(tabId: int)                                   // tabs.sendMessage {action: "flyfocus"}
    | GetTab(tabId: int)                                     // tabs.get, answered by OnTabFetched
    | ScheduleCapture(tabId: int, url: string, delayMs: int) // setTimeout, answered by FireScheduledCapture
    | CaptureVisibleTab(url: string, sessionId: int)         // tabs.captureVisibleTab, answered by OnCaptured
    | PostAnalyze(screenshot: string, goal: string, sessionId: int)  // POST /analyze_screenshot, answered by OnScore
    | RemoveThoughtBubble(tabId: int)                        // tabs.sendMessage {action: "removeThoughtBubble"}
    | InjectGif(tabId: int)                                  // scripting.executeScript(injectGif)
    | NavigateAfterDelay(tabId: int, url: string, delayMs: int)      // setTimeout then tabs.update
    | CloseAfterDelay(tabId: int, delayMs: int)              // setTimeout then tabs.remove
    | InjectBlurOverlay(tabId: int)                          // scripting.executeScript(injectBlurOverlay)
    | PostValidate(tabId: int, screenshot: string, goal: string, reason: string)  // POST /validate_reason, answered by OnValidation
    | RemoveBlurOverlay(tabId: int)                          // scripting.executeScript(removeBlurOverlay)
}
