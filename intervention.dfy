/** The pure decisions of the intervention path: which tier a score falls in, where an
    escalation sends the tab, whether a validation reply passes, and which pending overlay
    listeners a justification reaches. */
module Intervention {
  import opened Urls
  import opened TabHistory
  import opened Effects

  const EscalateAbove := 70
  const NegotiateFrom := 30
  const EscalationDelayMs := 2000

  datatype Tier = Escalate | Negotiate | Clear

  /** The branch taken on a parsed off-task score; `None` is a `NaN` parse, for which
      both comparisons are false. */
  function ScoreTier(score: Option<int>): (t: Tier)
    ensures t == Escalate <==> score.Some? && score.value > 70
    ensures t == Negotiate <==> score.Some? && 30 <= score.value <= 70
    ensures t == Clear <==> score.None? || score.value < 30
  {
    match score
    case None => Clear
    case Some(s) => if s > EscalateAbove then Escalate else if s >= NegotiateFrom then Negotiate else Clear
  }

  datatype Target = Back(url: string) | Close

  /** Where an escalation sends a tab with recorded list `entries`. */
  function EscalationTarget(entries: seq<string>): (r: Target)
    ensures r.Back? <==> |entries| >= 2
    ensures r.Back? ==> r.url == entries[|entries| - 2]
  {
    if |entries| > 1 then Back(entries[|entries| - 2]) else Close
  }

  /** `handleOffTask(tabId)`: show the GIF now, then after the delay either go back one
      page or close the tab. The history is only read. */
  function OffTaskActions(h: History, tabId: int): (acts: seq<Action>)
    ensures |acts| == 2 && acts[0] == InjectGif(tabId)
    ensures acts[1].NavigateAfterDelay? || acts[1].CloseAfterDelay?
    ensures acts[1].tabId == tabId && acts[1].delayMs == EscalationDelayMs
    ensures acts[1].NavigateAfterDelay? <==> |Entries(h, tabId)| >= 2
    ensures acts[1].NavigateAfterDelay? ==> acts[1].url == Entries(h, tabId)[|Entries(h, tabId)| - 2]
  {
    var next := match EscalationTarget(Entries(h, tabId))
      case Back(url) => NavigateAfterDelay(tabId, url, EscalationDelayMs)
      case Close => CloseAfterDelay(tabId, EscalationDelayMs);
    [InjectGif(tabId), next]
  }

  /** On a well-formed history an escalation never reloads the offending page and never
      navigates to a restricted URL. */
  lemma EscalationLeavesCurrentPage(h: History, tabId: int)
    requires WellFormed(h)
    ensures var e := Entries(h, tabId);
            EscalationTarget(e).Back? ==>
              EscalationTarget(e).url != e[|e| - 1] && !IsRestricted(EscalationTarget(e).url)
  {
  }

  /** Visiting `prev` and then a different page `cur` in a tab makes an escalation on that
      tab go back to `prev`, whatever the tab had recorded before. */
  lemma BackToPreviousVisit(h: History, tabId: int, prev: string, cur: string)
    requires !IsRestricted(prev) && !IsRestricted(cur) && prev != cur
    ensures EscalationTarget(Entries(Replay(h, tabId, [prev, cur]), tabId)) == Back(prev)
  {
  }

  /** A tab whose first recorded page is the offending one (a single visible visit) is closed. */
  lemma SingleVisitCloses(h: History, tabId: int, urls: seq<string>)
    requires Entries(h, tabId) == []
    requires |Visible(urls)| == 1
    ensures EscalationTarget(Entries(Replay(h, tabId, urls), tabId)) == Close
  {
    ReplayIsCollapsedVisits(h, tabId, urls);
  }

  function UpperAscii(c: char): char
  {
    if 'a' <= c <= 'z' then (c as int - 32) as char else c
  }

  function Upper(s: string): (r: string)
  {
    seq(|s|, i requires 0 <= i < |s| => UpperAscii(s[i]))
  }

  /** `String(data).toUpperCase() == "PASS"`. */
  predicate IsPass(reply: string)
  {
    Upper(reply) == "PASS"
  }

  lemma PassIgnoringCase(reply: string)
    ensures IsPass(reply) <==>
              |reply| == 4 && reply[0] in "pP" && reply[1] in "aA" && reply[2] in "sS" && reply[3] in "sS"
  {
    assert |Upper(reply)| == |reply|;
    assert forall i | 0 <= i < |reply| :: Upper(reply)[i] == UpperAscii(reply[i]);
  }

  /** A pending `handleOverlayResponse` listener: the tab it answers for and the goal and
      screenshot it closed over. */
  datatype Listener = Listener(tabId: int, goal: string, screenshot: string)

  /** The listeners a justification from `tabId` reaches, in registration order. */
  function Matching(ls: seq<Listener>, tabId: int): (r: seq<Listener>)
    ensures forall l | l in r :: l in ls && l.tabId == tabId
    ensures forall l | l in ls && l.tabId == tabId :: l in r
  {
    if ls == [] then []
    else (if ls[0].tabId == tabId then [ls[0]] else []) + Matching(ls[1..], tabId)
  }

  /** The listeners left registered once those reached by `tabId` removed themselves. */
  function Others(ls: seq<Listener>, tabId: int): (r: seq<Listener>)
    ensures forall l | l in r :: l in ls && l.tabId != tabId
    ensures forall l | l in ls && l.tabId != tabId :: l in r
  {
    if ls == [] then []
    else (if ls[0].tabId != tabId then [ls[0]] else []) + Others(ls[1..], tabId)
  }

  lemma ConcatAssociates(a: seq<Listener>, b: seq<Listener>, c: seq<Listener>)
    ensures a + (b + c) == (a + b) + c
  {
  }

  /** Listeners fire in the order they were registered: filtering a later registration
      appends after filtering the earlier ones, for both the fired and the remaining ones. */
  lemma {:induction false} FiringFollowsRegistration(earlier: seq<Listener>, later: seq<Listener>, tabId: int)
    ensures Matching(earlier + later, tabId) == Matching(earlier, tabId) + Matching(later, tabId)
    ensures Others(earlier + later, tabId) == Others(earlier, tabId) + Others(later, tabId)
  {
    if earlier == [] {
      assert earlier + later == later;
    } else {
      var all, head, tail := earlier + later, earlier[0], earlier[1..];
      assert all[0] == head && all[1..] == tail + later;
      FiringFollowsRegistration(tail, later, tabId);
      var m := if head.tabId == tabId then [head] else [];
      var o := if head.tabId != tabId then [head] else [];
      var mt, ml := Matching(tail, tabId), Matching(later, tabId);
      var ot, ol := Others(tail, tabId), Others(later, tabId);
      assert Matching(all, tabId) == m + (mt + ml);
      assert Matching(earlier, tabId) == m + mt;
      ConcatAssociates(m, mt, ml);
      assert Others(all, tabId) == o + (ot + ol);
      assert Others(earlier, tabId) == o + ot;
      ConcatAssociates(o, ot, ol);
    }
  }

  /** Every pending listener either fires or stays: none is lost and none is duplicated. */
  lemma {:induction false} ListenersPartitioned(ls: seq<Listener>, tabId: int)
    ensures multiset(Matching(ls, tabId)) + multiset(Others(ls, tabId)) == multiset(ls)
  {
    if ls != [] {
      ListenersPartitioned(ls[1..], tabId);
      assert ls == [ls[0]] + ls[1..];
    }
  }
}
