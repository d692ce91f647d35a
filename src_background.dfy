/**
 * The first background worker (src/background.js): no current-tab slot and
 * no tab activation listener; every completed page load is captured under
 * its own url.
 */
module SrcBackground {
  import opened Basics
  import opened Text
  import opened Types
  import opened ContextStore
  import opened TabProtocol
  import opened Worker

  const CaptureDelayMs: nat := 2000

  /**
   * `onUpdated`: a completed load of any tab whose url is set and does not
   * start with chrome:// is asked after two seconds; an answer is stored
   * under its own url, so the current-tab slot is never written by the
   * capture of a real page. Nothing is ever deleted or broadcast.
   */
  function Updated(tabId: int, change: TabChange, tab: Tab, reply: Reply): (r: Reaction)
    ensures !(change.complete && tab.url != "" && !StartsWith(tab.url, "chrome://")) ==> r == Reaction(Keep, [])
    ensures r.update.Upsert? <==>
              change.complete && tab.url != "" && !StartsWith(tab.url, "chrome://") && reply.Answered?
    ensures r.update.Upsert? ==> r.update == Upsert(reply.page.url, reply.page)
    ensures !r.update.Drop?
    ensures CountIf(r.effects, IsBroadcast) == 0 && CountIf(r.effects, IsInjection) == 0
  {
    if change.complete && tab.url != "" && !StartsWith(tab.url, "chrome://") then
      var wait := [Sleep(CaptureDelayMs)];
      var a := FetchOnce(tabId, reply);
      assert Filter(wait, IsBroadcast) == [] && Filter(wait, IsInjection) == [];
      assert Filter(a.effects, IsBroadcast) == [] by {
        assert a.effects == [RequestPageContent(tabId)];
      }
      CountAppend(wait, a.effects, IsBroadcast);
      CountAppend(wait, a.effects, IsInjection);
      Reaction(if a.result.Fetched? then Upsert(a.result.page.url, a.result.page) else Keep, wait + a.effects)
    else Reaction(Keep, [])
  }

  /**
   * Pages captured by this worker never fill the current-tab slot unless a
   * page's own url is literally "current_tab".
   */
  lemma CaptureLeavesCurrentTab(es: seq<Entry>, tabId: int, change: TabChange, tab: Tab, reply: Reply)
    requires reply.Answered? ==> reply.page.url != CurrentTabKey
    ensures Lookup(ApplyUpdate(es, Updated(tabId, change, tab, reply).update), CurrentTabKey)
         == Lookup(es, CurrentTabKey)
  {
    ApplyUpdateFrame(es, Updated(tabId, change, tab, reply).update, CurrentTabKey);
  }

  /** The `onUpdated` listener. */
  method OnUpdated(w: Worker, tabId: int, change: TabChange, tab: Tab, reply: Reply) returns (effects: seq<Effect>)
    requires w.Valid()
    modifies w.pageContexts
    ensures w.Valid()
    ensures var r := Updated(tabId, change, tab, reply);
            w.pageContexts.entries == ApplyUpdate(old(w.pageContexts.entries), r.update) && effects == r.effects
  {
    effects := [];
    if change.complete && tab.url != "" && !StartsWith(tab.url, "chrome://") {
      effects := [Sleep(CaptureDelayMs), RequestPageContent(tabId)];
      if reply.Answered? {
        w.pageContexts.Set(reply.page.url, reply.page);
      }
    }
  }
}
