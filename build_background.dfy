/**
 * The tab listeners of the packaged background worker (build/background.js):
 * the same current-tab slot and CONTEXT_UPDATED broadcast as the current
 * worker, but with one ask per event and no injection of the content script.
 */
module BuildBackground {
  import opened Basics
  import opened Text
  import opened Types
  import opened ContextStore
  import opened TabProtocol
  import opened Worker

  const ActivationDelayMs: nat := 500
  const NavigationDelayMs: nat := 1000

  /**
   * `onActivated`: a web page is asked after half a second; lastError or a
   * silent answer changes nothing and broadcasts nothing; an answer fills the
   * current-tab slot and is broadcast. Any other page empties the slot and
   * broadcasts null.
   */
  function Activated(tab: Option<Tab>, reply: Reply): (r: Reaction)
    ensures tab.None? ==> r == Reaction(Keep, [])
    ensures tab.Some? && !IsWebUrl(tab.value.url) ==> r == Reaction(Drop(CurrentTabKey), [BroadcastContext(None)])
    ensures r.update.Upsert? <==> tab.Some? && IsWebUrl(tab.value.url) && reply.Answered?
    ensures r.update.Upsert? ==>
              && r.update == Upsert(CurrentTabKey, reply.page)
              && EndsWith(r.effects, BroadcastContext(Some(reply.page)))
    ensures !reply.Answered? && tab.Some? && IsWebUrl(tab.value.url) ==>
              r.update.Keep? && CountIf(r.effects, IsBroadcast) == 0
    ensures CountIf(r.effects, IsInjection) == 0
  {
    match tab
    case None => Reaction(Keep, [])
    case Some(t) =>
      if !IsWebUrl(t.url) then
        assert Filter([BroadcastContext(None)], IsInjection) == [];
        Reaction(Drop(CurrentTabKey), [BroadcastContext(None)])
      else
        var asked := [Sleep(ActivationDelayMs), RequestPageContent(t.id)];
        assert Filter(asked, IsInjection) == [] && Filter(asked, IsBroadcast) == [];
        if reply.Answered? then
          var told := [BroadcastContext(Some(reply.page))];
          assert Filter(told, IsInjection) == [];
          CountAppend(asked, told, IsInjection);
          Reaction(Upsert(CurrentTabKey, reply.page), asked + told)
        else Reaction(Keep, asked)
  }

  /**
   * `onUpdated`: only a completed load that reports a new url, of a web
   * page, in the active tab, is asked (after a second); only an answer
   * changes the Map and broadcasts. Browser pages are not handled.
   */
  function Updated(tabId: int, change: TabChange, tab: Tab, activeId: Option<int>, reply: Reply): (r: Reaction)
    ensures !(change.complete && Present(change.url) && IsWebUrl(tab.url) && IsActive(activeId, tabId)) ==>
              r == Reaction(Keep, [])
    ensures r.update.Upsert? <==>
              change.complete && Present(change.url) && IsWebUrl(tab.url) && IsActive(activeId, tabId) && reply.Answered?
    ensures r.update.Upsert? ==>
              && r.update == Upsert(CurrentTabKey, reply.page)
              && EndsWith(r.effects, BroadcastContext(Some(reply.page)))
    ensures !r.update.Drop? && (!r.update.Upsert? ==> CountIf(r.effects, IsBroadcast) == 0)
  {
    if change.complete && Present(change.url) && IsWebUrl(tab.url) && IsActive(activeId, tabId) then
      var asked := [Sleep(NavigationDelayMs), RequestPageContent(tabId)];
      assert Filter(asked, IsBroadcast) == [];
      if reply.Answered? then
        Reaction(Upsert(CurrentTabKey, reply.page), asked + [BroadcastContext(Some(reply.page))])
      else Reaction(Keep, asked)
    else Reaction(Keep, [])
  }

  /** "Add Page to LLM Context": one ask; an answer is upserted under its own url. */
  function AddPage(tab: Tab, reply: Reply): (r: Reaction)
    ensures r.update.Upsert? <==> reply.Answered?
    ensures r.update.Upsert? ==> r.update == Upsert(reply.page.url, reply.page)
    ensures !r.update.Drop?
    ensures CountIf(r.effects, IsRequest) == 1 && CountIf(r.effects, IsInjection) == 0
  {
    var a := FetchOnce(tab.id, reply);
    Reaction(if a.result.Fetched? then Upsert(a.result.page.url, a.result.page) else Keep, a.effects)
  }

  datatype ContentReply = ContentReply(reply: Option<PageSnapshot>, effects: seq<Effect>)

  /**
   * GET_CURRENT_TAB_CONTENT: whatever the active tab's url, its content
   * script is asked once; the answer is returned iff it arrived without
   * lastError, and null otherwise.
   */
  function CurrentTabContent(active: Option<Tab>, reply: Reply): (r: ContentReply)
    ensures active.None? ==> r == ContentReply(None, [])
    ensures r.reply.Some? <==> active.Some? && reply.Answered?
    ensures r.reply.Some? ==> r.reply.value == reply.page
    ensures CountIf(r.effects, IsInjection) == 0
  {
    if active.Some? then
      var a := FetchOnce(active.value.id, reply);
      ContentReply(if a.result.Fetched? then Some(a.result.page) else None, a.effects)
    else ContentReply(None, [])
  }

  /** The `onActivated` listener. */
  method OnActivated(w: Worker, tab: Option<Tab>, reply: Reply) returns (effects: seq<Effect>)
    requires w.Valid()
    modifies w.pageContexts
    ensures w.Valid()
    ensures var r := Activated(tab, reply);
            w.pageContexts.entries == ApplyUpdate(old(w.pageContexts.entries), r.update) && effects == r.effects
  {
    effects := [];
    if tab.None? {
      return;
    }
    var t := tab.value;
    if t.url != "" && IsWebUrl(t.url) {
      effects := [Sleep(ActivationDelayMs), RequestPageContent(t.id)];
      if reply.LastError? {
        return;
      }
      if reply.Answered? {
        w.pageContexts.Set(CurrentTabKey, reply.page);
        effects := effects + [BroadcastContext(Some(reply.page))];
      }
    } else {
      w.pageContexts.Delete(CurrentTabKey);
      effects := [BroadcastContext(None)];
    }
  }

  /** The `onUpdated` listener. */
  method OnUpdated(w: Worker, tabId: int, change: TabChange, tab: Tab, activeId: Option<int>, reply: Reply)
      returns (effects: seq<Effect>)
    requires w.Valid()
    modifies w.pageContexts
    ensures w.Valid()
    ensures var r := Updated(tabId, change, tab, activeId, reply);
            w.pageContexts.entries == ApplyUpdate(old(w.pageContexts.entries), r.update) && effects == r.effects
  {
    effects := [];
    if change.complete && change.url.Some? && change.url.value != "" && IsWebUrl(tab.url) {
      if activeId.Some? && activeId.value == tabId {
        effects := [Sleep(NavigationDelayMs), RequestPageContent(tabId)];
        if reply.Answered? {
          w.pageContexts.Set(CurrentTabKey, reply.page);
          effects := effects + [BroadcastContext(Some(reply.page))];
        }
      }
    }
  }

  /** The "add-page-to-context" menu item. */
  method OnAddPage(w: Worker, tab: Tab, reply: Reply) returns (effects: seq<Effect>)
    requires w.Valid()
    modifies w.pageContexts
    ensures w.Valid()
    ensures var r := AddPage(tab, reply);
            w.pageContexts.entries == ApplyUpdate(old(w.pageContexts.entries), r.update) && effects == r.effects
  {
    effects := [RequestPageContent(tab.id)];
    if reply.Answered? {
      w.pageContexts.Set(reply.page.url, reply.page);
    }
  }
}
