/**
 * The tab listeners of the current background worker (public/background.js):
 * the active tab's snapshot is kept in the "current_tab" slot and pushed to
 * the side panel with CONTEXT_UPDATED. Each extraction falls back to
 * injecting the content script once and asking once more.
 */
module PublicBackground {
  import opened Basics
  import opened Types
  import opened ContextStore
  import opened TabProtocol
  import opened Worker

  /** Wait before asking an activated tab, and after an injection. */
  const ActivationDelayMs: nat := 1000
  const InjectSettleMs: nat := 1000
  /** Wait before asking a tab that finished loading, and after an injection. */
  const NavigationDelayMs: nat := 2000
  const NavigationSettleMs: nat := 1500

  /** The extraction attempt with fallback ended with a snapshot. */
  predicate Extracts(first: Reply, inj: Injection, retry: Reply) {
    first.Answered? || (first.LastError? && inj.Injected? && retry.Answered?)
  }

  /** The snapshot an extraction that `Extracts` ends with. */
  function Extracted(first: Reply, retry: Reply): PageSnapshot
    requires first.Answered? || retry.Answered?
  {
    if first.Answered? then first.page else retry.page
  }

  /**
   * `onActivated`. `tab` is None when `chrome.tabs.get` rejects (the error is
   * caught and nothing happens). A web page is asked after a second; a
   * snapshot fills the current-tab slot and is broadcast; a failed injection
   * or retry broadcasts null; a first ask that ends silently does nothing.
   * Any other page empties the current-tab slot and broadcasts null.
   */
  function Activated(tab: Option<Tab>, first: Reply, inj: Injection, retry: Reply): (r: Reaction)
    ensures tab.None? ==> r == Reaction(Keep, [])
    ensures tab.Some? && !IsWebUrl(tab.value.url) ==> r == Reaction(Drop(CurrentTabKey), [BroadcastContext(None)])
    ensures r.update.Drop? ==> tab.Some? && !IsWebUrl(tab.value.url)
    ensures r.update.Upsert? <==> tab.Some? && IsWebUrl(tab.value.url) && Extracts(first, inj, retry)
    ensures r.update.Upsert? ==>
              && r.update == Upsert(CurrentTabKey, Extracted(first, retry))
              && EndsWith(r.effects, BroadcastContext(Some(r.update.page)))
    ensures tab.Some? && IsWebUrl(tab.value.url) && first.LastError? && !r.update.Upsert? ==>
              r.update.Keep? && EndsWith(r.effects, BroadcastContext(None))
    ensures tab.Some? && IsWebUrl(tab.value.url) && first.NoAnswer? ==>
              r.update.Keep? && CountIf(r.effects, IsBroadcast) == 0
  {
    match tab
    case None => Reaction(Keep, [])
    case Some(t) =>
      if !IsWebUrl(t.url) then Reaction(Drop(CurrentTabKey), [BroadcastContext(None)])
      else
        var a := FetchWithFallback(t.id, first, inj, retry, InjectSettleMs);
        var effects := [Sleep(ActivationDelayMs)] + a.effects;
        match a.result
        case Fetched(p) => Reaction(Upsert(CurrentTabKey, p), effects + [BroadcastContext(Some(p))])
        case Silent =>
          FetchWithFallbackBounds(t.id, first, inj, retry, InjectSettleMs);
          assert Filter([Sleep(ActivationDelayMs)], IsBroadcast) == [];
          CountAppend([Sleep(ActivationDelayMs)], a.effects, IsBroadcast);
          Reaction(Keep, effects)
        case Failed => Reaction(Keep, effects + [BroadcastContext(None)])
  }

  /**
   * An activation injects the content script at most once, asks the tab at
   * most twice and broadcasts at most once.
   */
  lemma ActivationBounds(tab: Option<Tab>, first: Reply, inj: Injection, retry: Reply)
    ensures var r := Activated(tab, first, inj, retry);
            CountIf(r.effects, IsInjection) <= 1 && CountIf(r.effects, IsRequest) <= 2
            && CountIf(r.effects, IsBroadcast) <= 1
  {
    var r := Activated(tab, first, inj, retry);
    if tab.Some? {
      var t := tab.value;
      if IsWebUrl(t.url) {
        var a := FetchWithFallback(t.id, first, inj, retry, InjectSettleMs);
        var wait := [Sleep(ActivationDelayMs)];
        FetchWithFallbackBounds(t.id, first, inj, retry, InjectSettleMs);
        CountsOne(Sleep(ActivationDelayMs));
        CountsAppend(wait, a.effects);
        if !a.result.Silent? {
          var b := BroadcastContext(if a.result.Fetched? then Some(a.result.page) else None);
          assert r.effects == wait + a.effects + [b];
          CountsOne(b);
          CountsAppend(wait + a.effects, [b]);
        }
      } else {
        CountsOne(BroadcastContext(None));
      }
    }
  }

  /**
   * Switching to a page that is not a web page removes the current-tab slot
   * and nothing else.
   */
  lemma NonWebActivationDropsOnlyCurrentTab(es: seq<Entry>, t: Tab, first: Reply, inj: Injection, retry: Reply)
    requires !IsWebUrl(t.url)
    ensures var after := ApplyUpdate(es, Activated(Some(t), first, inj, retry).update);
            Lookup(after, CurrentTabKey) == None
            && forall k :: k != CurrentTabKey ==> Lookup(after, k) == Lookup(es, k)
  {
    var u := Activated(Some(t), first, inj, retry).update;
    ApplyUpdateFrame(es, u, CurrentTabKey);
    forall k | k != CurrentTabKey
      ensures Lookup(ApplyUpdate(es, u), k) == Lookup(es, k)
    {
      ApplyUpdateFrame(es, u, k);
    }
  }

  /**
   * `onUpdated`. Only a completed load of the active tab counts. A web page
   * is asked after two seconds with the same fallback (settling 1.5 s after
   * an injection); anything but a snapshot, a silent first ask included,
   * broadcasts null. A browser page (chrome://, chrome-extension://,
   * edge://, about:) empties the current-tab slot and broadcasts null. Any
   * other url changes nothing.
   */
  function Updated(tabId: int, change: TabChange, tab: Tab, activeId: Option<int>,
                   first: Reply, inj: Injection, retry: Reply): (r: Reaction)
    ensures !change.complete || !IsActive(activeId, tabId) ==> r == Reaction(Keep, [])
    ensures !IsWebUrl(tab.url) && !IsBrowserPageUrl(tab.url) ==> r == Reaction(Keep, [])
    ensures change.complete && IsActive(activeId, tabId) && IsBrowserPageUrl(tab.url) ==>
              r == Reaction(Drop(CurrentTabKey), [BroadcastContext(None)])
    ensures r.update.Upsert? <==>
              change.complete && IsActive(activeId, tabId) && IsWebUrl(tab.url) && Extracts(first, inj, retry)
    ensures r.update.Upsert? ==>
              && r.update == Upsert(CurrentTabKey, Extracted(first, retry))
              && EndsWith(r.effects, BroadcastContext(Some(r.update.page)))
    ensures change.complete && IsActive(activeId, tabId) && IsWebUrl(tab.url) && !r.update.Upsert? ==>
              r.update.Keep? && EndsWith(r.effects, BroadcastContext(None))
  {
    WebAndBrowserPagesDisjoint(tab.url);
    if !change.complete || tab.url == "" || !IsActive(activeId, tabId) then Reaction(Keep, [])
    else if IsWebUrl(tab.url) then
      var a := FetchWithFallback(tabId, first, inj, retry, NavigationSettleMs);
      var effects := [Sleep(NavigationDelayMs)] + a.effects;
      if a.result.Fetched? then
        Reaction(Upsert(CurrentTabKey, a.result.page), effects + [BroadcastContext(Some(a.result.page))])
      else Reaction(Keep, effects + [BroadcastContext(None)])
    else if IsBrowserPageUrl(tab.url) then Reaction(Drop(CurrentTabKey), [BroadcastContext(None)])
    else Reaction(Keep, [])
  }

  /**
   * "Add Page to LLM Context": the snapshot, if one is extracted, is upserted
   * under its own url; nothing is broadcast.
   */
  function AddPage(tab: Tab, first: Reply, inj: Injection, retry: Reply): (r: Reaction)
    ensures r.update.Upsert? <==> Extracts(first, inj, retry)
    ensures r.update.Upsert? ==> r.update.page == Extracted(first, retry) && r.update.key == r.update.page.url
    ensures !r.update.Drop?
    ensures CountIf(r.effects, IsBroadcast) == 0 && CountIf(r.effects, IsInjection) <= 1
  {
    var a := FetchWithFallback(tab.id, first, inj, retry, InjectSettleMs);
    FetchWithFallbackBounds(tab.id, first, inj, retry, InjectSettleMs);
    Reaction(if a.result.Fetched? then Upsert(a.result.page.url, a.result.page) else Keep, a.effects)
  }

  datatype ContentReply = ContentReply(reply: Option<PageSnapshot>, effects: seq<Effect>)

  /**
   * GET_CURRENT_TAB_CONTENT: null unless the active tab is a web page;
   * otherwise the extracted snapshot, or null, after at most one injection
   * and one retry. The Map is not touched.
   */
  function CurrentTabContent(active: Option<Tab>, first: Reply, inj: Injection, retry: Reply): (r: ContentReply)
    ensures active.None? || !IsWebUrl(active.value.url) ==> r == ContentReply(None, [])
    ensures r.reply.Some? <==> active.Some? && IsWebUrl(active.value.url) && Extracts(first, inj, retry)
    ensures r.reply.Some? ==> r.reply.value == Extracted(first, retry)
    ensures CountIf(r.effects, IsInjection) <= 1 && CountIf(r.effects, IsRequest) <= 2
  {
    if active.Some? && IsWebUrl(active.value.url) then
      var a := FetchWithFallback(active.value.id, first, inj, retry, InjectSettleMs);
      FetchWithFallbackBounds(active.value.id, first, inj, retry, InjectSettleMs);
      ContentReply(if a.result.Fetched? then Some(a.result.page) else None, a.effects)
    else ContentReply(None, [])
  }

  /** The `onActivated` listener. */
  method OnActivated(w: Worker, tab: Option<Tab>, first: Reply, inj: Injection, retry: Reply)
      returns (effects: seq<Effect>)
    requires w.Valid()
    modifies w.pageContexts
    ensures w.Valid()
    ensures var r := Activated(tab, first, inj, retry);
            w.pageContexts.entries == ApplyUpdate(old(w.pageContexts.entries), r.update) && effects == r.effects
  {
    effects := [];
    if tab.None? {
      return;
    }
    var t := tab.value;
    if t.url != "" && IsWebUrl(t.url) {
      effects := [Sleep(ActivationDelayMs), RequestPageContent(t.id)];
      var got: Option<PageSnapshot> := None;
      if first.LastError? {
        effects := effects + [InjectContentScript(t.id)];
        if inj.Injected? {
          effects := effects + [Sleep(InjectSettleMs), RequestPageContent(t.id)];
          if retry.Answered? {
            got := Some(retry.page);
          }
        }
      } else if first.Answered? {
        got := Some(first.page);
      }
      ghost var a := FetchWithFallback(t.id, first, inj, retry, InjectSettleMs);
      assert effects == [Sleep(ActivationDelayMs)] + a.effects;
      assert got.Some? <==> a.result.Fetched?;
      if got.Some? {
        assert got.value == a.result.page;
        w.pageContexts.Set(CurrentTabKey, got.value);
      }
      if !first.NoAnswer? {
        effects := effects + [BroadcastContext(got)];
      }
    } else {
      w.pageContexts.Delete(CurrentTabKey);
      effects := [BroadcastContext(None)];
    }
  }

  /** The `onUpdated` listener. */
  method OnUpdated(w: Worker, tabId: int, change: TabChange, tab: Tab, activeId: Option<int>,
                   first: Reply, inj: Injection, retry: Reply) returns (effects: seq<Effect>)
    requires w.Valid()
    modifies w.pageContexts
    ensures w.Valid()
    ensures var r := Updated(tabId, change, tab, activeId, first, inj, retry);
            w.pageContexts.entries == ApplyUpdate(old(w.pageContexts.entries), r.update) && effects == r.effects
  {
    effects := [];
    if change.complete && tab.url != "" && IsWebUrl(tab.url) {
      if activeId.Some? && activeId.value == tabId {
        effects := [Sleep(NavigationDelayMs), RequestPageContent(tabId)];
        var got: Option<PageSnapshot> := None;
        if first.LastError? {
          effects := effects + [InjectContentScript(tabId)];
          if inj.Injected? {
            effects := effects + [Sleep(NavigationSettleMs), RequestPageContent(tabId)];
            if retry.Answered? {
              got := Some(retry.page);
            }
          }
        } else if first.Answered? {
          got := Some(first.page);
        }
        ghost var a := FetchWithFallback(tabId, first, inj, retry, NavigationSettleMs);
        assert effects == [Sleep(NavigationDelayMs)] + a.effects;
        assert got.Some? <==> a.result.Fetched?;
        if got.Some? {
          assert got.value == a.result.page;
          w.pageContexts.Set(CurrentTabKey, got.value);
        }
        effects := effects + [BroadcastContext(got)];
      }
    } else if change.complete && tab.url != "" && IsBrowserPageUrl(tab.url) {
      if activeId.Some? && activeId.value == tabId {
        w.pageContexts.Delete(CurrentTabKey);
        effects := [BroadcastContext(None)];
      }
    }
  }

  /** The "add-page-to-context" menu item. */
  method OnAddPage(w: Worker, tab: Tab, first: Reply, inj: Injection, retry: Reply) returns (effects: seq<Effect>)
    requires w.Valid()
    modifies w.pageContexts
    ensures w.Valid()
    ensures var r := AddPage(tab, first, inj, retry);
            w.pageContexts.entries == ApplyUpdate(old(w.pageContexts.entries), r.update) && effects == r.effects
  {
    effects := [RequestPageContent(tab.id)];
    if first.LastError? {
      effects := effects + [InjectContentScript(tab.id)];
      if inj.Injected? {
        effects := effects + [Sleep(InjectSettleMs), RequestPageContent(tab.id)];
        if retry.Answered? {
          w.pageContexts.Set(retry.page.url, retry.page);
        }
      }
    } else if first.Answered? {
      w.pageContexts.Set(first.page.url, first.page);
    }
  }
}
