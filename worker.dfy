/**
 * The background worker's state and the handlers whose code is the same in
 * all three versions of background.js: the `pageContexts` Map, the
 * `chatHistory` array, the store part of the `onMessage` switch, the start-up
 * capture of the active tab, and the two selection menu items.
 */
module Worker {
  import opened Basics
  import opened Text
  import opened Types
  import opened ContextStore
  import opened TabProtocol

  /** The messages of the store part of the `onMessage` switch. */
  datatype Request =
    | PageData(data: Option<PageSnapshot>)
    | GetStoredContexts
    | ClearContexts
    | SaveChatHistory(history: Option<seq<ChatMessage>>)
    | GetChatHistory
      /** A type the switch has no case for; the tab queries are not modelled. */
    | Unhandled(kind: string)

  /** What `sendResponse` is called with, if anything. */
  datatype Response =
    | NoResponse
    | StoredContexts(contexts: seq<PageSnapshot>)
    | Succeeded
    | ChatHistory(history: seq<ChatMessage>)

  datatype State = State(contexts: seq<Entry>, history: seq<ChatMessage>)

  datatype Handled = Handled(state: State, response: Response)

  /**
   * One message: PAGE_DATA upserts under the snapshot's url when data is
   * present; GET_STORED_CONTEXTS and GET_CHAT_HISTORY only read;
   * CLEAR_CONTEXTS empties the Map; SAVE_CHAT_HISTORY replaces the history
   * with the one sent, or `[]` when none is. Any other type, among them the
   * panel's CLEAR_CHAT_HISTORY, matches no case.
   */
  function Handle(s: State, req: Request): (h: Handled)
    ensures h.response.NoResponse? <==> req.PageData? || req.Unhandled?
    ensures req.PageData? && req.data.Some? ==>
              && h.state.contexts == Put(s.contexts, req.data.value.url, req.data.value)
              && Lookup(h.state.contexts, req.data.value.url) == Some(req.data.value)
    ensures req.PageData? && req.data.None? ==> h.state == s
    ensures !req.PageData? && !req.ClearContexts? ==> h.state.contexts == s.contexts
    ensures req.ClearContexts? ==> h.state.contexts == [] && h.response == Succeeded
    ensures !req.SaveChatHistory? ==> h.state.history == s.history
    ensures req.SaveChatHistory? ==> h.state.history == req.history.GetOr([])
    ensures req.GetStoredContexts? ==> h.response == StoredContexts(Values(s.contexts))
    ensures req.SaveChatHistory? ==> h.response == Succeeded
    ensures req.GetChatHistory? ==> h.response == ChatHistory(s.history)
  {
    match req
    case PageData(data) =>
      if data.Some? then
        PutLookup(s.contexts, data.value.url, data.value, data.value.url);
        Handled(s.(contexts := Put(s.contexts, data.value.url, data.value)), NoResponse)
      else Handled(s, NoResponse)
    case GetStoredContexts => Handled(s, StoredContexts(Values(s.contexts)))
    case ClearContexts => Handled(s.(contexts := []), Succeeded)
    case SaveChatHistory(history) => Handled(s.(history := history.GetOr([])), Succeeded)
    case GetChatHistory => Handled(s, ChatHistory(s.history))
    case Unhandled(_) => Handled(s, NoResponse)
  }

  /** A saved history is what the next GET_CHAT_HISTORY returns; a missing one reads back as []. */
  lemma SaveThenGetChatHistory(s: State, history: Option<seq<ChatMessage>>)
    ensures var saved := Handle(s, SaveChatHistory(history)).state;
            Handle(saved, GetChatHistory) == Handled(saved, ChatHistory(history.GetOr([])))
  {
  }

  /**
   * CLEAR_CONTEXTS empties the Map, the current-tab slot included, and
   * keeps the chat history.
   */
  lemma ClearContextsDropsCurrentTab(s: State)
    ensures var cleared := Handle(s, ClearContexts).state;
            Lookup(cleared.contexts, CurrentTabKey) == None && cleared.history == s.history
  {
  }

  /** The Map stays free of duplicate keys whatever message arrives. */
  lemma HandleKeysDistinct(s: State, req: Request)
    requires KeysDistinct(s.contexts)
    ensures KeysDistinct(Handle(s, req).state.contexts)
  {
    if req.PageData? && req.data.Some? {
      PutKeysDistinct(s.contexts, req.data.value.url, req.data.value);
    }
  }

  /**
   * The start-up capture, one second after installation: when the active tab
   * is a web page and its content script answers, its snapshot fills the
   * current-tab slot. Nothing is broadcast and nothing is injected.
   */
  function Installed(active: Option<Tab>, reply: Reply): (r: Reaction)
    ensures r.update.Upsert? <==> active.Some? && IsWebUrl(active.value.url) && reply.Answered?
    ensures r.update.Upsert? ==> r.update == Upsert(CurrentTabKey, reply.page)
    ensures !r.update.Drop?
    ensures CountIf(r.effects, IsBroadcast) == 0 && CountIf(r.effects, IsInjection) == 0
  {
    var wait := [Sleep(1000)];
    assert Filter(wait, IsBroadcast) == [] && Filter(wait, IsInjection) == [];
    if active.Some? && IsWebUrl(active.value.url) then
      var a := FetchOnce(active.value.id, reply);
      assert Filter(a.effects, IsBroadcast) == [] by {
        assert a.effects == [RequestPageContent(active.value.id)];
      }
      CountAppend(wait, a.effects, IsBroadcast);
      CountAppend(wait, a.effects, IsInjection);
      Reaction(if a.result.Fetched? then Upsert(CurrentTabKey, a.result.page) else Keep, wait + a.effects)
    else Reaction(Keep, wait)
  }

  /** The snapshot built for a selection added from the context menu. */
  function SelectionSnapshot(tab: Tab, text: string, nowMs: int): PageSnapshot {
    PageSnapshot(tab.url, "Selection from " + tab.title, text, None, nowMs)
  }

  /**
   * "Add Selection to LLM Context": a non-empty selection is inserted under
   * `selection_<ms>`, which is never the current-tab slot; the clock is read
   * once for the timestamp (`stampMs`) and once for the key (`keyMs`).
   */
  function AddSelection(tab: Tab, selection: Option<string>, stampMs: int, keyMs: nat): (u: Update)
    ensures u.Upsert? <==> Present(selection)
    ensures u.Upsert? ==> u.key == SelectionKey(keyMs)
    ensures u.Upsert? ==> StartsWith(u.key, "selection_") && u.key != CurrentTabKey
    ensures u.Upsert? ==> u.page.content == selection.value && u.page.url == tab.url
                          && u.page.title == "Selection from " + tab.title
                          && u.page.timestamp == stampMs
    ensures !u.Drop?
  {
    SelectionKeyNotCurrentTab(keyMs);
    if Present(selection) then Upsert(SelectionKey(keyMs), SelectionSnapshot(tab, selection.value, stampMs))
    else Keep
  }

  /**
   * A second selection made at another millisecond never overwrites the
   * first: the first one still reads back under its own key.
   */
  lemma SecondSelectionKeepsFirst(es: seq<Entry>, tab: Tab, first: string, second: Option<string>,
                                  stamp1: int, stamp2: int, key1: nat, key2: nat)
    requires first != "" && key1 != key2
    ensures var mid := ApplyUpdate(es, AddSelection(tab, Some(first), stamp1, key1));
            var after := ApplyUpdate(mid, AddSelection(tab, second, stamp2, key2));
            Lookup(after, SelectionKey(key1)) == Some(SelectionSnapshot(tab, first, stamp1))
  {
    var u1 := AddSelection(tab, Some(first), stamp1, key1);
    var mid := ApplyUpdate(es, u1);
    ApplyUpdateFrame(es, u1, SelectionKey(key1));
    SelectionKeyInjective(key1, key2);
    ApplyUpdateFrame(mid, AddSelection(tab, second, stamp2, key2), SelectionKey(key1));
  }

  /**
   * "Add to Journal": a non-empty selection is left in storage as a pending
   * quote carrying the tab's url and title, and the side panel is opened; an
   * empty one does nothing.
   */
  function AddSelectionToJournal(tab: Tab, selection: Option<string>, isoNow: string): (effects: seq<Effect>)
    ensures effects == [] <==> !Present(selection)
    ensures Present(selection) ==> |effects| == 2 && effects[1] == OpenSidePanel
    ensures Present(selection) ==>
              && effects[0].StorePendingJournalEntry?
              && effects[0].entry.kind == Quote && effects[0].entry.content == selection.value
              && effects[0].entry.sourceUrl == Some(tab.url) && effects[0].entry.sourceTitle == Some(tab.title)
              && effects[0].entry.timestamp == isoNow
  {
    if Present(selection) then
      [StorePendingJournalEntry(PendingJournalEntry(Quote, selection.value, Some(tab.url), Some(tab.title), isoNow)),
       OpenSidePanel]
    else []
  }

  /** The background worker's two pieces of state. */
  class Worker {
    const pageContexts: Store
    var chatHistory: seq<ChatMessage>

    ghost predicate Valid()
      reads this, pageContexts
    {
      pageContexts.Valid()
    }

    function Snapshot(): State
      reads this, pageContexts
    {
      State(pageContexts.entries, chatHistory)
    }

    constructor ()
      ensures Valid() && fresh(pageContexts)
      ensures pageContexts.entries == [] && chatHistory == []
    {
      pageContexts := new Store();
      chatHistory := [];
    }

    /** Carries out one change to the Map. */
    method Apply(u: Update)
      requires Valid()
      modifies pageContexts
      ensures Valid() && pageContexts.entries == ApplyUpdate(old(pageContexts.entries), u)
    {
      match u {
        case Keep =>
        case Upsert(k, p) => pageContexts.Set(k, p);
        case Drop(k) => pageContexts.Delete(k);
      }
    }

    /** The store part of the `onMessage` listener. */
    method OnMessage(req: Request) returns (response: Response)
      requires Valid()
      modifies this, pageContexts
      ensures Valid()
      ensures Handled(Snapshot(), response) == Handle(old(Snapshot()), req)
    {
      response := NoResponse;
      match req {
        case PageData(data) =>
          if data.Some? {
            pageContexts.Set(data.value.url, data.value);
          }
        case GetStoredContexts =>
          response := StoredContexts(Values(pageContexts.entries));
        case ClearContexts =>
          pageContexts.Clear();
          response := Succeeded;
        case SaveChatHistory(history) =>
          chatHistory := if history.Some? then history.value else [];
          response := Succeeded;
        case GetChatHistory =>
          response := ChatHistory(chatHistory);
        case Unhandled(_) =>
      }
    }

    /** The `onInstalled` start-up capture. */
    method OnInstalled(active: Option<Tab>, reply: Reply) returns (effects: seq<Effect>)
      requires Valid()
      modifies pageContexts
      ensures Valid()
      ensures var r := Installed(active, reply);
              pageContexts.entries == ApplyUpdate(old(pageContexts.entries), r.update) && effects == r.effects
    {
      effects := [Sleep(1000)];
      if active.Some? && active.value.url != "" && IsWebUrl(active.value.url) {
        effects := effects + [RequestPageContent(active.value.id)];
        if reply.Answered? {
          pageContexts.Set(CurrentTabKey, reply.page);
        }
      }
    }

    /** The "add-selection-to-context" menu item. */
    method OnAddSelection(tab: Tab, selection: Option<string>, stampMs: int, keyMs: nat)
      requires Valid()
      modifies pageContexts
      ensures Valid()
      ensures pageContexts.entries == ApplyUpdate(old(pageContexts.entries), AddSelection(tab, selection, stampMs, keyMs))
    {
      if selection.Some? && selection.value != "" {
        var context := PageSnapshot(tab.url, "Selection from " + tab.title, selection.value, None, stampMs);
        pageContexts.Set("selection_" + NatToString(keyMs), context);
      }
    }

    /** The five-minute clean-up interval. */
    method OnCleanupTick()
      requires Valid()
      modifies pageContexts
      ensures Valid() && pageContexts.entries == Evicted(old(pageContexts.entries))
    {
      if |pageContexts.entries| > MaxEntries {
        pageContexts.EvictOldest();
      }
    }
  }
}
