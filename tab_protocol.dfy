/**
 * The browser side of the background worker, as data. A request to a tab's
 * content script ends in one of three ways (an answer, `runtime.lastError`,
 * or a silent callback with no response); an injection of the content script
 * succeeds or fails; timers, requests, injections and CONTEXT_UPDATED
 * broadcasts are recorded, in order, as effects. A handler's reaction is one
 * change to the `pageContexts` Map plus the effects it issues.
 */
module TabProtocol {
  import opened Basics
  import opened Text
  import opened Types
  import opened ContextStore

  /** How `chrome.tabs.sendMessage(tabId, {type: 'GET_PAGE_CONTENT'})` ends. */
  datatype Reply = Answered(page: PageSnapshot) | LastError | NoAnswer

  /** How `chrome.scripting.executeScript` of contentScript.js ends. */
  datatype Injection = Injected | InjectFailed

  datatype Effect =
    | Sleep(ms: nat)
    | RequestPageContent(tabId: int)
    | InjectContentScript(tabId: int)
    | BroadcastContext(context: Option<PageSnapshot>)
    | StorePendingJournalEntry(entry: PendingJournalEntry)
    | OpenSidePanel

  /** The last effect issued is `e`. */
  predicate EndsWith(effects: seq<Effect>, e: Effect) {
    |effects| > 0 && effects[|effects| - 1] == e
  }

  function IsRequest(e: Effect): bool { e.RequestPageContent? }
  function IsInjection(e: Effect): bool { e.InjectContentScript? }
  function IsBroadcast(e: Effect): bool { e.BroadcastContext? }

  /** The pages the extension reads: http and https urls. */
  predicate IsWebUrl(url: string) {
    StartsWith(url, "http://") || StartsWith(url, "https://")
  }

  /** The browser's own pages, on which navigation clears the current-tab slot. */
  predicate IsBrowserPageUrl(url: string) {
    StartsWith(url, "chrome://") || StartsWith(url, "chrome-extension://")
    || StartsWith(url, "edge://") || StartsWith(url, "about:")
  }

  /** No url is both a web page and a browser page. */
  lemma WebAndBrowserPagesDisjoint(url: string)
    ensures !(IsWebUrl(url) && IsBrowserPageUrl(url))
  {
    if IsWebUrl(url) {
      assert url[0] == 'h';
    }
  }

  /** What an extraction attempt produced. */
  datatype Fetch = Fetched(page: PageSnapshot) | Silent | Failed

  datatype Attempt = Attempt(result: Fetch, effects: seq<Effect>)

  /**
   * Ask the content script; when it is not there (lastError), inject it once,
   * wait `settleMs` and ask once more. A retry counts only when it answers
   * without lastError. A first ask that ends silently is not retried.
   */
  function FetchWithFallback(tabId: int, first: Reply, inj: Injection, retry: Reply, settleMs: nat): (a: Attempt)
    ensures a.result.Silent? <==> first.NoAnswer?
    ensures a.result.Fetched? <==> first.Answered? || (first.LastError? && inj.Injected? && retry.Answered?)
    ensures a.result.Fetched? ==> a.result.page == if first.Answered? then first.page else retry.page
    ensures |a.effects| >= 1 && a.effects[0] == RequestPageContent(tabId)
    ensures InjectContentScript(tabId) in a.effects <==> first.LastError?
  {
    var ask := [RequestPageContent(tabId)];
    match first
    case Answered(p) => Attempt(Fetched(p), ask)
    case NoAnswer => Attempt(Silent, ask)
    case LastError =>
      var injected := ask + [InjectContentScript(tabId)];
      if inj.InjectFailed? then Attempt(Failed, injected)
      else
        var retried := injected + [Sleep(settleMs), RequestPageContent(tabId)];
        Attempt(if retry.Answered? then Fetched(retry.page) else Failed, retried)
  }

  /**
   * The fallback injects at most once, asks at most twice, and never
   * broadcasts by itself.
   */
  lemma FetchWithFallbackBounds(tabId: int, first: Reply, inj: Injection, retry: Reply, settleMs: nat)
    ensures var a := FetchWithFallback(tabId, first, inj, retry, settleMs);
            CountIf(a.effects, IsInjection) == (if first.LastError? then 1 else 0)
            && CountIf(a.effects, IsRequest) == (if first.LastError? && inj.Injected? then 2 else 1)
            && CountIf(a.effects, IsBroadcast) == 0
  {
    var ask := [RequestPageContent(tabId)];
    CountsOne(RequestPageContent(tabId));
    if first.LastError? {
      CountsOne(InjectContentScript(tabId));
      CountsAppend(ask, [InjectContentScript(tabId)]);
      if inj.Injected? {
        var injected := ask + [InjectContentScript(tabId)];
        CountsOne(Sleep(settleMs));
        CountsAppend(injected, [Sleep(settleMs)]);
        CountsAppend(injected + [Sleep(settleMs)], [RequestPageContent(tabId)]);
        assert injected + [Sleep(settleMs), RequestPageContent(tabId)]
            == injected + [Sleep(settleMs)] + [RequestPageContent(tabId)];
      }
    }
  }

  /** How many asks, injections and broadcasts one effect is. */
  lemma CountsOne(e: Effect)
    ensures CountIf([e], IsInjection) == (if e.InjectContentScript? then 1 else 0)
    ensures CountIf([e], IsRequest) == (if e.RequestPageContent? then 1 else 0)
    ensures CountIf([e], IsBroadcast) == (if e.BroadcastContext? then 1 else 0)
  {
    CountSingle(e, IsInjection);
    CountSingle(e, IsRequest);
    CountSingle(e, IsBroadcast);
  }

  /** The asks, injections and broadcasts of two runs of effects add up. */
  lemma CountsAppend(a: seq<Effect>, b: seq<Effect>)
    ensures CountIf(a + b, IsInjection) == CountIf(a, IsInjection) + CountIf(b, IsInjection)
    ensures CountIf(a + b, IsRequest) == CountIf(a, IsRequest) + CountIf(b, IsRequest)
    ensures CountIf(a + b, IsBroadcast) == CountIf(a, IsBroadcast) + CountIf(b, IsBroadcast)
  {
    CountAppend(a, b, IsInjection);
    CountAppend(a, b, IsRequest);
    CountAppend(a, b, IsBroadcast);
  }

  /** One ask, trusted only when it answers without lastError. */
  function FetchOnce(tabId: int, reply: Reply): (a: Attempt)
    ensures a.result.Fetched? <==> reply.Answered?
    ensures a.result.Fetched? ==> a.result.page == reply.page
    ensures a.result.Silent? <==> reply.NoAnswer?
    ensures CountIf(a.effects, IsRequest) == 1 && CountIf(a.effects, IsInjection) == 0
  {
    var ask := [RequestPageContent(tabId)];
    assert Filter(ask, IsInjection) == [] && Filter(ask, IsRequest) == ask;
    match reply
    case Answered(p) => Attempt(Fetched(p), ask)
    case LastError => Attempt(Failed, ask)
    case NoAnswer => Attempt(Silent, ask)
  }

  /** One change to the `pageContexts` Map. */
  datatype Update = Keep | Upsert(key: string, page: PageSnapshot) | Drop(key: string)

  datatype Reaction = Reaction(update: Update, effects: seq<Effect>)

  function ApplyUpdate(es: seq<Entry>, u: Update): seq<Entry> {
    match u
    case Keep => es
    case Upsert(k, p) => Put(es, k, p)
    case Drop(k) => Remove(es, k)
  }

  lemma ApplyUpdateKeysDistinct(es: seq<Entry>, u: Update)
    requires KeysDistinct(es)
    ensures KeysDistinct(ApplyUpdate(es, u))
  {
    match u
    case Keep =>
    case Upsert(k, p) => PutKeysDistinct(es, k, p);
    case Drop(k) => RemoveKeysDistinct(es, k);
  }

  /**
   * An update touches only its own key: afterwards that key reads as the
   * update says and every other key reads as before.
   */
  lemma ApplyUpdateFrame(es: seq<Entry>, u: Update, k': string)
    ensures u.Upsert? ==> Lookup(ApplyUpdate(es, u), u.key) == Some(u.page)
    ensures u.Drop? ==> Lookup(ApplyUpdate(es, u), u.key) == None
    ensures (u.Keep? || k' != u.key) ==> Lookup(ApplyUpdate(es, u), k') == Lookup(es, k')
  {
    match u
    case Keep =>
    case Upsert(k, p) => PutLookup(es, k, p, k');
    case Drop(k) => RemoveLookup(es, k, k');
  }

  /** Whether the tab with id `tabId` is the first tab of the active-tab query. */
  predicate IsActive(activeId: Option<int>, tabId: int) {
    activeId == Some(tabId)
  }

  /** The parts of `changeInfo` the update listeners look at. */
  datatype TabChange = TabChange(complete: bool, url: Option<string>)
}
