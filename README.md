# talk2tab in Dafny

A model of the core of talk2tab, a Chrome extension that lets a user chat
with a local LM Studio model about the pages open in their browser. The
model covers two parts of the extension.

The **background worker** comes in three versions, `public/background.js`,
`src/background.js` and `build/background.js`. It keeps:

- `pageContexts`, a JavaScript `Map` from keys to page snapshots;
- `chatHistory`, the saved chat.

It answers the side panel's messages and captures the active tab's page.
It fills the `current_tab` slot when the user switches tabs or a page
finishes loading. It adds whole pages or selections from the context menu.
Every five minutes it evicts all but the 50 newest snapshots.

The **side panel** comes in two versions, `public/sidebar.js` and
`build/sidebar.js`. Its state lives in module-level variables:

- the current tab's context;
- pinned contexts;
- chat history and response format;
- notes and a journal (both versions keep one).

Its handlers pin and unpin tabs, build the context string and system
message, and send the chat request. They also maintain the journal and the
notes, and export the journal as a text file.

How the model is built:

- **The Map.** `pageContexts` is a sequence of key/snapshot entries with
  distinct keys, in insertion order (`ContextStore`). `Map.set` keeps an
  existing key in place and appends a new one.
- **The sort.** `Array.prototype.sort` is stable, so it is modelled as a
  stable insertion sort on an integer key (`Basics.SortBy`).
- **The worker** is a class (`Worker.Worker`) whose `pageContexts` is a
  `ContextStore.Store` with a `seq` field. Each listener is a method.
- **What each listener does** is stated first as a pure function. The
  function returns one change to the Map plus the ordered list of effects
  the listener issues: timers, requests to a tab's content script,
  script injections, CONTEXT_UPDATED broadcasts, and storage and
  side-panel calls. These are `TabProtocol.Reaction` and `Effect`.
- **Callbacks become parameters.** How a Chrome callback ends is a
  parameter: an answer, `runtime.lastError` or a silent callback for
  `tabs.sendMessage`, and success or failure for `scripting.executeScript`.
  Timers are `Sleep(ms)` effects with the source's delays.
- **The side panel** is a class per version (`PublicSidebar.Panel`,
  `BuildSidebar.Panel`) whose fields are the module-level variables plus
  what the panel has written to `chrome.storage.local`.
  - `sendMessage` is split at its `await fetch`. `SendMessage` runs the
    part before the request; `ReceiveCompletion` runs the continuation,
    given the completion (the reply, an HTTP error status, or a thrown
    error).
  - The fixed texts of the system message, the format instructions and
    the no-context reply are one `Prompt.Wording` value, which each panel
    holds as `PanelWording`.
- **Pure operations** are Dafny functions with lemmas: the context string,
  search, the journal aggregate and the export text. The loops of the
  export are methods proved against those functions.

The three background versions differ in their tab listeners, in the add-page
menu item and in GET_CURRENT_TAB_CONTENT:

- `public` retries through script injection when the content script is
  missing, in its tab listeners, its add-page item and
  GET_CURRENT_TAB_CONTENT, which also answers null for non-web tabs. It
  clears `current_tab` on browser pages.
- `build` asks once everywhere, checks no scheme in GET_CURRENT_TAB_CONTENT
  and only follows active tabs.
- `src` stores each loaded page under its own url.

`public` and `build` share the store part of the message switch, the
start-up capture, the selection menu items and the eviction; `Worker`
models them once. `src` shares only the store part of the message switch
(PAGE_DATA, GET_STORED_CONTEXTS, CLEAR_CONTEXTS, SAVE_CHAT_HISTORY,
GET_CHAT_HISTORY) and the eviction. Its `onInstalled` only sets the panel
behaviour and it has no context-menu listener, so `Worker.Installed`,
`Worker.AddSelection` and `Worker.AddSelectionToJournal` have no `src`
counterpart.

## Model

| member | source | states |
|---|---|---|
| ContextStore.SelectionKey | public/background.js:288 | A selection's key starts with `selection_` |
| ContextStore.SelectionKeyInjective | public/background.js:288 | Selections made at different milliseconds get different keys |
| ContextStore.SelectionKeyNotCurrentTab | public/background.js:288 | A selection key never overwrites the `current_tab` slot |
| ContextStore.Lookup | public/background.js:7 | `Map.get` finds a value exactly when the key is defined, and the value is the one stored under that key |
| ContextStore.Put | public/background.js:331 | `Map.set` appends a new key at the end and keeps every existing key in its position; the size grows only for a new key |
| ContextStore.PutLookup | public/background.js:331 | After `set(k, v)`, `get(k)` is `v` and every other key reads as before |
| ContextStore.PutKeysDistinct | public/background.js:331 | `set` keeps the Map's keys distinct |
| ContextStore.Remove | public/background.js:228 | `Map.delete` keeps only entries with other keys, never adds one, and changes nothing when the key is absent |
| ContextStore.RemoveIsFilter | public/background.js:228 | Deleting a key keeps exactly the entries with other keys, in their Map order |
| ContextStore.RemoveAppend | public/background.js:228 | Deleting a key from a joined Map is deleting it from each part and joining the results |
| ContextStore.RemoveLookup | public/background.js:228 | After `delete(k)`, `get(k)` finds nothing and every other key reads as before |
| ContextStore.RemoveKeysDistinct | public/background.js:228 | `delete` keeps the Map's keys distinct |
| ContextStore.Values | public/background.js:403-406 | GET_STORED_CONTEXTS lists every stored snapshot, in Map order |
| ContextStore.ByRecency | public/background.js:432 | The newest-first sort is a permutation of the Map's entries |
| ContextStore.Evicted | public/background.js:428-438 | Eviction keeps at most 50 entries, all taken from the Map, and changes nothing at 50 or fewer |
| ContextStore.EvictedKeepsNewest | public/background.js:428-438 | Every kept snapshot is at least as new as every dropped one |
| ContextStore.EvictedNewestFirst | public/background.js:432-436 | The kept entries are re-inserted newest first |
| ContextStore.EvictedKeepsTieOrder | public/background.js:432-436 | Among snapshots with equal timestamps, the kept ones are the earliest in the old Map order, in that order |
| ContextStore.EvictedKeysDistinct | public/background.js:428-438 | Re-inserting the kept entries leaves the keys distinct |
| ContextStore.Store.constructor | public/background.js:7 | The Map starts empty |
| ContextStore.Store.Set | public/background.js:331 | `set` changes the Map to `Put` of the old one |
| ContextStore.Store.Delete | public/background.js:228 | `delete` changes the Map to `Remove` of the old one |
| ContextStore.Store.Clear | public/background.js:410 | `clear` empties the Map |
| ContextStore.Store.EvictOldest | public/background.js:428-438 | The clear-and-re-set loop leaves the Map equal to `Evicted` of the old one |
| TabProtocol.WebAndBrowserPagesDisjoint | public/background.js:221-223 | No url is both a web page (`http://`, `https://`) and a browser page (`chrome://`, `chrome-extension://`, `edge://`, `about:`) |
| TabProtocol.FetchWithFallback | public/background.js:70-124 | The first request is always made. The script is injected exactly when that request hits `lastError`. A page is obtained exactly from a first answer, or from a retry answered after a successful injection. The outcome is silent exactly when the first request is |
| TabProtocol.FetchWithFallbackBounds | public/background.js:70-124 | The fallback injects once after `lastError` and otherwise never. It asks twice only after a successful injection, and never broadcasts by itself |
| TabProtocol.FetchOnce | build/background.js:69-92 | A single request obtains a page exactly when the tab answers. It is silent exactly when the callback gets no response. It never injects |
| TabProtocol.ApplyUpdateFrame | public/background.js:331 | A listener's update sets or deletes its one key and leaves every other key as it was |
| TabProtocol.ApplyUpdateKeysDistinct | public/background.js:7 | Every listener update keeps the Map's keys distinct |
| Worker.Handle | public/background.js:324-425 | PAGE_DATA upserts under the snapshot's url, or does nothing without data. CLEAR_CONTEXTS empties the Map. The stored snapshot is then found under its url and the other entries are unchanged. SAVE_CHAT_HISTORY stores the history sent, or `[]`, and answers success; GET_CHAT_HISTORY answers with the stored history. Reads change nothing. Exactly PAGE_DATA and types the switch has no case for get no response |
| Worker.SaveThenGetChatHistory | public/background.js:414-423 | What SAVE_CHAT_HISTORY stores is what the next GET_CHAT_HISTORY returns (`[]` when none was sent) |
| Worker.ClearContextsDropsCurrentTab | public/background.js:408-412 | CLEAR_CONTEXTS also empties the `current_tab` slot and keeps the chat history |
| Worker.HandleKeysDistinct | public/background.js:324-425 | No message can create duplicate keys in the Map |
| Worker.Installed | public/background.js:43-55 | At start-up the active tab is stored under `current_tab` exactly when it is a web page that answers. Nothing is deleted, broadcast or injected |
| Worker.AddSelection | public/background.js:279-291 | A selection is stored exactly when one is present. It goes under the key `selection_<ms>` for the click's millisecond, never `current_tab`, titled "Selection from " and the tab's title, with the selected text as content and the tab's url |
| Worker.SecondSelectionKeepsFirst | public/background.js:279-291 | A second selection stored at another millisecond leaves the first one in place |
| Worker.AddSelectionToJournal | public/background.js:293-321 | A present selection stores a pending journal quote carrying the selection, the tab's url, the tab's title and the current ISO time, then opens the side panel. Without a selection nothing happens |
| Worker.Worker.constructor | public/background.js:7-8 | The worker starts with an empty Map and an empty chat history |
| Worker.Worker.Apply | public/background.js:7 | The Map becomes `ApplyUpdate` of the old one under the given update |
| Worker.Worker.OnMessage | public/background.js:324-425 | The new state and the response are `Handle` of the old state |
| Worker.Worker.OnInstalled | public/background.js:43-55 | The Map and the effects follow `Installed` |
| Worker.Worker.OnAddSelection | public/background.js:279-291 | The Map follows `AddSelection` |
| Worker.Worker.OnCleanupTick | public/background.js:428-438 | The Map becomes `Evicted` of the old one |
| PublicBackground.Activated | public/background.js:58-142 | A browser page drops `current_tab` and broadcasts "no context". A web page stores the fetched snapshot exactly when the fallback obtains one. A failed fallback broadcasts "no context", and a silent one leaves everything as it was |
| PublicBackground.ActivationBounds | public/background.js:58-142 | A tab switch injects at most once, asks at most twice and broadcasts at most once |
| PublicBackground.NonWebActivationDropsOnlyCurrentTab | public/background.js:129-137 | Switching to a tab that is not a web page removes `current_tab` and leaves every other key untouched |
| PublicBackground.Updated | public/background.js:145-236 | Only a completed load of the active tab reacts. A browser page drops `current_tab` and broadcasts. A web page stores the fetched snapshot under `current_tab` exactly when the fallback obtains one |
| PublicBackground.AddPage | public/background.js:252-277 | "Add page" stores the extracted page under its own url exactly when extraction succeeds. It never deletes or broadcasts, and injects at most once |
| PublicBackground.CurrentTabContent | public/background.js:360-392 | GET_CURRENT_TAB_CONTENT answers with a snapshot exactly when the active tab is a web page and extraction succeeds; otherwise with null |
| PublicBackground.OnActivated | public/background.js:58-142 | The Map and the effects follow `Activated` |
| PublicBackground.OnUpdated | public/background.js:145-236 | The Map and the effects follow `Updated` |
| PublicBackground.OnAddPage | public/background.js:252-277 | The Map and the effects follow `AddPage` |
| BuildBackground.Activated | build/background.js:58-108 | A non-web tab drops `current_tab` and broadcasts "no context". A web tab stores its snapshot exactly when it answers. It never injects |
| BuildBackground.Updated | build/background.js:111-142 | Only a completed url change of the active web tab reacts. Its answer is stored under `current_tab`, and nothing is ever deleted |
| BuildBackground.AddPage | build/background.js:158-166 | "Add page" stores the answer under its url exactly when the tab answers, with one request and no injection |
| BuildBackground.CurrentTabContent | build/background.js:249-264 | GET_CURRENT_TAB_CONTENT answers with a snapshot exactly when the tab answers |
| BuildBackground.OnActivated | build/background.js:58-108 | The Map and the effects follow `Activated` |
| BuildBackground.OnUpdated | build/background.js:111-142 | The Map and the effects follow `Updated` |
| BuildBackground.OnAddPage | build/background.js:158-166 | The Map and the effects follow `AddPage` |
| SrcBackground.Updated | src/background.js:78-90 | Only a completed load of a non-`chrome://` page reacts. It stores the answer under the page's own url exactly when the tab answers. It never deletes, broadcasts or injects |
| SrcBackground.CaptureLeavesCurrentTab | src/background.js:78-90 | This version never touches the `current_tab` slot |
| SrcBackground.OnUpdated | src/background.js:78-90 | The Map and the effects follow `Updated` |
| Prompt.PinnedEntries | public/sidebar.js:913-916 | One text block per pinned context, in pin order |
| Prompt.ContextString | public/sidebar.js:902-917 | The context string is empty exactly when there is neither a current tab nor a pin |
| Prompt.ContextLayout | public/sidebar.js:902-917 | The current-tab header opens the context string. The pinned-tabs header follows the current-tab block, or opens the string when there is no current tab |
| Prompt.TruncatedContent | public/sidebar.js:906-914 | A current tab shows its first 3000 characters and a pin its first 2000, each followed by `...` |
| Prompt.PinnedBlockSnoc | public/sidebar.js:911-917 | Pinning one more tab appends a blank line and that tab's block at the end |
| Prompt.ContextIgnoresTail | public/sidebar.js:902-917 | Content past the truncation limits never reaches the model |
| Prompt.FormatInstruction | public/sidebar.js:972-987 | The instruction is the table's entry for the format; a format missing from the table reads as `undefined` |
| Prompt.SystemMessageCarries | public/sidebar.js:978-989 | The system message carries the response style, the context string and the format instruction at fixed positions |
| Prompt.ErrorText | public/sidebar.js:1035-1038 | An error reply starts with `Error: ` and ends with the LM Studio hint |
| Prompt.ReplyFor | public/sidebar.js:1011-1039 | The assistant's reply is the completion text, or the error text for an HTTP status or a thrown error |
| Prompt.SendOutcome | public/sidebar.js:859-1010 | An empty input, or a send while loading, is ignored. Without context, the user message and the fixed reply are appended and nothing is requested. With context, the user message is appended, loading starts, and a request goes out with the system message, the last ten history messages, and the endpoint, model, temperature and token limit |
| Prompt.Receive | public/sidebar.js:1011-1044 | The reply is appended and loading ends. The history is saved to the worker exactly when the completion succeeded |
| Prompt.RequestWindow | public/sidebar.js:1001-1006 | A request carries the system message, then at most the nine previous history messages, then the new user message |
| Prompt.SendCycleEndsIdle | public/sidebar.js:859-1044 | A full send cycle always ends with loading off. An accepted input ends with the old history, the user message and one assistant message |
| Session.Pin | public/sidebar.js:748-784 | Pinning appends the current tab exactly when there is one and its url is not already pinned; afterwards the url is pinned |
| Session.PinIdempotent | public/sidebar.js:748-784 | Pinning twice is pinning once |
| Session.PinKeepsUrlsDistinct | public/sidebar.js:748-784 | Pins never repeat a url |
| Session.Unpin | public/sidebar.js:786-798 | Unpinning a valid index removes exactly that pin and keeps the order; an invalid index changes nothing |
| Session.UnpinRemovesOne | public/sidebar.js:786-798 | Unpinning removes one occurrence of that pin from the multiset |
| Session.UnpinUndoesPin | public/sidebar.js:748-798 | Removing a freshly pinned tab restores the pins |
| Session.UnpinKeepsUrlsDistinct | public/sidebar.js:786-798 | Unpinning keeps the pinned urls distinct |
| Session.JournalIndex | public/sidebar.js:1943 | Finds the first journal context, or reports that there is none |
| Session.WithJournalContext | public/sidebar.js:1943-1950 | The journal context replaces the first existing one at its index, keeping every other pinned context where it was, or is appended after all of them |
| Session.WithJournalContextUnique | public/sidebar.js:1943-1950 | After adding the journal, exactly one journal context is pinned, it is the new aggregate, and the tab pins are unchanged in order |
| Session.FromPending | public/sidebar.js:250-258 | A pending entry becomes a journal entry with the same kind, content, source and timestamp, and the current time as its id |
| Session.DeleteNote | public/sidebar.js:1305-1311 | Deleting keeps exactly the notes with other ids |
| Session.DeleteNoteAppend | public/sidebar.js:1305-1311 | Deleting from a joined list is deleting from each part and joining the results, so the order of the kept notes is unchanged |
| Session.NoteIndex | public/sidebar.js:1369 | Finds the first note with the id, or reports that there is none |
| Session.EditNote | public/sidebar.js:1359-1378 | Editing changes only the content and timestamp of the first note with the id; ids, sources and the other notes stay |
| Session.DeleteIgnoresId | public/sidebar.js:1305-1311 | Deleting an id does not depend on the other fields of the notes that carry it |
| Session.DeleteAfterEdit | public/sidebar.js:1305-1378 | Deleting an edited note is deleting the original |
| Session.DeleteUndoesAddNote | public/sidebar.js:1292-1311 | Deleting a freshly added note with a new id restores the notes |
| Journal.Search | public/sidebar.js:1746-1758 | Search keeps exactly the entries whose content, title or url contains the lowercased term, in journal order |
| Journal.SearchAppend | public/sidebar.js:1746-1758 | Search distributes over joined journals |
| Journal.SearchIgnoresCase | public/sidebar.js:1747 | A term and its lowercase form find the same entries |
| Journal.SearchEmptyTermKeepsAll | public/sidebar.js:1746-1758 | An empty term finds every entry |
| Journal.DeleteEntry | public/sidebar.js:1579-1585 | Deleting keeps exactly the entries with other ids |
| Journal.DeleteEntryAppend | public/sidebar.js:1579-1585 | Deleting from a joined list is deleting from each part and joining the results, so the order of the kept entries is unchanged |
| Journal.DeleteEntryCount | public/sidebar.js:1579-1585 | Deleting removes as many entries as carry the id |
| Journal.DeleteEntryIdempotent | public/sidebar.js:1579-1585 | Deleting twice is deleting once |
| Journal.DeleteUndoesAppend | public/sidebar.js:633-651 | Deleting a freshly added entry with a new id restores the journal |
| Journal.FindEntry | public/sidebar.js:1558 | Finds an entry with the id exactly when one exists, and it is the first such entry, as `find` returns |
| Journal.SelectionEntry | public/sidebar.js:1983-2020 | No entry exactly when nothing is selected or the selection is all white space; otherwise a quote of the trimmed, non-empty text, sourced from the current tab's url and title where non-empty and from the panel page's location and title otherwise |
| Journal.SelectionEntryIgnoresPadding | public/sidebar.js:1992 | White space around a selection does not change the entry |
| Text.TrimIgnoresPadding | public/sidebar.js:1992 | A white-space character on each side does not change what `trim` keeps |
| Journal.EntryFromChat | public/sidebar.js:56-98 | An assistant message becomes a quote and a user message a question, with the current tab (or the panel url and "AI Response") as source. A user message with no current tab yields nothing, because the source throws |
| Journal.AggregateEntry | public/sidebar.js:1924-1937 | Each journal line starts with the date and content, and adds a source line exactly when title and url are both present |
| Journal.AggregateEntries | public/sidebar.js:1924-1937 | One line per entry, in journal order |
| Journal.AggregateContext | public/sidebar.js:1920-1940 | The aggregate is a journal context at `internal://journal` whose title and size carry the entry count |
| Journal.AggregateSnoc | public/sidebar.js:1924-1937 | One more entry appends a blank line and its text |
| Journal.AggregateSingle | public/sidebar.js:1924-1937 | A one-entry journal's aggregate is that entry's text |
| Journal.EntryBodyEndsLine | public/sidebar.js:2107-2119 | Each exported entry body ends with a newline |
| Journal.EntryText | public/sidebar.js:2098-2121 | Each exported entry starts with its time in brackets and ends with a blank line |
| Journal.SectionsSnoc | public/sidebar.js:2088-2123 | One more day appends that day's section |
| Journal.ExportFile | public/sidebar.js:2063-2137 | An empty journal exports nothing. Otherwise the file is `snip-journal-<date>.txt` and begins with the header and the entry count |
| Journal.ExportDaysAscending | public/sidebar.js:2086 | Days are exported oldest first |
| Journal.ExportPlacesEachEntryOnce | public/sidebar.js:2076-2101 | Every entry is listed under its own day, which appears exactly once, and under no other |
| Journal.ExportDaysNonEmpty | public/sidebar.js:2076-2086 | Every exported day lists at least one entry |
| Journal.GroupBy | public/sidebar.js:2076-2083 | The grouping loop yields each day once, in first-seen order, with that day's entries in journal order |
| Journal.AppendEntries | public/sidebar.js:2098-2122 | The entry loop appends exactly the text of the day's entries |
| Journal.AppendSections | public/sidebar.js:2088-2123 | The day loop appends exactly the sections of the sorted days |
| PublicSidebar.LoadedIsPersisted | public/sidebar.js:174-229 | Loading makes the pins, journal and notes agree with storage, and a persisted panel reads back its own lists |
| Session.PendingMove | public/sidebar.js:242-275 | With a pending entry the journal gains exactly that entry at its end, storage holds the new journal and no pending entry, and the pins and notes in storage are untouched; without one nothing changes |
| Session.PendingMoveOnce | public/sidebar.js:242-275 | A second check, at any time, moves nothing more |
| PublicSidebar.PendingMovedOnce | public/sidebar.js:242-275 | A pending journal entry is moved once; a second check finds nothing, and the move keeps storage in step |
| PublicSidebar.ClearedChatComesBack | public/sidebar.js:422-435 | Clearing the chat sends CLEAR_CHAT_HISTORY, which the worker ignores, so the next load brings the cleared chat back |
| PublicSidebar.Panel.constructor | public/sidebar.js:7-53 | The panel starts with no current tab, no pins, no chat, the `text` format, not loading, and no notes or journal |
| PublicSidebar.Panel.OnContextUpdated | public/sidebar.js:119-136 | CONTEXT_UPDATED replaces only the current tab's context |
| PublicSidebar.Panel.SetFormat | public/sidebar.js:300-303 | Choosing a format changes only the format |
| PublicSidebar.Panel.LoadStoredData | public/sidebar.js:174-229 | Loading takes the stored pins, notes and journal, the worker's current tab and chat, then moves any pending entry |
| PublicSidebar.Panel.CheckPendingJournalEntries | public/sidebar.js:242-275 | A pending entry is appended to the journal and removed from storage |
| PublicSidebar.Panel.PinCurrentTab | public/sidebar.js:748-784 | Pins become `Pin` of the old pins and are saved; storage stays in step |
| PublicSidebar.Panel.RemovePinnedContext | public/sidebar.js:786-798 | Pins become `Unpin` of the old pins and are saved |
| PublicSidebar.Panel.ClearContext | public/sidebar.js:422-435 | Pins and chat are emptied, the pins saved, and CLEAR_CONTEXTS and CLEAR_CHAT_HISTORY sent |
| PublicSidebar.Panel.AddJournalToContext | public/sidebar.js:1893-1980 | An empty journal changes nothing; otherwise the journal aggregate is pinned once and saved |
| PublicSidebar.Panel.SendMessage | public/sidebar.js:859-1010 | The chat and the step taken follow `Send`; nothing else changes |
| PublicSidebar.Panel.ReceiveCompletion | public/sidebar.js:1011-1044 | The chat follows `Receive`; the history is sent to the worker exactly on success |
| PublicSidebar.Panel.SendJournalMessage | public/sidebar.js:499-515 | A non-empty trimmed text becomes the user's own journal entry and is saved; an empty one changes nothing |
| PublicSidebar.Panel.ClearJournal | public/sidebar.js:517-523 | The journal is emptied and its storage key removed |
| PublicSidebar.Panel.AddToJournal | public/sidebar.js:633-651 | A quote with the given source is appended and saved |
| PublicSidebar.Panel.AddSelectionToJournal | public/sidebar.js:1983-2032 | The Ctrl+J shortcut appends the `SelectionEntry` of the panel's selection and saves the journal; with nothing selected, or only white space, nothing changes |
| PublicSidebar.Panel.DeleteJournalMessage | public/sidebar.js:1579-1585 | The journal becomes `DeleteEntry` of the old one and is saved |
| PublicSidebar.Panel.AddJournalMessageToChat | public/sidebar.js:1557-1576 | A found entry's content is appended as a user message and the history sent; an unknown id changes nothing |
| PublicSidebar.Panel.AddMessageToJournal | public/sidebar.js:56-98 | A chat message in range is saved as the entry `EntryFromChat` builds. Out of range changes nothing, and so does the throwing case |
| PublicSidebar.Panel.SaveNewNote | public/sidebar.js:1269-1290 | A non-empty trimmed note goes first in the notes and is saved; an empty one is refused with no change |
| PublicSidebar.Panel.AddNoteFromText | public/sidebar.js:1292-1303 | The note goes first in the notes and is saved |
| PublicSidebar.Panel.DeleteNoteById | public/sidebar.js:1305-1311 | Notes become `DeleteNote` of the old ones and are saved |
| PublicSidebar.Panel.SaveEditedNote | public/sidebar.js:1359-1378 | A non-empty trimmed text edits the note with the id and saves; otherwise nothing changes |
| PublicSidebar.Panel.ClearAllNotes | public/sidebar.js:1380-1386 | The notes are emptied and saved |
| PublicSidebar.Panel.DownloadJournal | public/sidebar.js:2063-2137 | The download is `ExportFile` of the journal |
| BuildSidebar.LoadLeavesCurrentAndPins | build/sidebar.js:107-131 | Loading never sets the current tab or the pins; the worker's tab fills only the legacy list, so a fresh panel has no current tab and no pins |
| BuildSidebar.Panel.constructor | build/sidebar.js:7-13 | The panel starts empty with the `text` format |
| BuildSidebar.Panel.OnContextUpdated | build/sidebar.js:63-69 | CONTEXT_UPDATED replaces only the current tab's context |
| BuildSidebar.Panel.SetFormat | build/sidebar.js:204-207 | Choosing a format changes only the format |
| BuildSidebar.Panel.LoadStoredData | build/sidebar.js:107-131 | Loading follows `Loaded` and then moves any pending entry |
| BuildSidebar.Panel.CheckPendingJournalEntries | build/sidebar.js:144-177 | A pending entry is appended to the journal and removed from storage |
| BuildSidebar.Panel.PinCurrentTab | build/sidebar.js:614-626 | Pins become `Pin` of the old pins; nothing is saved |
| BuildSidebar.Panel.RemovePinnedContext | build/sidebar.js:628-634 | Pins become `Unpin` of the old pins; nothing is saved |
| BuildSidebar.Panel.ClearContext | build/sidebar.js:324-331 | Pins and chat are emptied, and CLEAR_CONTEXTS and CLEAR_CHAT_HISTORY sent |
| BuildSidebar.Panel.SendMessage | build/sidebar.js:685-775 | The chat and the step taken follow `Send` |
| BuildSidebar.Panel.ReceiveCompletion | build/sidebar.js:764-809 | The chat follows `Receive`; the history is sent exactly on success |
| BuildSidebar.Panel.SaveNewNote | build/sidebar.js:941-962 | A non-empty trimmed note goes first and is saved; an empty one is refused |
| BuildSidebar.Panel.AddNoteFromText | build/sidebar.js:964-975 | The note goes first in the notes and is saved |
| BuildSidebar.Panel.DeleteNoteById | build/sidebar.js:977-983 | Notes become `DeleteNote` of the old ones and are saved |
| BuildSidebar.Panel.SaveEditedNote | build/sidebar.js:1031-1050 | A non-empty trimmed text edits the note with the id and saves; otherwise nothing changes |
| BuildSidebar.Panel.ClearAllNotes | build/sidebar.js:1052-1058 | The notes are emptied and saved |
| BuildSidebar.Panel.SaveMessageToNotepad | build/sidebar.js:1105-1122 | Exactly an assistant message at a valid index becomes the first note, with source `AI response` |
| Text.TrimShape | public/sidebar.js:860 | `trim` removes exactly the leading and trailing white space |
| Text.TrimEmpty | public/sidebar.js:861 | A trimmed input is empty exactly when it is all white space |
| Text.Lower | public/sidebar.js:1747 | Lowercasing keeps the length and maps each letter on its own |
| Text.LowerIdempotent | public/sidebar.js:1747 | Lowercasing twice is lowercasing once |
| Text.Take | public/sidebar.js:906 | `slice(0, n)` is the first `n` characters, or the whole string when shorter |
| Text.NatToStringRoundTrip | public/sidebar.js:1922 | A count written in decimal reads back as the same count |
| Text.NatToStringInjective | public/sidebar.js:1922 | Different counts are written differently |
| Basics.SortByStable | public/background.js:432 | The sort is stable: entries with equal keys keep their relative order |
| Basics.SortBySorted | public/background.js:432 | The sort orders by its key |
| Basics.LastN | public/sidebar.js:1004 | `slice(-n)` is the last `n` messages, or all of them when fewer |

## Left out

- GET_ALL_TABS and GET_CURRENT_TAB query the browser's tabs, and GET_TAB_CONTENT asks a tab's content script; all three answer through `sendResponse`. They are not modelled and have no `Worker.Request` case. `Unhandled` stands only for types the switch has no case for, such as the panel's CLEAR_CHAT_HISTORY, and in `src` GET_CURRENT_TAB and GET_CURRENT_TAB_CONTENT.
- The `open-llm-agent` menu item and the context-menu registration only call browser UI.
- Rendering is not modelled. This covers the context list, chat, journal, search results, notes list, menus, modals, notifications, `setLoading` and highlighting.
- contentScript.js, which does the page extraction, is not part of this model. Its reply is a parameter.
- Loading, saving and resetting the LM Studio settings are not modelled. The settings are a field the request reads.
- The legacy `addContext`, `addCurrentTab`, `addAllTabs` and `removeContext` of the `contexts` list are left out. They feed nothing the chat request uses.
- `copyNoteToClipboard` only writes to the clipboard.
- `performJournalSearch` is modelled by `Journal.Search`. Entering and leaving search mode is UI.
- The build panel's journal handlers have the same code as the public panel's. They are modelled once, in `PublicSidebar.Panel`.
- `confirm` dialogs before clearing are taken as confirmed.
- Concurrency is not modelled: each listener runs to completion on its own. Orderings in which callbacks and timers of several listeners interleave are not covered.
- Journal-entry, note and selection ids come from `Date.now()` and are parameters. Two actions in the same millisecond would collide; the model does not rule that out.
- Text.Take, Prompt.TruncatedContent: lengths count Unicode scalar values, while JavaScript's `slice` counts UTF-16 code units. For text outside the Basic Multilingual Plane the cut point differs.
- Text.Lower: lowercases ASCII letters only, where `toLowerCase` also maps other scripts.
- Basics.SortBy: the comparator `b.timestamp - a.timestamp` is taken on integer timestamps. A snapshot without a timestamp (NaN in JavaScript) is not modelled.
- Journal.ExportFile: date and time formatting (`toDateString`, `toLocaleDateString`, `toLocaleTimeString`) and their ordering are parameters in `Journal.Locale`.
- Journal.AggregateContext: the journal context's favicon, an SVG data url, is left out. It is only displayed.
- Prompt.FormatInstruction: a format that names an inherited object property (such as `constructor`) would read that property in JavaScript. The model reads it as `undefined`.
- The worker never handles CLEAR_CHAT_HISTORY. This is modelled as written (`PublicSidebar.ClearedChatComesBack`).
