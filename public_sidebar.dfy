/**
 * The current side panel (public/sidebar.js): the module-level session
 * state as one object whose handlers change it in place. Pinned contexts,
 * journal and notes are written through to `chrome.storage.local`; chat
 * history is kept by the background worker.
 */
module PublicSidebar {
  import opened Basics
  import opened Text
  import opened Types
  import opened Prompt
  import opened Journal
  import opened Session
  import opened Worker

  /** How `addMessageToJournal` ends. */
  datatype JournalSave = NoMessage | TypeErrorThrown | Saved

  /** All of the panel's state, for stating what a handler leaves alone. */
  datatype PanelState = PanelState(
    currentTabContext: Option<PageSnapshot>,
    pinnedContexts: seq<PinnedContext>,
    chatHistory: seq<ChatMessage>,
    currentFormat: string,
    isLoading: bool,
    notes: seq<Note>,
    journalMessages: seq<JournalEntry>,
    settings: Settings,
    storage: PanelStorage)

  /** `loadStoredData` up to the pending-entry check: every reply that arrived replaces its part. */
  function Loaded(s: PanelState, currentReply: Option<PageSnapshot>, historyReply: Option<seq<ChatMessage>>): PanelState {
    s.(pinnedContexts := s.storage.pinnedContexts.GetOr(s.pinnedContexts),
       currentTabContext := currentReply,
       chatHistory := historyReply.GetOr(s.chatHistory),
       notes := s.storage.notes.GetOr(s.notes),
       journalMessages := s.storage.journalMessages.GetOr(s.journalMessages))
  }

  /** `checkPendingJournalEntries` on the panel's journal and storage. */
  function PendingMoved(s: PanelState, nowMs: int): PanelState {
    var m := PendingMove(JournalStore(s.journalMessages, s.storage), nowMs);
    s.(journalMessages := m.journal, storage := m.storage)
  }

  /**
   * What a panel opened on this storage would hold: the pinned contexts,
   * journal and notes read back from it, or empty lists.
   */
  ghost predicate Persisted(s: PanelState) {
    && s.storage.pinnedContexts.GetOr([]) == s.pinnedContexts
    && s.storage.journalMessages.GetOr([]) == s.journalMessages
    && s.storage.notes.GetOr([]) == s.notes
  }

  /**
   * Loading a freshly opened panel makes its lists agree with storage, and
   * a panel whose lists are persisted reads the same lists back.
   */
  lemma LoadedIsPersisted(s: PanelState, currentReply: Option<PageSnapshot>, historyReply: Option<seq<ChatMessage>>)
    requires Persisted(s) || (s.pinnedContexts == [] && s.journalMessages == [] && s.notes == [])
    ensures Persisted(Loaded(s, currentReply, historyReply))
    ensures Persisted(s) ==>
              var l := Loaded(s, currentReply, historyReply);
              l.pinnedContexts == s.pinnedContexts && l.journalMessages == s.journalMessages && l.notes == s.notes
  {
  }

  /** A pending entry is taken once: a second check finds nothing. */
  lemma PendingMovedOnce(s: PanelState, t1: int, t2: int)
    ensures PendingMoved(PendingMoved(s, t1), t2) == PendingMoved(s, t1)
    ensures Persisted(s) ==> Persisted(PendingMoved(s, t1))
  {
  }

  /**
   * `clearContext` sends CLEAR_CHAT_HISTORY, which the background worker
   * does not handle: the history it keeps survives both messages, and the
   * next `loadStoredData` brings the cleared chat back.
   */
  lemma ClearedChatComesBack(s: PanelState, w: State, currentReply: Option<PageSnapshot>)
    ensures var afterClear := Handle(Handle(w, ClearContexts).state, Unhandled("CLEAR_CHAT_HISTORY")).state;
            var reply := Handle(afterClear, GetChatHistory).response;
            && reply == ChatHistory(w.history)
            && Loaded(s.(chatHistory := []), currentReply, Some(reply.history)).chatHistory == w.history
  {
  }

  class Panel {
    var currentTabContext: Option<PageSnapshot>
    var pinnedContexts: seq<PinnedContext>
    var chatHistory: seq<ChatMessage>
    var currentFormat: string
    var isLoading: bool
    var notes: seq<Note>
    var journalMessages: seq<JournalEntry>
    var settings: Settings
    var storage: PanelStorage
    /** The texts `sendMessage` writes into the chat: always `PanelWording`. */
    const wording: Wording

    function State(): PanelState
      reads this
    {
      PanelState(currentTabContext, pinnedContexts, chatHistory, currentFormat, isLoading,
                 notes, journalMessages, settings, storage)
    }

    function ChatState(): Chat
      reads this
    {
      Chat(chatHistory, isLoading)
    }

    /** The panel as the script's top level leaves it, over whatever storage holds. */
    constructor (stored: PanelStorage)
      ensures State() == PanelState(None, [], [], "text", false, [], [], DefaultSettings, stored)
      ensures wording == PanelWording
    {
      currentTabContext := None;
      pinnedContexts := [];
      chatHistory := [];
      currentFormat := "text";
      isLoading := false;
      notes := [];
      journalMessages := [];
      settings := DefaultSettings;
      storage := stored;
      wording := PanelWording;
    }

    /** CONTEXT_UPDATED: the pushed context, or null, replaces the current tab. */
    method OnContextUpdated(context: Option<PageSnapshot>)
      modifies this
      ensures State() == old(State()).(currentTabContext := context)
    {
      currentTabContext := context;
    }

    /** A format button or the format select. */
    method SetFormat(format: string)
      modifies this
      ensures State() == old(State()).(currentFormat := format)
    {
      currentFormat := format;
    }

    /**
     * `loadStoredData`, with the replies to GET_CURRENT_TAB_CONTENT and
     * GET_CHAT_HISTORY as parameters, ending with the pending-entry check.
     */
    method LoadStoredData(currentReply: Option<PageSnapshot>, historyReply: Option<seq<ChatMessage>>, nowMs: int)
      modifies this
      ensures State() == PendingMoved(Loaded(old(State()), currentReply, historyReply), nowMs)
    {
      ghost var loaded := Loaded(State(), currentReply, historyReply);
      if storage.pinnedContexts.Some? {
        pinnedContexts := storage.pinnedContexts.value;
      }
      currentTabContext := currentReply;
      if historyReply.Some? {
        chatHistory := historyReply.value;
      }
      if storage.notes.Some? {
        notes := storage.notes.value;
      }
      if storage.journalMessages.Some? {
        journalMessages := storage.journalMessages.value;
      }
      assert State() == loaded;
      CheckPendingJournalEntries(nowMs);
    }

    /** `checkPendingJournalEntries` (also run every two seconds and on focus). */
    method CheckPendingJournalEntries(nowMs: int)
      modifies this
      ensures State() == PendingMoved(old(State()), nowMs)
    {
      var moved := PendingMove(JournalStore(journalMessages, storage), nowMs);
      journalMessages, storage := moved.journal, moved.storage;
    }

    /** `pinCurrentTab`: the pinned list is saved whenever it changes. */
    method PinCurrentTab()
      modifies this
      ensures pinnedContexts == Pin(old(pinnedContexts), currentTabContext)
      ensures State() == old(State()).(pinnedContexts := pinnedContexts,
                                       storage := if pinnedContexts == old(pinnedContexts) then old(storage)
                                                  else old(storage).(pinnedContexts := Some(pinnedContexts)))
      ensures Persisted(old(State())) ==> Persisted(State())
    {
      if currentTabContext.Some? {
        var alreadyPinned := IsPinned(pinnedContexts, currentTabContext.value.url);
        if !alreadyPinned {
          pinnedContexts := pinnedContexts + [TabContext(currentTabContext.value)];
          storage := storage.(pinnedContexts := Some(pinnedContexts));
        }
      }
    }

    /** `removePinnedContext`: an index in range is spliced out and the list saved. */
    method RemovePinnedContext(index: int)
      modifies this
      ensures pinnedContexts == Unpin(old(pinnedContexts), index)
      ensures State() == old(State()).(pinnedContexts := pinnedContexts,
                                       storage := if 0 <= index < |old(pinnedContexts)| then
                                                    old(storage).(pinnedContexts := Some(pinnedContexts))
                                                  else old(storage))
      ensures Persisted(old(State())) ==> Persisted(State())
    {
      if index >= 0 && index < |pinnedContexts| {
        pinnedContexts := pinnedContexts[..index] + pinnedContexts[index + 1..];
        storage := storage.(pinnedContexts := Some(pinnedContexts));
      }
    }

    /**
     * `clearContext`: pins and chat go, the current tab stays; the empty pin
     * list is saved and the background is sent CLEAR_CONTEXTS and
     * CLEAR_CHAT_HISTORY.
     */
    method ClearContext() returns (sent: seq<Request>)
      modifies this
      ensures State() == old(State()).(pinnedContexts := [], chatHistory := [],
                                       storage := old(storage).(pinnedContexts := Some([])))
      ensures sent == [ClearContexts, Unhandled("CLEAR_CHAT_HISTORY")]
      ensures Persisted(old(State())) ==> Persisted(State())
    {
      pinnedContexts := [];
      chatHistory := [];
      storage := storage.(pinnedContexts := Some([]));
      sent := [ClearContexts, Unhandled("CLEAR_CHAT_HISTORY")];
    }

    /**
     * `addJournalToContext`: an empty journal changes nothing; otherwise the
     * journal aggregate replaces the pinned one in place, or is appended, and
     * the pins are saved.
     */
    method AddJournalToContext(shortDate: string -> string)
      modifies this
      ensures journalMessages == [] ==> State() == old(State())
      ensures journalMessages != [] ==>
                && pinnedContexts == WithJournalContext(old(pinnedContexts), AggregateContext(journalMessages, shortDate))
                && State() == old(State()).(pinnedContexts := pinnedContexts,
                                            storage := old(storage).(pinnedContexts := Some(pinnedContexts)))
      ensures Persisted(old(State())) ==> Persisted(State())
    {
      if |journalMessages| == 0 {
        return;
      }
      var journalContext := AggregateContext(journalMessages, shortDate);
      var existingIndex := JournalIndex(pinnedContexts);
      if existingIndex.Some? {
        pinnedContexts := pinnedContexts[existingIndex.value := journalContext];
      } else {
        pinnedContexts := pinnedContexts + [journalContext];
      }
      storage := storage.(pinnedContexts := Some(pinnedContexts));
    }

    /** `sendMessage` up to the `await fetch`. */
    method SendMessage(input: string) returns (step: SendStep)
      modifies this
      ensures Sent(ChatState(), step) == Send(wording, old(ChatState()), input, currentTabContext, pinnedContexts, currentFormat, settings)
      ensures State() == old(State()).(chatHistory := chatHistory, isLoading := isLoading)
    {
      var message := Trim(input);
      if message == "" || isLoading {
        return Ignored;
      }
      var contextString := ContextString(currentTabContext, pinnedContexts);
      var history := chatHistory + [ChatMessage(User, message)];
      if !HasContext(currentTabContext, pinnedContexts) {
        chatHistory, isLoading := history + [ChatMessage(Assistant, wording.noContextReply)], false;
        return AnsweredWithoutContext;
      }
      chatHistory, isLoading := history, true;
      step := Requested(RequestFor(wording, history, contextString, currentFormat, settings));
    }

    /** `sendMessage` after the `await fetch`, through its `finally`. */
    method ReceiveCompletion(outcome: Completion) returns (sent: Option<Request>)
      modifies this
      ensures ChatState() == Receive(old(ChatState()), outcome).chat
      ensures sent.Some? <==> outcome.Completed?
      ensures sent.Some? ==> sent.value == SaveChatHistory(Some(chatHistory))
      ensures State() == old(State()).(chatHistory := chatHistory, isLoading := isLoading)
    {
      sent := None;
      match outcome {
        case Completed(content) =>
          chatHistory := chatHistory + [ChatMessage(Assistant, content)];
          sent := Some(SaveChatHistory(Some(chatHistory)));
        case HttpError(status) =>
          chatHistory := chatHistory + [ChatMessage(Assistant, ErrorText("LM Studio API error: " + NatToString(status)))];
        case Threw(message) =>
          chatHistory := chatHistory + [ChatMessage(Assistant, ErrorText(message))];
      }
      isLoading := false;
    }

    /** `sendJournalMessage`: a non-empty trimmed text is appended as the user's own entry and saved. */
    method SendJournalMessage(input: string, nowMs: int, isoNow: string)
      modifies this
      ensures Trim(input) == "" ==> State() == old(State())
      ensures Trim(input) != "" ==>
                && journalMessages == old(journalMessages) + [JournalEntry(nowMs, UserNote, Trim(input), None, None, isoNow)]
                && State() == old(State()).(journalMessages := journalMessages,
                                            storage := old(storage).(journalMessages := Some(journalMessages)))
      ensures Persisted(old(State())) ==> Persisted(State())
    {
      var content := Trim(input);
      if content == "" {
        return;
      }
      journalMessages := journalMessages + [JournalEntry(nowMs, UserNote, content, None, None, isoNow)];
      storage := storage.(journalMessages := Some(journalMessages));
    }

    /** `clearJournal`, once confirmed: the journal is emptied and its storage key removed. */
    method ClearJournal()
      modifies this
      ensures State() == old(State()).(journalMessages := [], storage := old(storage).(journalMessages := None))
      ensures Persisted(old(State())) ==> Persisted(State())
    {
      journalMessages := [];
      storage := storage.(journalMessages := None);
    }

    /** `addToJournal`: the text is appended as a quote with its source and saved. */
    method AddToJournal(text: string, sourceUrl: Option<string>, sourceTitle: Option<string>, nowMs: int, isoNow: string)
      modifies this
      ensures journalMessages == old(journalMessages) + [JournalEntry(nowMs, Quote, text, sourceUrl, sourceTitle, isoNow)]
      ensures State() == old(State()).(journalMessages := journalMessages,
                                       storage := old(storage).(journalMessages := Some(journalMessages)))
      ensures Persisted(old(State())) ==> Persisted(State())
    {
      journalMessages := journalMessages + [JournalEntry(nowMs, Quote, text, sourceUrl, sourceTitle, isoNow)];
      storage := storage.(journalMessages := Some(journalMessages));
    }

    /**
     * The Ctrl+J shortcut, `addSelectionToJournal`: the panel's own
     * selection becomes a quote appended to the journal, which is saved.
     * `pageUrl` and `pageTitle` are the panel page's location and title.
     * Nothing selected, or only white space, changes nothing.
     */
    method AddSelectionToJournal(selection: Option<string>, pageUrl: string, pageTitle: string,
                                 nowMs: int, isoNow: string) returns (added: bool)
      modifies this
      ensures var e := SelectionEntry(selection, old(currentTabContext), pageUrl, pageTitle, nowMs, isoNow);
              && added == e.Some?
              && (e.None? ==> State() == old(State()))
              && (e.Some? ==> journalMessages == old(journalMessages) + [e.value])
      ensures added ==> State() == old(State()).(journalMessages := journalMessages,
                                                 storage := old(storage).(journalMessages := Some(journalMessages)))
      ensures Persisted(old(State())) ==> Persisted(State())
    {
      var entry := SelectionEntry(selection, currentTabContext, pageUrl, pageTitle, nowMs, isoNow);
      added := entry.Some?;
      if added {
        journalMessages := journalMessages + [entry.value];
        storage := storage.(journalMessages := Some(journalMessages));
      }
    }

    /** `deleteJournalMessage`, once confirmed: entries with the id go and the journal is saved. */
    method DeleteJournalMessage(id: int)
      modifies this
      ensures journalMessages == DeleteEntry(old(journalMessages), id)
      ensures State() == old(State()).(journalMessages := journalMessages,
                                       storage := old(storage).(journalMessages := Some(journalMessages)))
      ensures Persisted(old(State())) ==> Persisted(State())
    {
      journalMessages := Filter(journalMessages, LacksId(id));
      storage := storage.(journalMessages := Some(journalMessages));
    }

    /**
     * `addJournalMessageToChat`: the first entry with the id is appended to
     * the chat as a user message and the history is sent to the background.
     */
    method AddJournalMessageToChat(id: int) returns (sent: Option<Request>)
      modifies this
      ensures FindEntry(journalMessages, id).None? ==> State() == old(State()) && sent.None?
      ensures FindEntry(journalMessages, id).Some? ==>
                && chatHistory == old(chatHistory) + [ChatMessage(User, FindEntry(journalMessages, id).value.content)]
                && State() == old(State()).(chatHistory := chatHistory)
                && sent == Some(SaveChatHistory(Some(chatHistory)))
    {
      var message := FindEntry(journalMessages, id);
      if message.None? {
        return None;
      }
      chatHistory := chatHistory + [ChatMessage(User, message.value.content)];
      sent := Some(SaveChatHistory(Some(chatHistory)));
    }

    /**
     * `addMessageToJournal`: a chat message at an index in range is appended
     * to the journal and saved; a user message while no current tab is known
     * throws before anything changes.
     */
    method AddMessageToJournal(index: int, nowMs: int, isoNow: string, panelUrl: string) returns (outcome: JournalSave)
      modifies this
      ensures !(0 <= index < |chatHistory|) ==> outcome == NoMessage && State() == old(State())
      ensures 0 <= index < |chatHistory| ==>
                var made := EntryFromChat(chatHistory[index], currentTabContext, panelUrl, nowMs, isoNow);
                && (made.None? ==> outcome == TypeErrorThrown && State() == old(State()))
                && (made.Some? ==>
                      && outcome == Saved
                      && journalMessages == old(journalMessages) + [made.value]
                      && State() == old(State()).(journalMessages := journalMessages,
                                                  storage := old(storage).(journalMessages := Some(journalMessages))))
      ensures Persisted(old(State())) ==> Persisted(State())
    {
      if !(0 <= index < |chatHistory|) {
        return NoMessage;
      }
      var message := chatHistory[index];
      var messageType := if message.role == User then Question else Quote;
      if message.role == User && currentTabContext.None? {
        return TypeErrorThrown;
      }
      var sourceTitle := if message.role == User then currentTabContext.value.title
                         else if currentTabContext.Some? then currentTabContext.value.title else "AI Response";
      var sourceUrl := if currentTabContext.Some? then currentTabContext.value.url else panelUrl;
      journalMessages := journalMessages + [JournalEntry(nowMs, messageType, message.content, Some(sourceUrl),
                                                         Some(sourceTitle), isoNow)];
      storage := storage.(journalMessages := Some(journalMessages));
      outcome := Saved;
    }

    /** `saveNewNote`: a non-empty trimmed text goes first in the notes, which are saved; an empty one is refused. */
    method SaveNewNote(text: string, nowMs: int, isoNow: string) returns (accepted: bool)
      modifies this
      ensures accepted <==> Trim(text) != ""
      ensures !accepted ==> State() == old(State())
      ensures accepted ==>
                && notes == [Note(nowMs, Trim(text), isoNow, "manual")] + old(notes)
                && State() == old(State()).(notes := notes, storage := old(storage).(notes := Some(notes)))
      ensures Persisted(old(State())) ==> Persisted(State())
    {
      var content := Trim(text);
      if content == "" {
        return false;
      }
      notes := [Note(nowMs, content, isoNow, "manual")] + notes;
      storage := storage.(notes := Some(notes));
      accepted := true;
    }

    /** `addNoteFromText`: the text goes first in the notes, which are saved. */
    method AddNoteFromText(text: string, source: string, nowMs: int, isoNow: string)
      modifies this
      ensures notes == [Note(nowMs, text, isoNow, source)] + old(notes)
      ensures State() == old(State()).(notes := notes, storage := old(storage).(notes := Some(notes)))
      ensures Persisted(old(State())) ==> Persisted(State())
    {
      notes := [Note(nowMs, text, isoNow, source)] + notes;
      storage := storage.(notes := Some(notes));
    }

    /** `deleteNote`, once confirmed. */
    method DeleteNoteById(id: int)
      modifies this
      ensures notes == DeleteNote(old(notes), id)
      ensures State() == old(State()).(notes := notes, storage := old(storage).(notes := Some(notes)))
      ensures Persisted(old(State())) ==> Persisted(State())
    {
      notes := Filter(notes, NoteLacksId(id));
      storage := storage.(notes := Some(notes));
    }

    /**
     * `saveEditedNote`: an empty trimmed text is refused; otherwise the first
     * note with the id, if any, is edited in place and the notes saved.
     */
    method SaveEditedNote(id: int, text: string, isoNow: string) returns (accepted: bool)
      modifies this
      ensures accepted <==> Trim(text) != ""
      ensures !accepted || NoteIndex(old(notes), id).None? ==> State() == old(State())
      ensures accepted && NoteIndex(old(notes), id).Some? ==>
                && notes == EditNote(old(notes), id, Trim(text), isoNow)
                && State() == old(State()).(notes := notes, storage := old(storage).(notes := Some(notes)))
      ensures Persisted(old(State())) ==> Persisted(State())
    {
      var content := Trim(text);
      if content == "" {
        return false;
      }
      accepted := true;
      var noteIndex := NoteIndex(notes, id);
      if noteIndex.Some? {
        var k := noteIndex.value;
        notes := notes[k := notes[k].(content := content, timestamp := isoNow)];
        storage := storage.(notes := Some(notes));
      }
    }

    /** `clearAllNotes`, once confirmed. */
    method ClearAllNotes()
      modifies this
      ensures State() == old(State()).(notes := [], storage := old(storage).(notes := Some([])))
      ensures Persisted(old(State())) ==> Persisted(State())
    {
      notes := [];
      storage := storage.(notes := Some([]));
    }

    /**
     * `downloadJournal`: groups the entries by day in one pass, sorts the
     * days, then appends each day's heading and entries.
     */
    method DownloadJournal(loc: Locale) returns (file: Option<Download>)
      ensures file == ExportFile(journalMessages, loc)
    {
      var entries := journalMessages;
      if |entries| == 0 {
        return None;
      }
      var content := "Snip Journal Export\n";
      content := content + "==================\n\n";
      content := content + "Exported on: " + loc.exportedOn + "\n";
      content := content + "Total entries: " + NatToString(|entries|) + "\n\n";
      assert content == ExportHeader(|entries|, loc.exportedOn);
      var dates, messagesByDate := GroupBy(entries, EntryDay(loc.dayOf));
      var sortedDates := SortBy(dates, loc.dayTime);
      forall d | d in sortedDates
        ensures d in messagesByDate && messagesByDate[d] == OnDay(entries, loc.dayOf, d)
      {
        assert d in multiset(sortedDates);
        assert d in multiset(dates);
      }
      content := AppendSections(content, entries, loc, sortedDates, messagesByDate);
      file := Some(Download("snip-journal-" + loc.isoDay + ".txt", content));
    }
  }
}
