/**
 * The older side panel (build/sidebar.js): the same session state plus the
 * legacy `contexts` list. Pinned contexts live only in memory; notes and
 * the journal are written to `chrome.storage.local`.
 */
module BuildSidebar {
  import opened Basics
  import opened Text
  import opened Types
  import opened Prompt
  import opened Session
  import opened Worker

  /** All of the panel's state, for stating what a handler leaves alone. */
  datatype PanelState = PanelState(
    contexts: seq<PageSnapshot>,
    currentTabContext: Option<PageSnapshot>,
    pinnedContexts: seq<PinnedContext>,
    chatHistory: seq<ChatMessage>,
    currentFormat: string,
    isLoading: bool,
    notes: seq<Note>,
    journalMessages: seq<JournalEntry>,
    settings: Settings,
    storage: PanelStorage)

  /** The panel as the script's top level leaves it, over whatever storage holds. */
  function Initial(stored: PanelStorage): PanelState {
    PanelState([], None, [], [], "text", false, [], [], DefaultSettings, stored)
  }

  /**
   * `loadStoredData` up to the pending-entry check: the tab reply fills the
   * legacy `contexts` list, and the history, notes and journal replace
   * theirs when they arrive.
   */
  function Loaded(s: PanelState, currentReply: Option<PageSnapshot>, historyReply: Option<seq<ChatMessage>>): PanelState {
    s.(contexts := if currentReply.Some? then [currentReply.value] else [],
       chatHistory := historyReply.GetOr(s.chatHistory),
       notes := s.storage.notes.GetOr(s.notes),
       journalMessages := s.storage.journalMessages.GetOr(s.journalMessages))
  }

  /** `checkPendingJournalEntries` on the panel's journal and storage. */
  function PendingMoved(s: PanelState, nowMs: int): PanelState {
    var m := PendingMove(JournalStore(s.journalMessages, s.storage), nowMs);
    s.(journalMessages := m.journal, storage := m.storage)
  }

  /**
   * Loading never sets the current tab or the pins: a panel opened afresh
   * has no current tab and no pins until CONTEXT_UPDATED arrives or a tab
   * is pinned, whatever storage holds.
   */
  lemma LoadLeavesCurrentAndPins(s: PanelState, currentReply: Option<PageSnapshot>,
                                 historyReply: Option<seq<ChatMessage>>, nowMs: int)
    ensures var l := PendingMoved(Loaded(s, currentReply, historyReply), nowMs);
            && l.currentTabContext == s.currentTabContext
            && l.pinnedContexts == s.pinnedContexts
            && l.contexts == (if currentReply.Some? then [currentReply.value] else [])
    ensures var l := PendingMoved(Loaded(Initial(s.storage), currentReply, historyReply), nowMs);
            l.currentTabContext.None? && l.pinnedContexts == []
  {
  }

  class Panel {
    var contexts: seq<PageSnapshot>
    var currentTabContext: Option<PageSnapshot>
    var pinnedContexts: seq<PinnedContext>
    var chatHistory: seq<ChatMessage>
    var currentFormat: string
    var isLoading: bool
    var notes: seq<Note>
    var journalMessages: seq<JournalEntry>
    var settings: Settings
    var storage: PanelStorage
    /** The texts `sendMessage` writes into the chat: always `PanelWording`. */
    const wording: Wording

    function State(): PanelState
      reads this
    {
      PanelState(contexts, currentTabContext, pinnedContexts, chatHistory, currentFormat, isLoading,
                 notes, journalMessages, settings, storage)
    }

    function ChatState(): Chat
      reads this
    {
      Chat(chatHistory, isLoading)
    }

    constructor (stored: PanelStorage)
      ensures State() == Initial(stored)
      ensures wording == PanelWording
    {
      contexts := [];
      currentTabContext := None;
      pinnedContexts := [];
      chatHistory := [];
      currentFormat := "text";
      isLoading := false;
      notes := [];
      journalMessages := [];
      settings := DefaultSettings;
      storage := stored;
      wording := PanelWording;
    }

    /** CONTEXT_UPDATED: the pushed context, or null, replaces the current tab. */
    method OnContextUpdated(context: Option<PageSnapshot>)
      modifies this
      ensures State() == old(State()).(currentTabContext := context)
    {
      currentTabContext := context;
    }

    /** A format button. */
    method SetFormat(format: string)
      modifies this
      ensures State() == old(State()).(currentFormat := format)
    {
      currentFormat := format;
    }

    /**
     * `loadStoredData`, with the replies to GET_CURRENT_TAB_CONTENT and
     * GET_CHAT_HISTORY as parameters, ending with the pending-entry check.
     */
    method LoadStoredData(currentReply: Option<PageSnapshot>, historyReply: Option<seq<ChatMessage>>, nowMs: int)
      modifies this
      ensures State() == PendingMoved(Loaded(old(State()), currentReply, historyReply), nowMs)
    {
      ghost var loaded := Loaded(State(), currentReply, historyReply);
      if currentReply.Some? {
        contexts := [currentReply.value];
      } else {
        contexts := [];
      }
      if historyReply.Some? {
        chatHistory := historyReply.value;
      }
      if storage.notes.Some? {
        notes := storage.notes.value;
      }
      if storage.journalMessages.Some? {
        journalMessages := storage.journalMessages.value;
      }
      assert State() == loaded;
      CheckPendingJournalEntries(nowMs);
    }

    /** `checkPendingJournalEntries` (also run every two seconds and on focus). */
    method CheckPendingJournalEntries(nowMs: int)
      modifies this
      ensures State() == PendingMoved(old(State()), nowMs)
    {
      var moved := PendingMove(JournalStore(journalMessages, storage), nowMs);
      journalMessages, storage := moved.journal, moved.storage;
    }

    /** `pinCurrentTab`: deduplicated by url, kept in memory only. */
    method PinCurrentTab()
      modifies this
      ensures pinnedContexts == Pin(old(pinnedContexts), currentTabContext)
      ensures State() == old(State()).(pinnedContexts := pinnedContexts)
    {
      if currentTabContext.Some? {
        var alreadyPinned := IsPinned(pinnedContexts, currentTabContext.value.url);
        if !alreadyPinned {
          pinnedContexts := pinnedContexts + [TabContext(currentTabContext.value)];
        }
      }
    }

    /** `removePinnedContext`: bounds-checked, kept in memory only. */
    method RemovePinnedContext(index: int)
      modifies this
      ensures pinnedContexts == Unpin(old(pinnedContexts), index)
      ensures State() == old(State()).(pinnedContexts := pinnedContexts)
    {
      if index >= 0 && index < |pinnedContexts| {
        pinnedContexts := pinnedContexts[..index] + pinnedContexts[index + 1..];
      }
    }

    /**
     * `clearContext`: pins and chat go, the current tab and storage stay;
     * the background is sent CLEAR_CONTEXTS and CLEAR_CHAT_HISTORY.
     */
    method ClearContext() returns (sent: seq<Request>)
      modifies this
      ensures State() == old(State()).(pinnedContexts := [], chatHistory := [])
      ensures sent == [ClearContexts, Unhandled("CLEAR_CHAT_HISTORY")]
    {
      pinnedContexts := [];
      chatHistory := [];
      sent := [ClearContexts, Unhandled("CLEAR_CHAT_HISTORY")];
    }

    /** `sendMessage` up to the `await fetch`: the same prompt as the current panel's. */
    method SendMessage(input: string) returns (step: SendStep)
      modifies this
      ensures Sent(ChatState(), step) == Send(wording, old(ChatState()), input, currentTabContext, pinnedContexts, currentFormat, settings)
      ensures State() == old(State()).(chatHistory := chatHistory, isLoading := isLoading)
    {
      var message := Trim(input);
      if message == "" || isLoading {
        return Ignored;
      }
      var contextString := ContextString(currentTabContext, pinnedContexts);
      var history := chatHistory + [ChatMessage(User, message)];
      if !HasContext(currentTabContext, pinnedContexts) {
        chatHistory, isLoading := history + [ChatMessage(Assistant, wording.noContextReply)], false;
        return AnsweredWithoutContext;
      }
      chatHistory, isLoading := history, true;
      step := Requested(RequestFor(wording, history, contextString, currentFormat, settings));
    }

    /** `sendMessage` after the `await fetch`, through its `finally`. */
    method ReceiveCompletion(outcome: Completion) returns (sent: Option<Request>)
      modifies this
      ensures ChatState() == Receive(old(ChatState()), outcome).chat
      ensures sent.Some? <==> outcome.Completed?
      ensures sent.Some? ==> sent.value == SaveChatHistory(Some(chatHistory))
      ensures State() == old(State()).(chatHistory := chatHistory, isLoading := isLoading)
    {
      sent := None;
      match outcome {
        case Completed(content) =>
          chatHistory := chatHistory + [ChatMessage(Assistant, content)];
          sent := Some(SaveChatHistory(Some(chatHistory)));
        case HttpError(status) =>
          chatHistory := chatHistory + [ChatMessage(Assistant, ErrorText("LM Studio API error: " + NatToString(status)))];
        case Threw(message) =>
          chatHistory := chatHistory + [ChatMessage(Assistant, ErrorText(message))];
      }
      isLoading := false;
    }

    /** `saveNewNote`: a non-empty trimmed text goes first in the notes, which are saved; an empty one is refused. */
    method SaveNewNote(text: string, nowMs: int, isoNow: string) returns (accepted: bool)
      modifies this
      ensures accepted <==> Trim(text) != ""
      ensures !accepted ==> State() == old(State())
      ensures accepted ==>
                && notes == [Note(nowMs, Trim(text), isoNow, "manual")] + old(notes)
                && State() == old(State()).(notes := notes, storage := old(storage).(notes := Some(notes)))
    {
      var content := Trim(text);
      if content == "" {
        return false;
      }
      notes := [Note(nowMs, content, isoNow, "manual")] + notes;
      storage := storage.(notes := Some(notes));
      accepted := true;
    }

    /** `addNoteFromText`: the text goes first in the notes, which are saved. */
    method AddNoteFromText(text: string, source: string, nowMs: int, isoNow: string)
      modifies this
      ensures notes == [Note(nowMs, text, isoNow, source)] + old(notes)
      ensures State() == old(State()).(notes := notes, storage := old(storage).(notes := Some(notes)))
    {
      notes := [Note(nowMs, text, isoNow, source)] + notes;
      storage := storage.(notes := Some(notes));
    }

    /** `deleteNote`, once confirmed. */
    method DeleteNoteById(id: int)
      modifies this
      ensures notes == DeleteNote(old(notes), id)
      ensures State() == old(State()).(notes := notes, storage := old(storage).(notes := Some(notes)))
    {
      notes := Filter(notes, NoteLacksId(id));
      storage := storage.(notes := Some(notes));
    }

    /**
     * `saveEditedNote`: an empty trimmed text is refused; otherwise the first
     * note with the id, if any, is edited in place and the notes saved.
     */
    method SaveEditedNote(id: int, text: string, isoNow: string) returns (accepted: bool)
      modifies this
      ensures accepted <==> Trim(text) != ""
      ensures !accepted || NoteIndex(old(notes), id).None? ==> State() == old(State())
      ensures accepted && NoteIndex(old(notes), id).Some? ==>
                && notes == EditNote(old(notes), id, Trim(text), isoNow)
                && State() == old(State()).(notes := notes, storage := old(storage).(notes := Some(notes)))
    {
      var content := Trim(text);
      if content == "" {
        return false;
      }
      accepted := true;
      var noteIndex := NoteIndex(notes, id);
      if noteIndex.Some? {
        var k := noteIndex.value;
        notes := notes[k := notes[k].(content := content, timestamp := isoNow)];
        storage := storage.(notes := Some(notes));
      }
    }

    /** `clearAllNotes`, once confirmed. */
    method ClearAllNotes()
      modifies this
      ensures State() == old(State()).(notes := [], storage := old(storage).(notes := Some([])))
    {
      notes := [];
      storage := storage.(notes := Some([]));
    }

    /**
     * `saveMessageToNotepad`: only an assistant message at an index in range
     * becomes a note, first in the list, with source "AI response".
     */
    method SaveMessageToNotepad(index: int, nowMs: int, isoNow: string) returns (saved: bool)
      modifies this
      ensures saved <==> 0 <= index < |old(chatHistory)| && old(chatHistory)[index].role == Assistant
      ensures !saved ==> State() == old(State())
      ensures saved ==>
                && notes == [Note(nowMs, old(chatHistory)[index].content, isoNow, "AI response")] + old(notes)
                && State() == old(State()).(notes := notes, storage := old(storage).(notes := Some(notes)))
    {
      if !(0 <= index < |chatHistory|) || chatHistory[index].role != Assistant {
        return false;
      }
      AddNoteFromText(chatHistory[index].content, "AI response", nowMs, isoNow);
      saved := true;
    }
  }
}
