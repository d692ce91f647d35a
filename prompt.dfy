/**
 * The prompt the side panel sends to the local model (`sendMessage`, the same
 * code in public/sidebar.js and build/sidebar.js): the context string built
 * from the current tab and the pinned contexts, the system message, the
 * request, and the two halves of the exchange around the `await fetch`.
 */
module Prompt {
  import opened Basics
  import opened Text
  import opened Types

  const CurrentContentLimit: nat := 3000
  const PinnedContentLimit: nat := 2000
  const HistoryWindow: nat := 10
  const PinnedSeparator: string := "\n\n---\n\n"
  const CurrentHeader: string := "CURRENT TAB (what user is referring to by default):\n"
  const PinnedHeader: string := "PINNED TABS:\n"
  const ModelName: string := "local-model"
  const Temperature: real := 0.7

  /** The current-tab block; its content is cut to 3000 characters and always followed by "...". */
  function CurrentBlock(page: PageSnapshot): string {
    CurrentHeader + "URL: " + page.url + "\n" + "Title: " + page.title + "\n"
    + "Content: " + Take(page.content, CurrentContentLimit) + "...\n\n"
  }

  /** One pinned context; its content is cut to 2000 characters and always followed by "...". */
  function PinnedEntry(ctx: PinnedContext): string {
    "URL: " + ctx.Url() + "\nTitle: " + ctx.Title() + "\nContent: " + Take(ctx.Content(), PinnedContentLimit) + "..."
  }

  function PinnedEntries(pinned: seq<PinnedContext>): (r: seq<string>)
    ensures |r| == |pinned|
    ensures forall i :: 0 <= i < |pinned| ==> r[i] == PinnedEntry(pinned[i])
  {
    seq(|pinned|, i requires 0 <= i < |pinned| => PinnedEntry(pinned[i]))
  }

  function PinnedBlock(pinned: seq<PinnedContext>): string {
    PinnedHeader + Join(PinnedEntries(pinned), PinnedSeparator)
  }

  /** `hasContext`: a current tab is known or something is pinned. */
  predicate HasContext(current: Option<PageSnapshot>, pinned: seq<PinnedContext>) {
    current.Some? || |pinned| > 0
  }

  /**
   * The context string: the current-tab block, if any, then the pinned
   * block, if any. It is empty exactly when there is no context.
   */
  function ContextString(current: Option<PageSnapshot>, pinned: seq<PinnedContext>): (r: string)
    ensures r == "" <==> !HasContext(current, pinned)
  {
    (if current.Some? then CurrentBlock(current.value) else "")
    + (if |pinned| > 0 then PinnedBlock(pinned) else "")
  }

  /**
   * The current tab comes first, at the very start of the string; the pinned
   * block starts right where the current block ends.
   */
  lemma ContextLayout(current: Option<PageSnapshot>, pinned: seq<PinnedContext>)
    ensures current.Some? ==> OccursAt(ContextString(current, pinned), CurrentHeader, 0)
    ensures |pinned| > 0 ==>
              OccursAt(ContextString(current, pinned), PinnedHeader,
                       if current.Some? then |CurrentBlock(current.value)| else 0)
  {
    var s := ContextString(current, pinned);
    if current.Some? {
      assert s[..|CurrentHeader|] == CurrentHeader;
    }
    if |pinned| > 0 {
      var a := if current.Some? then CurrentBlock(current.value) else "";
      assert s == a + PinnedHeader + Join(PinnedEntries(pinned), PinnedSeparator);
      assert s[|a|..|a| + |PinnedHeader|] == PinnedHeader;
    }
  }

  /**
   * Each block ends with the first min(limit, length) characters of its
   * content followed by "...", whether or not anything was cut.
   */
  lemma TruncatedContent(page: PageSnapshot, ctx: PinnedContext)
    ensures var n := if |page.content| < CurrentContentLimit then |page.content| else CurrentContentLimit;
            HasSuffix(CurrentBlock(page), "Content: " + page.content[..n] + "...\n\n")
    ensures var n := if |ctx.Content()| < PinnedContentLimit then |ctx.Content()| else PinnedContentLimit;
            HasSuffix(PinnedEntry(ctx), "Content: " + ctx.Content()[..n] + "...")
  {
    var t := "Content: " + Take(page.content, CurrentContentLimit) + "...\n\n";
    var b := CurrentHeader + "URL: " + page.url + "\n" + "Title: " + page.title + "\n";
    assert CurrentBlock(page) == b + t;
    var u := "Content: " + Take(ctx.Content(), PinnedContentLimit) + "...";
    var c := "URL: " + ctx.Url() + "\nTitle: " + ctx.Title() + "\n";
    assert PinnedEntry(ctx) == c + u;
  }

  /** Pinning one more context adds the separator and its entry at the end of the pinned block. */
  lemma PinnedBlockSnoc(pinned: seq<PinnedContext>, ctx: PinnedContext)
    requires pinned != []
    ensures PinnedBlock(pinned + [ctx]) == PinnedBlock(pinned) + PinnedSeparator + PinnedEntry(ctx)
  {
    assert PinnedEntries(pinned + [ctx]) == PinnedEntries(pinned) + [PinnedEntry(ctx)];
    JoinSnoc(PinnedEntries(pinned), PinnedEntry(ctx), PinnedSeparator);
  }

  /** Two pages that agree on everything the current-tab block shows. */
  predicate SameVisiblePage(a: PageSnapshot, b: PageSnapshot) {
    a.url == b.url && a.title == b.title
    && Take(a.content, CurrentContentLimit) == Take(b.content, CurrentContentLimit)
  }

  /** Two pinned contexts that agree on everything their entry shows. */
  predicate SameVisiblePin(a: PinnedContext, b: PinnedContext) {
    a.Url() == b.Url() && a.Title() == b.Title()
    && Take(a.Content(), PinnedContentLimit) == Take(b.Content(), PinnedContentLimit)
  }

  /**
   * Content past the cut never reaches the model: contexts that agree on
   * their urls, titles and first 3000 (current) or 2000 (pinned) characters
   * yield the same context string.
   */
  lemma {:induction false} ContextIgnoresTail(current: Option<PageSnapshot>, current': Option<PageSnapshot>,
                                              pinned: seq<PinnedContext>, pinned': seq<PinnedContext>)
    requires current.Some? <==> current'.Some?
    requires current.Some? ==> SameVisiblePage(current.value, current'.value)
    requires |pinned| == |pinned'|
    requires forall i :: 0 <= i < |pinned| ==> SameVisiblePin(pinned[i], pinned'[i])
    ensures ContextString(current, pinned) == ContextString(current', pinned')
  {
    var e, e' := PinnedEntries(pinned), PinnedEntries(pinned');
    forall i | 0 <= i < |pinned| ensures e[i] == e'[i] {
      assert SameVisiblePin(pinned[i], pinned'[i]);
    }
    assert e == e';
  }

  /** The `formatInstructions` table of sendMessage. */
  const FormatInstructions: map<string, string> := map[
    "text" := "Respond in plain text format.",
    "json" := "Respond in valid JSON format.",
    "table" := "Respond in markdown table format when appropriate."]

  const SystemPreamble: string :=
    "You are an AI assistant that helps users analyze and understand content from their browser tabs and visited pages. \n\n"

  const SystemGuidance: string :=
    "\n\nWhen users ask questions like \"summarize this\", \"what's the main point\", \"explain this\", etc., "
    + "they are referring to the CURRENT TAB content by default. Only reference additional context when "
    + "explicitly asked or when it's clearly relevant.\n\nContext from user's tabs and pages:\n"

  const SystemClosing: string :=
    "\n\nPlease provide helpful, accurate responses based on the context provided. Focus on the current tab "
    + "content unless the user specifically asks about other pages."

  const NoContextReply: string :=
    "I don't have any context from your current tab or pinned pages. This could happen if:\n\n"
    + "1. The page is still loading\n"
    + "2. The page doesn't allow content extraction (like some chrome:// pages)\n"
    + "3. There was an error getting the page content\n\n"
    + "Try:\n"
    + "- Refreshing the page and asking again\n"
    + "- Adding context by pinning tabs using the + button\n"
    + "- Navigating to a different webpage\n\n"
    + "You can still ask general questions, but I won't have specific page context to reference."

  /**
   * The fixed texts of a chat turn: the system message around the response
   * style and the context, the format instructions, and the reply given when
   * there is no context. A panel holds `PanelWording`.
   */
  datatype Wording = Wording(
    preamble: string,
    guidance: string,
    closing: string,
    formatInstructions: map<string, string>,
    noContextReply: string)

  const PanelWording: Wording :=
    Wording(SystemPreamble, SystemGuidance, SystemClosing, FormatInstructions, NoContextReply)

  /** `formatInstructions[currentFormat]`; a key the table lacks reads as "undefined". */
  function FormatInstruction(w: Wording, format: string): (r: string)
    ensures format in w.formatInstructions ==> r == w.formatInstructions[format]
    ensures format !in w.formatInstructions ==> r == "undefined"
  {
    if format in w.formatInstructions then w.formatInstructions[format] else "undefined"
  }

  function SystemMessage(w: Wording, responseStyle: string, context: string, format: string): string {
    w.preamble + responseStyle + w.guidance + context + "\n\n" + FormatInstruction(w, format) + w.closing
  }

  /**
   * The system message carries the response style, the whole context string
   * and the format instruction verbatim, in that order, at fixed offsets.
   */
  lemma SystemMessageCarries(w: Wording, responseStyle: string, context: string, format: string)
    ensures var m := SystemMessage(w, responseStyle, context, format);
            var c := |w.preamble| + |responseStyle| + |w.guidance|;
            && OccursAt(m, responseStyle, |w.preamble|)
            && OccursAt(m, context, c)
            && OccursAt(m, FormatInstruction(w, format), c + |context| + 2)
  {
    var f := FormatInstruction(w, format);
    var a := w.preamble + responseStyle;
    var b := a + w.guidance + context;
    var c := b + "\n\n" + f;
    OccursAtEnd(w.preamble, responseStyle);
    OccursAtExtend(a, responseStyle, |w.preamble|, w.guidance);
    OccursAtExtend(a + w.guidance, responseStyle, |w.preamble|, context);
    OccursAtExtend(b, responseStyle, |w.preamble|, "\n\n");
    OccursAtExtend(b + "\n\n", responseStyle, |w.preamble|, f);
    OccursAtExtend(c, responseStyle, |w.preamble|, w.closing);
    OccursAtEnd(a + w.guidance, context);
    OccursAtExtend(b, context, |a + w.guidance|, "\n\n");
    OccursAtExtend(b + "\n\n", context, |a + w.guidance|, f);
    OccursAtExtend(c, context, |a + w.guidance|, w.closing);
    OccursAtEnd(b + "\n\n", f);
    OccursAtExtend(c, f, |b + "\n\n"|, w.closing);
  }

  const ErrorHint: string := ". Please make sure LM Studio is running on http://localhost:1234"

  /** The body of the POST to `settings.apiEndpoint`. */
  datatype ChatRequest = ChatRequest(
    endpoint: string,
    model: string,
    messages: seq<ChatMessage>,
    temperature: real,
    maxTokens: int)

  /** How the `await fetch` ends: a parsed answer, a non-ok status, or a thrown error with its message. */
  datatype Completion = Completed(content: string) | HttpError(status: nat) | Threw(message: string)

  /** The text of the error message shown for a failed exchange. */
  function ErrorText(message: string): (r: string)
    ensures StartsWith(r, "Error: ") && HasSuffix(r, ErrorHint)
    ensures |r| == |"Error: "| + |message| + |ErrorHint|
  {
    var r := "Error: " + message + ErrorHint;
    assert r[..7] == "Error: ";
    assert r[|r| - |ErrorHint|..] == ErrorHint;
    r
  }

  /**
   * The one assistant message an exchange ends with: the answer on success,
   * and otherwise "Error: <message>. Please make sure LM Studio is running
   * ...", where a non-ok status reads "LM Studio API error: <status>".
   */
  function ReplyFor(o: Completion): (m: ChatMessage)
    ensures m.role == Assistant
    ensures o.Completed? ==> m.content == o.content
    ensures o.HttpError? ==> m.content == ErrorText("LM Studio API error: " + NatToString(o.status))
    ensures o.Threw? ==> m.content == ErrorText(o.message)
  {
    match o
    case Completed(content) => ChatMessage(Assistant, content)
    case HttpError(status) => ChatMessage(Assistant, ErrorText("LM Studio API error: " + NatToString(status)))
    case Threw(message) => ChatMessage(Assistant, ErrorText(message))
  }

  /** The panel's chat state: `chatHistory` and `isLoading`. */
  datatype Chat = Chat(history: seq<ChatMessage>, loading: bool)

  datatype SendStep = Ignored | AnsweredWithoutContext | Requested(request: ChatRequest)

  datatype Sent = Sent(chat: Chat, step: SendStep)

  /**
   * The POST body for a history that already ends with the user's message:
   * the system message, then the last ten messages.
   */
  function RequestFor(w: Wording, history: seq<ChatMessage>, context: string, format: string,
                      settings: Settings): ChatRequest
  {
    ChatRequest(settings.apiEndpoint, ModelName,
                [ChatMessage(System, SystemMessage(w, settings.responseStyle, context, format))]
                + LastN(history, HistoryWindow),
                Temperature, settings.maxTokens)
  }

  /** What the panel sends when the user submits `input`, up to the `await fetch`. */
  function Send(w: Wording, c: Chat, input: string, current: Option<PageSnapshot>, pinned: seq<PinnedContext>,
                format: string, settings: Settings): Sent
  {
    var message := Trim(input);
    if message == "" || c.loading then Sent(c, Ignored)
    else
      var history := c.history + [ChatMessage(User, message)];
      var context := ContextString(current, pinned);
      if !HasContext(current, pinned) then
        Sent(Chat(history + [ChatMessage(Assistant, w.noContextReply)], false), AnsweredWithoutContext)
      else
        Sent(Chat(history, true), Requested(RequestFor(w, history, context, format, settings)))
  }

  /**
   * A blank or mid-request submission changes nothing; without any context
   * the reply is the fixed hint and the panel stays idle; otherwise the
   * user's message is appended, the panel is loading, and the request holds
   * the system message followed by the recent history.
   */
  lemma SendOutcome(w: Wording, c: Chat, input: string, current: Option<PageSnapshot>, pinned: seq<PinnedContext>,
                    format: string, settings: Settings)
    ensures var r := Send(w, c, input, current, pinned, format, settings);
            && (Trim(input) == "" || c.loading ==> r == Sent(c, Ignored))
            && (Trim(input) != "" && !c.loading && !HasContext(current, pinned) ==>
                  && r.chat == Chat(c.history + [ChatMessage(User, Trim(input)), ChatMessage(Assistant, w.noContextReply)], false)
                  && r.step == AnsweredWithoutContext)
            && (Trim(input) != "" && !c.loading && HasContext(current, pinned) ==>
                  && r.chat == Chat(c.history + [ChatMessage(User, Trim(input))], true)
                  && r.step.Requested?)
            && (r.step.Requested? ==>
                  && r.step.request.messages
                       == [ChatMessage(System, SystemMessage(w, settings.responseStyle, ContextString(current, pinned), format))]
                          + LastN(r.chat.history, HistoryWindow)
                  && r.step.request.endpoint == settings.apiEndpoint
                  && r.step.request.model == ModelName
                  && r.step.request.temperature == Temperature
                  && r.step.request.maxTokens == settings.maxTokens)
  {
  }

  datatype Received = Received(chat: Chat, saved: Option<seq<ChatMessage>>)

  /**
   * The continuation after the `await fetch`: exactly one assistant message
   * is appended, SAVE_CHAT_HISTORY carries the new history only on success,
   * and `finally` clears `isLoading`.
   */
  function Receive(c: Chat, o: Completion): (r: Received)
    ensures r.chat == Chat(c.history + [ReplyFor(o)], false)
    ensures r.saved.Some? <==> o.Completed?
    ensures r.saved.Some? ==> r.saved.value == r.chat.history
  {
    var history := c.history + [ReplyFor(o)];
    Received(Chat(history, false), if o.Completed? then Some(history) else None)
  }

  /**
   * The request holds the system message and then the last ten messages of
   * the history, the one just typed last: at most eleven messages.
   */
  lemma RequestWindow(w: Wording, c: Chat, input: string, current: Option<PageSnapshot>, pinned: seq<PinnedContext>,
                      format: string, settings: Settings)
    requires Send(w, c, input, current, pinned, format, settings).step.Requested?
    ensures var m := Send(w, c, input, current, pinned, format, settings).step.request.messages;
            && |m| <= HistoryWindow + 1
            && m[0].role == System
            && m[1..] == LastN(c.history, HistoryWindow - 1) + [ChatMessage(User, Trim(input))]
  {
    SendOutcome(w, c, input, current, pinned, format, settings);
    LastNAppend(c.history, ChatMessage(User, Trim(input)), HistoryWindow);
  }

  /**
   * Whatever the model does, one submission from an idle panel ends idle,
   * having added nothing (ignored) or exactly the user's message followed by
   * one assistant message.
   */
  lemma SendCycleEndsIdle(w: Wording, c: Chat, input: string, current: Option<PageSnapshot>, pinned: seq<PinnedContext>,
                          format: string, settings: Settings, o: Completion)
    requires !c.loading
    ensures var s := Send(w, c, input, current, pinned, format, settings);
            var after := if s.step.Requested? then Receive(s.chat, o).chat else s.chat;
            && !after.loading
            && (s.step.Ignored? ==> after == c)
            && (!s.step.Ignored? ==>
                  && |after.history| == |c.history| + 2
                  && after.history[..|c.history| + 1] == c.history + [ChatMessage(User, Trim(input))]
                  && after.history[|c.history| + 1].role == Assistant)
  {
    SendOutcome(w, c, input, current, pinned, format, settings);
    var s := Send(w, c, input, current, pinned, format, settings);
    if s.step.Requested? {
      var after := Receive(s.chat, o).chat;
      assert after.history == c.history + [ChatMessage(User, Trim(input))] + [ReplyFor(o)];
    }
  }
}
