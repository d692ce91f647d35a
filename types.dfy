/**
 * The records the extension passes between its background worker, its side
 * panel and the pages: page snapshots, chat messages, journal entries, notes
 * and settings.
 */
module Types {
  import opened Basics

  /** JavaScript truthiness of an optional string: present and not empty. */
  predicate Present(o: Option<string>) {
    o.Some? && o.value != ""
  }

  /**
   * What the content script extracts from a page. `timestamp` is the
   * millisecond clock reading taken at extraction.
   */
  datatype PageSnapshot = PageSnapshot(
    url: string,
    title: string,
    content: string,
    favicon: Option<string>,
    timestamp: int)

  /** A browser tab as chrome.tabs reports it; an absent url is the empty string. */
  datatype Tab = Tab(id: int, url: string, title: string)

  datatype Role = System | User | Assistant

  datatype ChatMessage = ChatMessage(role: Role, content: string)

  /** The `type` of a journal entry: typed by the user, a quote, or a question. */
  datatype JournalKind = UserNote | Quote | Question

  /**
   * A journal entry; `id` is the millisecond clock reading at creation and
   * `timestamp` an ISO-8601 string. Absent source fields are None.
   */
  datatype JournalEntry = JournalEntry(
    id: int,
    kind: JournalKind,
    content: string,
    sourceUrl: Option<string>,
    sourceTitle: Option<string>,
    timestamp: string)

  /** The `pendingJournalEntry` record the background leaves in storage for the panel. */
  datatype PendingJournalEntry = PendingJournalEntry(
    kind: JournalKind,
    content: string,
    sourceUrl: Option<string>,
    sourceTitle: Option<string>,
    timestamp: string)

  datatype Note = Note(id: int, content: string, timestamp: string, source: string)

  const JournalContextId: string := "journal-context"
  const JournalContextUrl: string := "internal://journal"

  /**
   * An entry of the panel's pinned list: a copy of a tab snapshot, or the one
   * synthetic aggregate of the journal (id "journal-context").
   */
  datatype PinnedContext =
    | TabContext(page: PageSnapshot)
    | JournalContext(title: string, content: string, size: string)
  {
    function Url(): string {
      if TabContext? then page.url else JournalContextUrl
    }
    function Title(): string {
      if TabContext? then page.title else title
    }
    function Content(): string {
      if TabContext? then page.content else content
    }
  }

  datatype Settings = Settings(
    responseStyle: string,
    apiEndpoint: string,
    maxTokens: int,
    renderMarkdown: bool)

  const DefaultSettings: Settings := Settings(
    "Be concise and direct. Avoid unnecessary elaboration.",
    "http://localhost:1234/v1/chat/completions",
    1000,
    false)
}
