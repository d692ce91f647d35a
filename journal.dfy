/**
 * The journal of the current side panel (public/sidebar.js) as values:
 * search, delete by id, the aggregate pinned as context, and the text of the
 * exported file. Clock and locale formatting are parameters.
 */
module Journal {
  import opened Basics
  import opened Text
  import opened Types

  /**
   * The clock and locale readings the journal code takes from `Date`:
   * `dayOf` is `toDateString()` of an entry timestamp, `dayTime` the
   * `getTime()` of such a day string, `longDate` its long en-US form,
   * `timeOf` the en-US time of an entry timestamp, `shortDate` its
   * `toLocaleDateString()`, `exportedOn` the `toLocaleString()` of now and
   * `isoDay` the date part of now's `toISOString()`.
   */
  datatype Locale = Locale(
    dayOf: string -> string,
    dayTime: string -> int,
    longDate: string -> string,
    timeOf: string -> string,
    shortDate: string -> string,
    exportedOn: string,
    isoDay: string)

  /** Whether an entry matches an already lower-cased term. */
  predicate Matches(e: JournalEntry, term: string) {
    || Contains(Lower(e.content), term)
    || (Present(e.sourceTitle) && Contains(Lower(e.sourceTitle.value), term))
    || (Present(e.sourceUrl) && Contains(Lower(e.sourceUrl.value), term))
  }

  function MatchesTerm(term: string): JournalEntry -> bool {
    e => Matches(e, term)
  }

  /**
   * `performJournalSearch`: the entries, in their order, whose content, or
   * present source title or url, contains the lower-cased term once
   * lower-cased itself.
   */
  function Search(entries: seq<JournalEntry>, searchTerm: string): (r: seq<JournalEntry>)
    ensures |r| <= |entries|
    ensures forall i :: 0 <= i < |r| ==> r[i] in entries && Matches(r[i], Lower(searchTerm))
    ensures forall i :: 0 <= i < |entries| && Matches(entries[i], Lower(searchTerm)) ==> entries[i] in r
  {
    Filter(entries, MatchesTerm(Lower(searchTerm)))
  }

  /** Searching a journal in two parts finds the hits of the first part, then those of the second. */
  lemma SearchAppend(a: seq<JournalEntry>, b: seq<JournalEntry>, searchTerm: string)
    ensures Search(a + b, searchTerm) == Search(a, searchTerm) + Search(b, searchTerm)
  {
    FilterAppend(a, b, MatchesTerm(Lower(searchTerm)));
  }

  /** The search ignores the case of the term. */
  lemma SearchIgnoresCase(entries: seq<JournalEntry>, searchTerm: string)
    ensures Search(entries, Lower(searchTerm)) == Search(entries, searchTerm)
  {
    LowerIdempotent(searchTerm);
  }

  /** An empty term matches every entry. */
  lemma SearchEmptyTermKeepsAll(entries: seq<JournalEntry>)
    ensures Search(entries, "") == entries
  {
    forall i | 0 <= i < |entries| ensures MatchesTerm("")(entries[i]) {
      assert OccursAt(Lower(entries[i].content), "", 0);
    }
    FilterAll(entries, MatchesTerm(""));
  }

  function HasId(id: int): JournalEntry -> bool {
    (e: JournalEntry) => e.id == id
  }

  function LacksId(id: int): JournalEntry -> bool {
    (e: JournalEntry) => e.id != id
  }

  /**
   * `deleteJournalMessage`: every entry with the id goes and every other
   * entry stays, in order.
   */
  function DeleteEntry(entries: seq<JournalEntry>, id: int): (r: seq<JournalEntry>)
    ensures forall i :: 0 <= i < |r| ==> r[i] in entries && r[i].id != id
    ensures forall i :: 0 <= i < |entries| && entries[i].id != id ==> entries[i] in r
  {
    Filter(entries, LacksId(id))
  }

  /** Deleting from a concatenation deletes from each part: the kept entries stay in order. */
  lemma DeleteEntryAppend(a: seq<JournalEntry>, b: seq<JournalEntry>, id: int)
    ensures DeleteEntry(a + b, id) == DeleteEntry(a, id) + DeleteEntry(b, id)
  {
    FilterAppend(a, b, LacksId(id));
  }

  /** Exactly as many entries go as carry the id. */
  lemma {:induction false} DeleteEntryCount(entries: seq<JournalEntry>, id: int)
    ensures |DeleteEntry(entries, id)| == |entries| - CountIf(entries, HasId(id))
    decreases |entries|
  {
    if entries != [] {
      DeleteEntryCount(entries[1..], id);
    }
  }

  /** Deleting twice is deleting once. */
  lemma DeleteEntryIdempotent(entries: seq<JournalEntry>, id: int)
    ensures DeleteEntry(DeleteEntry(entries, id), id) == DeleteEntry(entries, id)
  {
    var r := DeleteEntry(entries, id);
    FilterAll(r, LacksId(id));
  }

  /** Deleting an entry just added under a fresh id gives back the journal before it. */
  lemma DeleteUndoesAppend(entries: seq<JournalEntry>, e: JournalEntry)
    requires forall i :: 0 <= i < |entries| ==> entries[i].id != e.id
    ensures DeleteEntry(entries + [e], e.id) == entries
  {
    FilterAppend(entries, [e], LacksId(e.id));
    FilterAll(entries, LacksId(e.id));
  }

  /** `journalMessages.find(msg => msg.id === id)`: the first entry with the id. */
  function FindEntry(entries: seq<JournalEntry>, id: int): (r: Option<JournalEntry>)
    ensures r.None? <==> forall i :: 0 <= i < |entries| ==> entries[i].id != id
    ensures r.Some? ==> r.value.id == id
    ensures r.Some? ==> exists i :: && 0 <= i < |entries| && entries[i] == r.value
                                  && forall j :: 0 <= j < i ==> entries[j].id != id
    decreases |entries|
  {
    if entries == [] then None
    else if entries[0].id == id then Some(entries[0])
    else
      var r := FindEntry(entries[1..], id);
      assert forall i :: 0 <= i < |entries| - 1 ==> entries[1..][i] == entries[i + 1];
      r
  }

  /**
   * The entry `addMessageToJournal` makes from a chat message: a question
   * for a user message, a quote otherwise, with the current tab's url (or
   * the panel's own url) and title. A user message while no current tab is
   * known has no entry: reading `currentTabContext.title` throws.
   */
  function EntryFromChat(m: ChatMessage, current: Option<PageSnapshot>, panelUrl: string,
                         nowMs: int, isoNow: string): (r: Option<JournalEntry>)
    ensures r.None? <==> m.role == User && current.None?
    ensures r.Some? ==>
              && r.value.id == nowMs && r.value.content == m.content && r.value.timestamp == isoNow
              && (r.value.kind == Question <==> m.role == User)
              && (r.value.kind == Quote <==> m.role != User)
              && r.value.sourceUrl == Some(if current.Some? then current.value.url else panelUrl)
              && r.value.sourceTitle == Some(if current.Some? then current.value.title else "AI Response")
  {
    if m.role == User && current.None? then None
    else
      var kind := if m.role == User then Question else Quote;
      var title := if m.role == User then current.value.title
                   else if current.Some? then current.value.title else "AI Response";
      var url := if current.Some? then current.value.url else panelUrl;
      Some(JournalEntry(nowMs, kind, m.content, Some(url), Some(title), isoNow))
  }

  /**
   * The entry the panel's Ctrl+J shortcut makes from the panel's own
   * selection (None when nothing is selected or the selection is
   * collapsed): a quote of the trimmed text. Its url and title come from
   * the current tab where those are non-empty, and from the panel page's
   * own location and document title otherwise. A selection of white space
   * only makes no entry.
   */
  function SelectionEntry(selection: Option<string>, current: Option<PageSnapshot>,
                          pageUrl: string, pageTitle: string, nowMs: int, isoNow: string): (r: Option<JournalEntry>)
    ensures r.None? <==> selection.None? || forall i :: 0 <= i < |selection.value| ==> IsSpace(selection.value[i])
    ensures r.Some? ==>
              && r.value.id == nowMs && r.value.kind == Quote && r.value.timestamp == isoNow
              && r.value.content == Trim(selection.value)
              && r.value.content != [] && !IsSpace(r.value.content[0]) && !IsSpace(r.value.content[|r.value.content| - 1])
              && r.value.sourceUrl == Some(if current.Some? && current.value.url != "" then current.value.url else pageUrl)
              && r.value.sourceTitle == Some(if current.Some? && current.value.title != "" then current.value.title else pageTitle)
  {
    if selection.None? then None
    else
      var text := Trim(selection.value);
      TrimEmpty(selection.value);
      TrimShape(selection.value);
      if text == [] then None
      else
        var url := if current.Some? && current.value.url != "" then current.value.url else pageUrl;
        var title := if current.Some? && current.value.title != "" then current.value.title else pageTitle;
        Some(JournalEntry(nowMs, Quote, text, Some(url), Some(title), isoNow))
  }

  /** A selection with white space around it is quoted exactly like the bare selection. */
  lemma SelectionEntryIgnoresPadding(c: char, text: string, d: char, current: Option<PageSnapshot>,
                                     pageUrl: string, pageTitle: string, nowMs: int, isoNow: string)
    requires IsSpace(c) && IsSpace(d)
    ensures SelectionEntry(Some([c] + text + [d]), current, pageUrl, pageTitle, nowMs, isoNow)
         == SelectionEntry(Some(text), current, pageUrl, pageTitle, nowMs, isoNow)
  {
    TrimIgnoresPadding(c, text, d);
  }

  /** The source line of the aggregate, present only when both title and url are. */
  function AggregateSource(e: JournalEntry): string {
    if Present(e.sourceTitle) && Present(e.sourceUrl) then
      "\nSource: " + e.sourceTitle.value + " (" + e.sourceUrl.value + ")"
    else ""
  }

  /** One entry of the aggregate: its date and content, then its source when it has both parts. */
  function AggregateEntry(e: JournalEntry, shortDate: string -> string): (r: string)
    ensures StartsWith(r, "[" + shortDate(e.timestamp) + "] " + e.content)
    ensures Present(e.sourceTitle) && Present(e.sourceUrl) ==>
              HasSuffix(r, "\nSource: " + e.sourceTitle.value + " (" + e.sourceUrl.value + ")")
    ensures !(Present(e.sourceTitle) && Present(e.sourceUrl)) ==> r == "[" + shortDate(e.timestamp) + "] " + e.content
  {
    var head := "[" + shortDate(e.timestamp) + "] " + e.content;
    var r := head + AggregateSource(e);
    assert r[..|head|] == head;
    assert r[|r| - |AggregateSource(e)|..] == AggregateSource(e);
    r
  }

  function AggregateEntries(entries: seq<JournalEntry>, shortDate: string -> string): (r: seq<string>)
    ensures |r| == |entries|
    ensures forall i :: 0 <= i < |entries| ==> r[i] == AggregateEntry(entries[i], shortDate)
  {
    seq(|entries|, i requires 0 <= i < |entries| => AggregateEntry(entries[i], shortDate))
  }

  /**
   * The context `addJournalToContext` pins: titled with the entry count, at
   * url internal://journal, its content the entries joined by blank lines.
   */
  function AggregateContext(entries: seq<JournalEntry>, shortDate: string -> string): (r: PinnedContext)
    ensures r.JournalContext? && r.Url() == JournalContextUrl
    ensures r.Title() == "Journal (" + NatToString(|entries|) + " entries)"
    ensures r.size == NatToString(|entries|) + " entries"
  {
    JournalContext("Journal (" + NatToString(|entries|) + " entries)",
                   Join(AggregateEntries(entries, shortDate), "\n\n"),
                   NatToString(|entries|) + " entries")
  }

  /** One more journal entry adds a blank line and that entry's text at the end of the aggregate. */
  lemma AggregateSnoc(entries: seq<JournalEntry>, e: JournalEntry, shortDate: string -> string)
    requires entries != []
    ensures AggregateContext(entries + [e], shortDate).Content()
         == AggregateContext(entries, shortDate).Content() + "\n\n" + AggregateEntry(e, shortDate)
  {
    assert AggregateEntries(entries + [e], shortDate) == AggregateEntries(entries, shortDate) + [AggregateEntry(e, shortDate)];
    JoinSnoc(AggregateEntries(entries, shortDate), AggregateEntry(e, shortDate), "\n\n");
  }

  /** The aggregate of a one-entry journal is that entry's text alone. */
  lemma AggregateSingle(e: JournalEntry, shortDate: string -> string)
    ensures AggregateContext([e], shortDate).Content() == AggregateEntry(e, shortDate)
  {
    assert AggregateEntries([e], shortDate) == [AggregateEntry(e, shortDate)];
  }

  // ---- export ----

  const ExportRule: string := "=================================================="

  function ExportHeader(count: nat, exportedOn: string): string {
    "Snip Journal Export\n" + "==================\n\n" + "Exported on: " + exportedOn + "\n"
    + "Total entries: " + NatToString(count) + "\n\n"
  }

  /** The day an entry falls on, as `new Date(timestamp).toDateString()` names it. */
  function EntryDay(dayOf: string -> string): JournalEntry -> string {
    (e: JournalEntry) => dayOf(e.timestamp)
  }

  /** The keys of `messagesByDate`: each day once, in order of first appearance. */
  function DayKeys(entries: seq<JournalEntry>, dayOf: string -> string): seq<string> {
    FirstKeys(entries, EntryDay(dayOf))
  }

  /** The day strings in ascending order of their time (a stable sort). */
  function SortedDays(entries: seq<JournalEntry>, loc: Locale): seq<string> {
    SortBy(DayKeys(entries, loc.dayOf), loc.dayTime)
  }

  /** The entries of one day, in journal order. */
  function OnDay(entries: seq<JournalEntry>, dayOf: string -> string, day: string): seq<JournalEntry> {
    Group(entries, EntryDay(dayOf), day)
  }

  /** The source line of the export, present only when both title and url are. */
  function ExportSource(kindLabel: string, e: JournalEntry): string {
    if Present(e.sourceTitle) && Present(e.sourceUrl) then
      kindLabel + ": " + e.sourceTitle.value + " (" + e.sourceUrl.value + ")\n"
    else ""
  }

  /** The template of one entry, by kind. */
  function EntryBody(e: JournalEntry): string {
    match e.kind
    case Quote => "\"" + e.content + "\"\n" + ExportSource("Source", e)
    case Question => "Q: " + e.content + "\n" + ExportSource("Context", e)
    case UserNote => e.content + "\n"
  }

  /** Every template ends its last line. */
  lemma EntryBodyEndsLine(e: JournalEntry)
    ensures HasSuffix(EntryBody(e), "\n")
  {
    match e.kind
    case Quote =>
      var t := "\"" + e.content + "\"\n";
      assert t[|t| - 1] == '\n';
    case Question =>
      var t := "Q: " + e.content + "\n";
      assert t[|t| - 1] == '\n';
    case UserNote =>
  }

  /** One entry of the export: its time, its template, and a blank line. */
  function EntryText(e: JournalEntry, timeOf: string -> string): (r: string)
    ensures StartsWith(r, "[" + timeOf(e.timestamp) + "] ")
    ensures HasSuffix(r, "\n\n")
  {
    var head := "[" + timeOf(e.timestamp) + "] ";
    var body := EntryBody(e);
    EntryBodyEndsLine(e);
    var r := head + body + "\n";
    assert r[..|head|] == head;
    assert r[|r| - 2..] == [body[|body| - 1], '\n'];
    r
  }

  /** The entries of one day, rendered in order. */
  function EntriesText(es: seq<JournalEntry>, timeOf: string -> string): string
    decreases |es|
  {
    if es == [] then "" else EntriesText(es[..|es| - 1], timeOf) + EntryText(es[|es| - 1], timeOf)
  }

  function DayHeading(day: string, loc: Locale): string {
    "\n" + loc.longDate(day) + "\n" + ExportRule + "\n\n"
  }

  function DaySection(entries: seq<JournalEntry>, loc: Locale, day: string): string {
    DayHeading(day, loc) + EntriesText(OnDay(entries, loc.dayOf, day), loc.timeOf)
  }

  /** The sections of the given days, in order. */
  function Sections(entries: seq<JournalEntry>, loc: Locale, days: seq<string>): string
    decreases |days|
  {
    if days == [] then "" else Sections(entries, loc, days[..|days| - 1]) + DaySection(entries, loc, days[|days| - 1])
  }

  /** One more day adds its section at the end. */
  lemma SectionsSnoc(entries: seq<JournalEntry>, loc: Locale, days: seq<string>, k: nat)
    requires k < |days|
    ensures Sections(entries, loc, days[..k + 1]) == Sections(entries, loc, days[..k]) + DaySection(entries, loc, days[k])
  {
    assert days[..k + 1][..k] == days[..k];
  }

  function ExportText(entries: seq<JournalEntry>, loc: Locale): string {
    ExportHeader(|entries|, loc.exportedOn) + Sections(entries, loc, SortedDays(entries, loc))
  }

  datatype Download = Download(fileName: string, content: string)

  /**
   * `downloadJournal`: nothing for an empty journal; otherwise the header
   * with the entry count and one section per day, in a file named after
   * today's date.
   */
  function ExportFile(entries: seq<JournalEntry>, loc: Locale): (r: Option<Download>)
    ensures r.None? <==> entries == []
    ensures r.Some? ==> StartsWith(r.value.content, ExportHeader(|entries|, loc.exportedOn))
    ensures r.Some? ==> r.value.fileName == "snip-journal-" + loc.isoDay + ".txt"
  {
    if entries == [] then None
    else
      var header := ExportHeader(|entries|, loc.exportedOn);
      var text := ExportText(entries, loc);
      assert text[..|header|] == header;
      Some(Download("snip-journal-" + loc.isoDay + ".txt", text))
  }

  /** The day sections come in ascending order of their time. */
  lemma ExportDaysAscending(entries: seq<JournalEntry>, loc: Locale)
    ensures SortedBy(SortedDays(entries, loc), loc.dayTime)
  {
    SortBySorted(DayKeys(entries, loc.dayOf), loc.dayTime);
  }

  /** A sequence without repeats holds each of its elements once. */
  lemma {:induction false} DistinctOnce<T>(s: seq<T>, x: T)
    requires forall i, j :: 0 <= i < j < |s| ==> s[i] != s[j]
    requires x in s
    ensures multiset(s)[x] == 1
    decreases |s|
  {
    assert s == [s[0]] + s[1..];
    if s[0] == x {
      assert x !in s[1..];
    } else {
      DistinctOnce(s[1..], x);
    }
  }

  /**
   * Every entry is listed under exactly one day section, its own, and under
   * no other.
   */
  lemma ExportPlacesEachEntryOnce(entries: seq<JournalEntry>, loc: Locale, k: nat)
    requires k < |entries|
    ensures var day := loc.dayOf(entries[k].timestamp);
            && multiset(SortedDays(entries, loc))[day] == 1
            && entries[k] in OnDay(entries, loc.dayOf, day)
            && forall d :: d != day ==> entries[k] !in OnDay(entries, loc.dayOf, d)
  {
    var day := loc.dayOf(entries[k].timestamp);
    FirstKeysDistinct(entries, EntryDay(loc.dayOf));
    FirstKeysCover(entries, EntryDay(loc.dayOf));
    DistinctOnce(DayKeys(entries, loc.dayOf), day);
  }

  /** Every day section lists at least one entry. */
  lemma ExportDaysNonEmpty(entries: seq<JournalEntry>, loc: Locale, d: string)
    requires d in SortedDays(entries, loc)
    ensures OnDay(entries, loc.dayOf, d) != []
  {
    var keys := DayKeys(entries, loc.dayOf);
    assert d in multiset(SortedDays(entries, loc));
    assert d in keys;
    FirstKeysSound(entries, EntryDay(loc.dayOf), d);
    var j :| 0 <= j < |entries| && loc.dayOf(entries[j].timestamp) == d;
    assert entries[j] in OnDay(entries, loc.dayOf, d);
  }

  /**
   * The grouping pass of `downloadJournal`: the `messagesByDate` object,
   * whose keys keep their insertion order, built in one pass over the
   * entries (here for any key).
   */
  method GroupBy<T, K(==, !new)>(entries: seq<T>, key: T -> K)
    returns (dates: seq<K>, messagesByDate: map<K, seq<T>>)
    ensures Grouped(entries, key, dates, messagesByDate)
  {
    dates := [];
    messagesByDate := map[];
    var i := 0;
    ghost var done: seq<T> := [];
    while i < |entries|
      invariant 0 <= i <= |entries| && done == entries[..i]
      invariant Grouped(done, key, dates, messagesByDate)
    {
      var message := entries[i];
      var date := key(message);
      GroupedSnoc(done, message, key, dates, messagesByDate);
      if date !in messagesByDate {
        messagesByDate := messagesByDate[date := []];
        dates := dates + [date];
      }
      messagesByDate := messagesByDate[date := messagesByDate[date] + [message]];
      done := done + [message];
      i := i + 1;
    }
    assert done == entries;
  }

  /** The inner loop of `downloadJournal`: one day's entries appended in order. */
  method AppendEntries(content: string, group: seq<JournalEntry>, timeOf: string -> string) returns (r: string)
    ensures r == content + EntriesText(group, timeOf)
  {
    r := content;
    var j := 0;
    while j < |group|
      invariant 0 <= j <= |group|
      invariant r == content + EntriesText(group[..j], timeOf)
    {
      var message := group[j];
      var entry := "[" + timeOf(message.timestamp) + "] ";
      entry := entry + EntryBody(message);
      entry := entry + "\n";
      assert group[..j + 1][..j] == group[..j];
      AppendAssoc(content, EntriesText(group[..j], timeOf), entry);
      r := r + entry;
      j := j + 1;
    }
    assert group[..j] == group;
  }

  /** The outer loop of `downloadJournal`: each day's heading, then its entries. */
  method AppendSections(content: string, entries: seq<JournalEntry>, loc: Locale, sortedDates: seq<string>,
                        messagesByDate: map<string, seq<JournalEntry>>) returns (r: string)
    requires forall d :: d in sortedDates ==> d in messagesByDate && messagesByDate[d] == OnDay(entries, loc.dayOf, d)
    ensures r == content + Sections(entries, loc, sortedDates)
  {
    r := content;
    var k := 0;
    while k < |sortedDates|
      invariant 0 <= k <= |sortedDates|
      invariant r == content + Sections(entries, loc, sortedDates[..k])
    {
      var dateStr := sortedDates[k];
      var section := AppendEntries(DayHeading(dateStr, loc), messagesByDate[dateStr], loc.timeOf);
      SectionsSnoc(entries, loc, sortedDates, k);
      AppendAssoc(content, Sections(entries, loc, sortedDates[..k]), section);
      r := r + section;
      k := k + 1;
    }
    assert sortedDates[..k] == sortedDates;
  }
}
