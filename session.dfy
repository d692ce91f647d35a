/**
 * The list operations of the side panel's session, as values: the pinned
 * contexts (pin with url dedupe, bounds-checked unpin, the one journal
 * aggregate replaced in place) and the notes (delete and edit by id).
 */
module Session {
  import opened Basics
  import opened Types

  /** Some pinned context has this url (`pinnedContexts.some(ctx => ctx.url === url)`). */
  predicate IsPinned(pinned: seq<PinnedContext>, url: string) {
    exists i :: 0 <= i < |pinned| && pinned[i].Url() == url
  }

  ghost predicate UrlsDistinct(pinned: seq<PinnedContext>) {
    forall i, j :: 0 <= i < j < |pinned| ==> pinned[i].Url() != pinned[j].Url()
  }

  /**
   * `pinCurrentTab`: a copy of the current tab is appended unless no tab is
   * known or a context with its url is already pinned; afterwards the
   * current url is pinned.
   */
  function Pin(pinned: seq<PinnedContext>, current: Option<PageSnapshot>): (r: seq<PinnedContext>)
    ensures r == pinned || (current.Some? && r == pinned + [TabContext(current.value)])
    ensures r != pinned <==> current.Some? && !IsPinned(pinned, current.value.url)
    ensures current.Some? ==> IsPinned(r, current.value.url)
  {
    if current.Some? && !IsPinned(pinned, current.value.url) then
      var r := pinned + [TabContext(current.value)];
      assert r[|pinned|].Url() == current.value.url;
      r
    else pinned
  }

  /** Pinning the same tab twice is pinning it once. */
  lemma PinIdempotent(pinned: seq<PinnedContext>, current: Option<PageSnapshot>)
    ensures Pin(Pin(pinned, current), current) == Pin(pinned, current)
  {
  }

  /** Pinning never creates two contexts with the same url. */
  lemma PinKeepsUrlsDistinct(pinned: seq<PinnedContext>, current: Option<PageSnapshot>)
    requires UrlsDistinct(pinned)
    ensures UrlsDistinct(Pin(pinned, current))
  {
    var r := Pin(pinned, current);
    if r != pinned {
      forall i, j | 0 <= i < j < |r| ensures r[i].Url() != r[j].Url() {
        if j == |pinned| {
          assert r[i] == pinned[i];
        }
      }
    }
  }

  /**
   * `removePinnedContext(index)`: an index in range removes exactly that
   * context, the others keeping their order; any other index changes nothing.
   */
  function Unpin(pinned: seq<PinnedContext>, index: int): (r: seq<PinnedContext>)
    ensures !(0 <= index < |pinned|) ==> r == pinned
    ensures 0 <= index < |pinned| ==>
              && |r| == |pinned| - 1
              && (forall j :: 0 <= j < index ==> r[j] == pinned[j])
              && (forall j :: index <= j < |r| ==> r[j] == pinned[j + 1])
  {
    if 0 <= index < |pinned| then pinned[..index] + pinned[index + 1..] else pinned
  }

  /** What an unpin removes is the one context at the index. */
  lemma UnpinRemovesOne(pinned: seq<PinnedContext>, index: int)
    requires 0 <= index < |pinned|
    ensures multiset(Unpin(pinned, index)) + multiset{pinned[index]} == multiset(pinned)
  {
    assert pinned == pinned[..index] + [pinned[index]] + pinned[index + 1..];
  }

  /** Unpinning the context just pinned undoes the pin. */
  lemma UnpinUndoesPin(pinned: seq<PinnedContext>, current: Option<PageSnapshot>)
    requires current.Some? && !IsPinned(pinned, current.value.url)
    ensures Unpin(Pin(pinned, current), |pinned|) == pinned
  {
    var r := Pin(pinned, current);
    assert r[..|pinned|] == pinned;
  }

  /** Unpinning never creates two contexts with the same url. */
  lemma UnpinKeepsUrlsDistinct(pinned: seq<PinnedContext>, index: int)
    requires UrlsDistinct(pinned)
    ensures UrlsDistinct(Unpin(pinned, index))
  {
    var r := Unpin(pinned, index);
    if 0 <= index < |pinned| {
      forall i, j | 0 <= i < j < |r| ensures r[i].Url() != r[j].Url() {
        var i' := if i < index then i else i + 1;
        var j' := if j < index then j else j + 1;
        assert r[i] == pinned[i'] && r[j] == pinned[j'];
      }
    }
  }

  function IsJournalContext(ctx: PinnedContext): bool {
    ctx.JournalContext?
  }

  function IsTabContext(ctx: PinnedContext): bool {
    !ctx.JournalContext?
  }

  /** `pinnedContexts.findIndex(ctx => ctx.id === 'journal-context')`. */
  function JournalIndex(pinned: seq<PinnedContext>): (r: Option<nat>)
    ensures r.None? <==> forall i :: 0 <= i < |pinned| ==> !pinned[i].JournalContext?
    ensures r.Some? ==> r.value < |pinned| && pinned[r.value].JournalContext?
    ensures r.Some? ==> forall i :: 0 <= i < r.value ==> !pinned[i].JournalContext?
    decreases |pinned|
  {
    if pinned == [] then None
    else if pinned[0].JournalContext? then Some(0)
    else
      match JournalIndex(pinned[1..])
      case None => None
      case Some(k) => Some(k + 1)
  }

  /** The journal aggregate replaces the pinned one at its index, or is appended. */
  function WithJournalContext(pinned: seq<PinnedContext>, aggregate: PinnedContext): (r: seq<PinnedContext>)
    ensures |r| == if JournalIndex(pinned).Some? then |pinned| else |pinned| + 1
    ensures JournalIndex(pinned).Some? ==>
              && r[JournalIndex(pinned).value] == aggregate
              && forall i :: 0 <= i < |pinned| && i != JournalIndex(pinned).value ==> r[i] == pinned[i]
    ensures JournalIndex(pinned).None? ==> r[..|pinned|] == pinned && r[|pinned|] == aggregate
  {
    match JournalIndex(pinned)
    case Some(k) => pinned[k := aggregate]
    case None => pinned + [aggregate]
  }

  /**
   * With at most one aggregate pinned before, exactly one is pinned after,
   * the new one at the old one's index or at the end, and the tab contexts
   * are the same, in the same order.
   */
  lemma WithJournalContextUnique(pinned: seq<PinnedContext>, aggregate: PinnedContext)
    requires aggregate.JournalContext?
    requires CountIf(pinned, IsJournalContext) <= 1
    ensures var r := WithJournalContext(pinned, aggregate);
            && CountIf(r, IsJournalContext) == 1
            && aggregate in r
            && Filter(r, IsTabContext) == Filter(pinned, IsTabContext)
  {
    var r := WithJournalContext(pinned, aggregate);
    match JournalIndex(pinned)
    case Some(k) =>
      var a, b := pinned[..k], pinned[k + 1..];
      assert pinned == a + [pinned[k]] + b;
      assert r == a + [aggregate] + b;
      JournalSwapped(a, pinned[k], aggregate, b);
      assert r[k] == aggregate;
    case None =>
      FilterAppend(pinned, [aggregate], IsJournalContext);
      FilterAppend(pinned, [aggregate], IsTabContext);
      FilterNone(pinned, IsJournalContext);
      FilterSingleton(aggregate, IsJournalContext);
      FilterSingleton(aggregate, IsTabContext);
      assert r[|pinned|] == aggregate;
  }

  /** Swapping the one aggregate for another keeps one aggregate and the same tab contexts. */
  lemma JournalSwapped(a: seq<PinnedContext>, x: PinnedContext, y: PinnedContext, b: seq<PinnedContext>)
    requires x.JournalContext? && y.JournalContext?
    requires CountIf(a + [x] + b, IsJournalContext) <= 1
    ensures CountIf(a + [y] + b, IsJournalContext) == 1
    ensures Filter(a + [y] + b, IsTabContext) == Filter(a + [x] + b, IsTabContext)
  {
    FilterAround(a, x, b, IsJournalContext);
    FilterAround(a, y, b, IsJournalContext);
    FilterAround(a, x, b, IsTabContext);
    FilterAround(a, y, b, IsTabContext);
  }

  /**
   * The keys of `chrome.storage.local` the panels read and write; a key
   * never written or removed is None.
   */
  datatype PanelStorage = PanelStorage(
    pinnedContexts: Option<seq<PinnedContext>>,
    journalMessages: Option<seq<JournalEntry>>,
    notes: Option<seq<Note>>,
    pendingJournalEntry: Option<PendingJournalEntry>)

  /** The journal entry made from a pending one, with the panel's clock reading as id. */
  function FromPending(p: PendingJournalEntry, nowMs: int): (e: JournalEntry)
    ensures e.id == nowMs && e.kind == p.kind && e.content == p.content
    ensures e.sourceUrl == p.sourceUrl && e.sourceTitle == p.sourceTitle && e.timestamp == p.timestamp
  {
    JournalEntry(nowMs, p.kind, p.content, p.sourceUrl, p.sourceTitle, p.timestamp)
  }

  /** The panel's journal together with what `chrome.storage.local` holds. */
  datatype JournalStore = JournalStore(journal: seq<JournalEntry>, storage: PanelStorage)

  /**
   * `checkPendingJournalEntries`, shared by both panels: a pending entry the
   * background left in storage is appended to the journal, the journal is
   * saved and the pending key removed; without one nothing changes.
   */
  function PendingMove(j: JournalStore, nowMs: int): (r: JournalStore)
    ensures r.storage.pendingJournalEntry.None?
    ensures j.storage.pendingJournalEntry.None? ==> r == j
    ensures j.storage.pendingJournalEntry.Some? ==>
              && r.journal == j.journal + [FromPending(j.storage.pendingJournalEntry.value, nowMs)]
              && r.storage.journalMessages == Some(r.journal)
              && r.storage.pinnedContexts == j.storage.pinnedContexts
              && r.storage.notes == j.storage.notes
  {
    match j.storage.pendingJournalEntry
    case None => j
    case Some(p) =>
      var journal := j.journal + [FromPending(p, nowMs)];
      JournalStore(journal, j.storage.(journalMessages := Some(journal), pendingJournalEntry := None))
  }

  /** A pending entry is taken once: a second check, at any time, finds nothing to move. */
  lemma PendingMoveOnce(j: JournalStore, t1: int, t2: int)
    ensures PendingMove(PendingMove(j, t1), t2) == PendingMove(j, t1)
  {
  }

  // ---- notes ----

  function NoteLacksId(id: int): Note -> bool {
    (n: Note) => n.id != id
  }

  /** `deleteNote`: every note with the id goes and every other note stays, in order. */
  function DeleteNote(notes: seq<Note>, id: int): (r: seq<Note>)
    ensures forall i :: 0 <= i < |r| ==> r[i] in notes && r[i].id != id
    ensures forall i :: 0 <= i < |notes| && notes[i].id != id ==> notes[i] in r
  {
    Filter(notes, NoteLacksId(id))
  }

  /** Deleting from a concatenation deletes from each part: the kept notes stay in order. */
  lemma DeleteNoteAppend(a: seq<Note>, b: seq<Note>, id: int)
    ensures DeleteNote(a + b, id) == DeleteNote(a, id) + DeleteNote(b, id)
  {
    FilterAppend(a, b, NoteLacksId(id));
  }

  /** `notes.findIndex(n => n.id === id)`. */
  function NoteIndex(notes: seq<Note>, id: int): (r: Option<nat>)
    ensures r.None? <==> forall i :: 0 <= i < |notes| ==> notes[i].id != id
    ensures r.Some? ==> r.value < |notes| && notes[r.value].id == id
    ensures r.Some? ==> forall i :: 0 <= i < r.value ==> notes[i].id != id
    decreases |notes|
  {
    if notes == [] then None
    else if notes[0].id == id then Some(0)
    else
      match NoteIndex(notes[1..], id)
      case None => None
      case Some(k) => Some(k + 1)
  }

  /**
   * `saveEditedNote` once the new text is known to be non-empty: the first
   * note with the id gets the text and a new timestamp; nothing else changes.
   */
  function EditNote(notes: seq<Note>, id: int, content: string, timestamp: string): (r: seq<Note>)
    ensures |r| == |notes|
    ensures forall i :: 0 <= i < |notes| ==> r[i].id == notes[i].id && r[i].source == notes[i].source
    ensures NoteIndex(notes, id).None? ==> r == notes
    ensures NoteIndex(notes, id).Some? ==>
              var k := NoteIndex(notes, id).value;
              && r[k].content == content && r[k].timestamp == timestamp
              && forall i :: 0 <= i < |notes| && i != k ==> r[i] == notes[i]
  {
    match NoteIndex(notes, id)
    case Some(k) => notes[k := notes[k].(content := content, timestamp := timestamp)]
    case None => notes
  }

  /** Two note lists that differ only in notes with the given id. */
  lemma {:induction false} DeleteIgnoresId(a: seq<Note>, b: seq<Note>, id: int)
    requires |a| == |b|
    requires forall i :: 0 <= i < |a| ==> a[i].id == b[i].id
    requires forall i :: 0 <= i < |a| && a[i].id != id ==> a[i] == b[i]
    ensures DeleteNote(a, id) == DeleteNote(b, id)
    decreases |a|
  {
    if a != [] {
      DeleteIgnoresId(a[1..], b[1..], id);
    }
  }

  /** Editing a note and then deleting it leaves what deleting it alone leaves. */
  lemma DeleteAfterEdit(notes: seq<Note>, id: int, content: string, timestamp: string)
    ensures DeleteNote(EditNote(notes, id, content, timestamp), id) == DeleteNote(notes, id)
  {
    DeleteIgnoresId(EditNote(notes, id, content, timestamp), notes, id);
  }

  /** Deleting a note just added under a fresh id gives back the notes before it. */
  lemma DeleteUndoesAddNote(notes: seq<Note>, note: Note)
    requires forall i :: 0 <= i < |notes| ==> notes[i].id != note.id
    ensures DeleteNote([note] + notes, note.id) == notes
  {
    FilterAppend([note], notes, NoteLacksId(note.id));
    FilterAll(notes, NoteLacksId(note.id));
  }
}
