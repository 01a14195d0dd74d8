/** The handler of the event-detail notification: whether the page takes part,
    which view it shows for the event's stored link, and how storing and
    clearing that link change what the next render shows. */
module DetailView {
  import opened BoxTypes
  import opened NoteLinks
  import opened NoteCreation

  /** How many elements the page holds under each id the handler looks up. */
  datatype Page = Page(
    boxContent: nat,
    createNoteButton: nat,
    linkNoteButton: nat,
    embeddedBoxNote: nat,
    disconnectNoteButton: nat)

  /** What a render does: nothing, the create button, the stored note (its
      link for the open button and the viewer URL), or the element error. */
  datatype View =
    | Untouched
    | CreateView
    | NoteView(openUrl: string, embedUrl: string)
    | ElementError(error: ErrorMessage)

  /** The share link read from the event's record, or "" when there is none. */
  function StoredLink(record: Option<LinkRecord>): (link: string)
  {
    match record
    case Some(r) => r.sharedLink
    case None => ""
  }

  /** The create view needs its button exactly once. */
  function ShowCreateButton(page: Page): (v: View)
    ensures v == CreateView <==> page.createNoteButton == 1
    ensures v != CreateView ==> v == ElementError(FailGetElements)
  {
    if page.createNoteButton != 1 then ElementError(FailGetElements) else CreateView
  }

  /** The note view needs its three elements exactly once each; it opens the
      stored link and embeds the viewer URL derived from it. */
  function ShowExistedNote(page: Page, sharedLink: string): (v: View)
    ensures v.NoteView? <==>
              page.linkNoteButton == 1 && page.embeddedBoxNote == 1 && page.disconnectNoteButton == 1
    ensures v.NoteView? ==> v.openUrl == sharedLink && v.embedUrl == EmbedUrl(sharedLink)
    ensures !v.NoteView? ==> v == ElementError(FailGetElements)
  {
    var embedded := EmbedUrl(sharedLink);
    if page.linkNoteButton != 1 || page.embeddedBoxNote != 1 || page.disconnectNoteButton != 1
    then ElementError(FailGetElements)
    else NoteView(sharedLink, embedded)
  }

  /** The handler: nothing unless the container is there exactly once, then the
      create view for a missing or empty link and the note view otherwise. */
  function Render(page: Page, record: Option<LinkRecord>): (v: View)
    ensures v.Untouched? <==> page.boxContent != 1
    ensures v.CreateView? <==> page.boxContent == 1 && StoredLink(record) == "" && page.createNoteButton == 1
    ensures v.NoteView? <==>
              page.boxContent == 1 && StoredLink(record) != ""
              && page.linkNoteButton == 1 && page.embeddedBoxNote == 1 && page.disconnectNoteButton == 1
    ensures v.NoteView? ==> v.openUrl == StoredLink(record) && v.embedUrl == EmbedUrl(StoredLink(record))
    ensures v.ElementError? ==> v.error == FailGetElements
  {
    var link := StoredLink(record);
    if page.boxContent != 1 then Untouched
    else if link == "" then ShowCreateButton(page)
    else ShowExistedNote(page, link)
  }

  /** The host's records, keyed by their REST path. */
  type Datastore = map<string, LinkRecord>

  /** The record the handler reads for an event. */
  function Lookup(store: Datastore, eventId: string): (record: Option<LinkRecord>)
  {
    var path := DatastorePath(eventId);
    if path in store then Some(store[path]) else None
  }

  /** The effect of a request on the host's records: a save writes its path, a
      delete removes it, and calls to the document service leave them alone. */
  function Apply(store: Datastore, c: Call): (after: Datastore)
  {
    match c
    case SaveRecord(path, record) => store[path := record]
    case DeleteRecord(path) => store - {path}
    case _ => store
  }

  /** After a non-empty link is stored on an event, the next render of a page
      that takes part shows that note, with its viewer URL. */
  lemma StoredLinkIsShown(store: Datastore, page: Page, eventId: string, link: string)
    requires page.boxContent == 1 && link != ""
    ensures Render(page, Lookup(Apply(store, SaveLink(eventId, link)), eventId))
            == if page.linkNoteButton == 1 && page.embeddedBoxNote == 1 && page.disconnectNoteButton == 1
               then NoteView(link, EmbedUrl(link)) else ElementError(FailGetElements)
  {
  }

  /** After an event's link is cleared, the next render offers to create a note. */
  lemma ClearedLinkShowsCreate(store: Datastore, page: Page, eventId: string)
    requires page.boxContent == 1
    ensures Render(page, Lookup(Apply(store, ClearLink(eventId)), eventId))
            == if page.createNoteButton == 1 then CreateView else ElementError(FailGetElements)
  {
  }

  /** Storing or clearing one event's link leaves every other event's record as it was. */
  lemma OtherEventsUnaffected(store: Datastore, eventId: string, other: string, link: string)
    requires other != eventId
    ensures Lookup(Apply(store, SaveLink(eventId, link)), other) == Lookup(store, other)
    ensures Lookup(Apply(store, ClearLink(eventId)), other) == Lookup(store, other)
  {
    if DatastorePath(other) == DatastorePath(eventId) {
      DatastorePathInjective(other, eventId);
    }
  }

  /** A run of the create flow that creates a note leaves the event showing it:
      applying the run's requests to the host's records, the next render of a
      page with all note elements shows the returned link. */
  lemma CreatedNoteIsShown(ctx: Context, s: Script, store: Datastore, page: Page)
    requires AllStepsPass(s) && s.share.url != ""
    requires page.boxContent == 1
    requires page.linkNoteButton == 1 && page.embeddedBoxNote == 1 && page.disconnectNoteButton == 1
    ensures Render(page, Lookup(ApplyAll(store, Plan(ctx, s).calls), ctx.eventId))
            == NoteView(s.share.url, EmbedUrl(s.share.url))
  {
    CreatedIffAllStepsPass(ctx, s);
    var calls := Plan(ctx, s).calls;
    var n := |calls| - 1;
    assert calls == calls[..n] + [calls[n]];
    ApplyAllAppend(store, calls[..n], calls[n]);
    assert forall c :: c in calls[..n] ==> !c.SaveRecord? && !c.DeleteRecord? by {
      SuccessfulRunCalls(ctx, s);
    }
    ApplyAllServiceCalls(store, calls[..n]);
  }

  /** The host's records after a sequence of requests, in order. */
  function ApplyAll(store: Datastore, calls: seq<Call>): (after: Datastore)
    decreases |calls|
  {
    if calls == [] then store else ApplyAll(Apply(store, calls[0]), calls[1..])
  }

  lemma {:induction false} ApplyAllAppend(store: Datastore, calls: seq<Call>, last: Call)
    ensures ApplyAll(store, calls + [last]) == Apply(ApplyAll(store, calls), last)
    decreases |calls|
  {
    if calls != [] {
      assert (calls + [last])[1..] == calls[1..] + [last];
      ApplyAllAppend(Apply(store, calls[0]), calls[1..], last);
    }
  }

  /** Calls to the document service do not touch the host's records. */
  lemma {:induction false} ApplyAllServiceCalls(store: Datastore, calls: seq<Call>)
    requires forall c :: c in calls ==> !c.SaveRecord? && !c.DeleteRecord?
    ensures ApplyAll(store, calls) == store
    decreases |calls|
  {
    if calls != [] {
      assert calls[0] in calls;
      ApplyAllServiceCalls(store, calls[1..]);
    }
  }
}
