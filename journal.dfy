/** The journal replica of one couple (src/hooks/useJournal.tsx): a fetch
    that replaces the list, and insert, update and delete calls that reload it
    once the service acknowledges them. */
module Journal {
  import opened Common
  import opened Realtime

  /** `entryDate` is a day number (days since 1970-01-01). */
  datatype JournalEntry = JournalEntry(
    id: string, coupleId: string, userId: string, content: string,
    moodScore: Option<int>, gratitude: Option<string>, tags: Option<seq<string>>,
    entryDate: int, createdAt: string)

  /** The argument of `addEntry`; absent fields are None. */
  datatype EntryInput = EntryInput(
    content: string, moodScore: Option<int>, gratitude: Option<string>, tags: Option<seq<string>>)

  /** The row `addEntry` inserts. */
  datatype EntryRow = EntryRow(
    coupleId: string, userId: string, content: string,
    moodScore: Option<int>, gratitude: Option<string>, tags: Option<seq<string>>)

  /** The row of `addEntry`: both ids stamped; a falsy mood score (0
      included) and gratitude become null. `tags || null` keeps every array,
      the empty one too, since arrays are truthy. */
  function NewEntryRow(userId: string, coupleId: string, e: EntryInput): (r: EntryRow)
    ensures r.userId == userId && r.coupleId == coupleId && r.content == e.content
    ensures r.moodScore.None? <==> !NonZero(e.moodScore)
    ensures r.gratitude.None? <==> !Given(e.gratitude)
    ensures r.moodScore.Some? ==> r.moodScore == e.moodScore
    ensures r.gratitude.Some? ==> r.gratitude == e.gratitude
    ensures r.tags == e.tags
  {
    EntryRow(coupleId, userId, e.content, NumberOrNull(e.moodScore), StringOrNull(e.gratitude), e.tags)
  }

  /** The replica of `useJournal`. */
  class JournalStore {
    var userId: Option<string>
    var coupleId: Option<string>
    var entries: seq<JournalEntry>
    var loading: bool

    constructor (userId: Option<string>, coupleId: Option<string>)
      ensures this.userId == userId && this.coupleId == coupleId
      ensures entries == [] && loading
    {
      this.userId := userId;
      this.coupleId := coupleId;
      entries := [];
      loading := true;
    }

    /** The session changed; the list is kept and fetched again when the
        couple id changed. */
    method SetScope(userId: Option<string>, coupleId: Option<string>) returns (reload: bool)
      modifies this
      ensures this.userId == userId && this.coupleId == coupleId
      ensures entries == old(entries) && loading == old(loading)
      ensures reload == (coupleId != old(this.coupleId))
    {
      reload := coupleId != this.coupleId;
      this.userId := userId;
      this.coupleId := coupleId;
    }

    /** `fetchEntries`: nothing happens without a couple or on an error; a
        successful query replaces the list and ends loading. */
    method FetchEntries(result: Fetch<JournalEntry>)
      modifies this
      ensures userId == old(userId) && coupleId == old(coupleId)
      ensures Given(coupleId) && result.Rows? ==> entries == result.rows && !loading
      ensures !(Given(coupleId) && result.Rows?) ==> entries == old(entries) && loading == old(loading)
    {
      if !Given(coupleId) {
        return;
      }
      if result.FetchError? {
        return;
      }
      entries := result.rows;
      loading := false;
    }

    /** `addEntry`: without a user or a couple nothing is inserted or
        answered; otherwise the answer says whether the insert was accepted,
        and the list is reloaded only then. */
    method AddEntry(e: EntryInput, reply: Mutation)
      returns (request: Option<EntryRow>, outcome: Option<bool>, reload: bool)
      ensures !(Given(userId) && Given(coupleId)) ==> request.None? && outcome.None? && !reload
      ensures Given(userId) && Given(coupleId) ==>
        && request == Some(NewEntryRow(userId.value, coupleId.value, e))
        && outcome == Some(reply.Ack?) && reload == reply.Ack?
    {
      if !(Given(userId) && Given(coupleId)) {
        return None, None, false;
      }
      request := Some(NewEntryRow(userId.value, coupleId.value, e));
      outcome := Some(reply.Ack?);
      reload := reply.Ack?;
    }

    /** `updateEntry`: the update of that entry goes to the service and the
        patch is never applied locally; true and a reload on success, false
        and no reload on an error. */
    method UpdateEntry(id: string, reply: Mutation) returns (request: RowRequest, ok: bool, reload: bool)
      ensures request == UpdateRow("journal_entries", id)
      ensures ok == reply.Ack? && reload == ok
    {
      request := UpdateRow("journal_entries", id);
      ok := reply.Ack?;
      reload := ok;
    }

    /** `deleteEntry`: the delete of that entry is issued; the answer and
        the reload are as for UpdateEntry. */
    method DeleteEntry(id: string, reply: Mutation) returns (request: RowRequest, ok: bool, reload: bool)
      ensures request == DeleteRow("journal_entries", id)
      ensures ok == reply.Ack? && reload == ok
    {
      request := DeleteRow("journal_entries", id);
      ok := reply.Ack?;
      reload := ok;
    }

    /** The realtime callback: while a couple is bound, any change on
        `journal_entries` reloads the list. */
    method OnChange(c: Change) returns (reload: bool)
      ensures reload == (Given(coupleId) && c.table == "journal_entries")
    {
      TableChannelReceives("journal_entries", coupleId, false, c);
      reload := Receives(TableChannel("journal_entries", coupleId, false), c);
    }
  }
}
