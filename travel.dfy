/** The travel bucket list of one couple (src/hooks/useTravelMilestones.tsx):
    a fetch that replaces the list, mutations that never touch it (only the
    realtime-triggered fetch does), and the storage path of an uploaded photo. */
module Travel {
  import opened Common
  import opened Text
  import opened Realtime

  datatype Milestone = Milestone(
    id: string, coupleId: string, title: string, description: Option<string>,
    location: Option<string>, photoUrl: Option<string>, photoCaption: Option<string>,
    visited: bool, visitedAt: Option<string>, createdAt: string, updatedAt: string)

  /** The argument of `addMilestone`: a milestone without its id, couple id
      and timestamps. */
  datatype MilestoneInput = MilestoneInput(
    title: string, description: Option<string>, location: Option<string>,
    photoUrl: Option<string>, photoCaption: Option<string>,
    visited: bool, visitedAt: Option<string>)

  /** The row `addMilestone` inserts: the argument with the bound couple's id. */
  datatype MilestoneRow = MilestoneRow(coupleId: string, fields: MilestoneInput)

  /** The patches the travel page sends through `updateMilestone`. */
  datatype MilestonePatch =
    | VisitedPatch(visited: bool, visitedAt: Option<string>)
    | CaptionPatch(photoCaption: Option<string>)

  /** What a mutation asks of the service. */
  datatype MilestoneRequest =
    | InsertMilestone(row: MilestoneRow)
    | UpdateMilestoneRow(id: string, patch: MilestonePatch)
    | DeleteMilestoneRow(id: string)

  /** `file.name.split('.').pop()`: the last piece of the name split at dots. */
  function FileExtension(name: string): string {
    var parts := Split(name, '.');
    parts[|parts| - 1]
  }

  /** The last piece of a split is the longest suffix free of the separator:
      it is a suffix without the separator, preceded by the separator unless
      it is the whole string, and it is the whole string exactly when there
      is one piece. */
  lemma {:induction false} LastPieceIsSuffix(s: string, sep: char)
    ensures var parts := Split(s, sep); var e := parts[|parts| - 1];
      && |e| <= |s| && e == s[|s| - |e|..]
      && sep !in e
      && (|e| < |s| ==> s[|s| - |e| - 1] == sep)
      && (|e| == |s| <==> |parts| == 1)
    decreases |s|
  {
    if s != [] {
      LastPieceIsSuffix(s[1..], sep);
      var rest := Split(s[1..], sep);
      var e := rest[|rest| - 1];
      var parts := Split(s, sep);
      assert s[1..][|s| - 1 - |e|..] == s[|s| - |e|..];
      if s[0] == sep {
        assert parts == [""] + rest;
        assert parts[|parts| - 1] == e && |parts| > 1;
        if |e| < |s| - 1 {
          assert s[1..][|s| - 1 - |e| - 1] == s[|s| - |e| - 1];
        }
      } else if |rest| == 1 {
        assert parts == [[s[0]] + rest[0]];
        assert e == s[1..];
        assert [s[0]] + s[1..] == s;
      } else {
        assert parts == [[s[0]] + rest[0]] + rest[1..];
        assert parts[|parts| - 1] == e && |parts| > 1;
        assert s[1..][|s| - 1 - |e| - 1] == s[|s| - |e| - 1];
      }
    }
  }

  /** The extension is the text after the last `'.'`, or the whole name
      when it has no dot. */
  lemma FileExtensionAfterLastDot(name: string)
    ensures var ext := FileExtension(name);
      && |ext| <= |name| && ext == name[|name| - |ext|..]
      && '.' !in ext
      && ('.' !in name ==> ext == name)
      && ('.' in name ==> name[|name| - |ext| - 1] == '.')
  {
    LastPieceIsSuffix(name, '.');
  }

  /** The storage path of `uploadPhoto`: the couple id (rendered `undefined`
      when no couple is bound), then the clock reading, a random suffix and
      the extension. */
  function StoragePath(coupleId: Option<string>, clock: nat, random: string, name: string): string {
    (if coupleId.Some? then coupleId.value else "undefined") + "/"
      + Decimal(clock) + "-" + random + "." + FileExtension(name)
  }

  /** The path lies in the folder of the bound couple and ends with a dot
      and the file's extension. */
  lemma StoragePathShape(coupleId: string, clock: nat, random: string, name: string)
    ensures var p := StoragePath(Some(coupleId), clock, random, name);
      var ext := FileExtension(name);
      && |p| > |coupleId| + |ext|
      && p[..|coupleId| + 1] == coupleId + "/"
      && p[|p| - |ext| - 1..] == "." + ext
  {
    var ext := FileExtension(name);
    var mid := Decimal(clock) + "-" + random;
    var p := StoragePath(Some(coupleId), clock, random, name);
    assert p == (coupleId + "/") + (mid + "." + ext);
    assert p == (coupleId + "/" + mid) + ("." + ext);
  }

  /** The replica of `useTravelMilestones`. */
  class MilestoneStore {
    var coupleId: Option<string>
    var milestones: seq<Milestone>
    var loading: bool

    constructor (coupleId: Option<string>)
      ensures this.coupleId == coupleId && milestones == [] && loading
    {
      this.coupleId := coupleId;
      milestones := [];
      loading := true;
    }

    /** The bound couple changed; the list is kept and fetched again when
        the id changed. */
    method SetScope(coupleId: Option<string>) returns (reload: bool)
      modifies this
      ensures this.coupleId == coupleId && milestones == old(milestones) && loading == old(loading)
      ensures reload == (coupleId != old(this.coupleId))
    {
      reload := coupleId != this.coupleId;
      this.coupleId := coupleId;
    }

    /** `fetchMilestones`: nothing happens without a couple. Otherwise a
        successful query replaces the list, an error leaves it, and loading
        ends in both cases. */
    method FetchMilestones(result: Fetch<Milestone>)
      modifies this
      ensures coupleId == old(coupleId)
      ensures !Given(coupleId) ==> milestones == old(milestones) && loading == old(loading)
      ensures Given(coupleId) ==> !loading
      ensures Given(coupleId) && result.Rows? ==> milestones == result.rows
      ensures Given(coupleId) && result.FetchError? ==> milestones == old(milestones)
    {
      if !Given(coupleId) {
        return;
      }
      if result.Rows? {
        milestones := result.rows;
      }
      loading := false;
    }

    /** `addMilestone`: without a couple nothing is inserted; otherwise the
        row carries the bound couple's id. The answer only selects a toast;
        the list is left to the realtime reload. */
    method AddMilestone(m: MilestoneInput) returns (request: Option<MilestoneRequest>)
      ensures !Given(coupleId) ==> request.None?
      ensures Given(coupleId) ==> request == Some(InsertMilestone(MilestoneRow(coupleId.value, m)))
    {
      if !Given(coupleId) {
        return None;
      }
      request := Some(InsertMilestone(MilestoneRow(coupleId.value, m)));
    }

    /** `updateMilestone`: the update is issued whatever is bound, and the
        local list is not touched (the method changes no state). */
    method UpdateMilestone(id: string, patch: MilestonePatch) returns (request: MilestoneRequest)
      ensures request == UpdateMilestoneRow(id, patch)
    {
      request := UpdateMilestoneRow(id, patch);
    }

    /** `deleteMilestone`: likewise, the delete is issued and nothing local changes. */
    method DeleteMilestone(id: string) returns (request: MilestoneRequest)
      ensures request == DeleteMilestoneRow(id)
    {
      request := DeleteMilestoneRow(id);
    }

    /** `uploadPhoto`: the upload goes to the computed path; a failure gives
        null, a success the public address `urlFor` gives that path. */
    method UploadPhoto(name: string, clock: nat, random: string, upload: Mutation, urlFor: string -> string)
      returns (path: string, url: Option<string>)
      ensures path == StoragePath(coupleId, clock, random, name)
      ensures upload.MutateError? ==> url.None?
      ensures upload.Ack? ==> url == Some(urlFor(path))
    {
      path := StoragePath(coupleId, clock, random, name);
      if upload.MutateError? {
        return path, None;
      }
      url := Some(urlFor(path));
    }

    /** The realtime callback: while a couple is bound, any change to one of
        that couple's milestones reloads the list, and no other change does. */
    method OnChange(c: Change) returns (reload: bool)
      ensures reload == (Given(coupleId) && c.table == "travel_milestones" && c.coupleId == coupleId.value)
    {
      TableChannelReceives("travel_milestones", coupleId, true, c);
      reload := Receives(TableChannel("travel_milestones", coupleId, true), c);
    }
  }
}
