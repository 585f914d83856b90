/** The travel page (src/pages/TravelMilestones.tsx): the visited and
    wishlist lists, and the handlers that toggle, caption and delete a place. */
module TravelPage {
  import opened Common
  import opened Text
  import opened Travel

  predicate IsVisited(m: Milestone) { m.visited }

  function VisitedList(ms: seq<Milestone>): seq<Milestone> {
    Filter(ms, IsVisited)
  }

  predicate IsWished(m: Milestone) { !m.visited }

  function WishlistList(ms: seq<Milestone>): seq<Milestone> {
    Filter(ms, IsWished)
  }

  /** The two lists split the milestones: every milestone is in exactly one
      of them as often as it occurs, and the counts add up. */
  lemma ListsPartition(ms: seq<Milestone>)
    ensures multiset(VisitedList(ms)) + multiset(WishlistList(ms)) == multiset(ms)
    ensures |VisitedList(ms)| + |WishlistList(ms)| == |ms|
    ensures forall m :: m in VisitedList(ms) ==> m.visited
    ensures forall m :: m in WishlistList(ms) ==> !m.visited
  {
    FilterPartition(ms, IsVisited, IsWished);
    var v := VisitedList(ms);
    var w := WishlistList(ms);
    forall m | m in v ensures m.visited {
      var k :| 0 <= k < |v| && v[k] == m;
    }
    forall m | m in w ensures !m.visited {
      var k :| 0 <= k < |w| && w[k] == m;
    }
  }

  /** The patch `handleToggleVisited` sends: the flag flipped, and the visit
      time stamped exactly when the place becomes visited. */
  function TogglePatch(m: Milestone, clockIso: string): (p: MilestonePatch)
    ensures p.VisitedPatch?
    ensures p.visited == !m.visited
    ensures p.visitedAt.Some? <==> p.visited
    ensures p.visitedAt.Some? ==> p.visitedAt.value == clockIso
  {
    VisitedPatch(!m.visited, if !m.visited then Some(clockIso) else None)
  }

  /** What the service stores for a patch. */
  function Apply(m: Milestone, p: MilestonePatch): Milestone {
    match p
    case VisitedPatch(visited, visitedAt) => m.(visited := visited, visitedAt := visitedAt)
    case CaptionPatch(caption) => m.(photoCaption := caption)
  }

  /** A toggle moves the place to the other list; a second toggle moves it
      back, with a visit time exactly when it is visited again, and changes
      nothing else. */
  lemma ToggleTwice(m: Milestone, t1: string, t2: string)
    ensures IsVisited(Apply(m, TogglePatch(m, t1))) == !IsVisited(m)
    ensures var once := Apply(m, TogglePatch(m, t1));
      var twice := Apply(once, TogglePatch(once, t2));
      && twice.visited == m.visited
      && (twice.visitedAt.Some? <==> m.visited)
      && twice.(visitedAt := m.visitedAt) == m
  {
  }

  /** The caption `handleSaveCaption` stores: the edited text trimmed, null
      when nothing but white space is left. */
  function SavedCaption(edit: string): (r: Option<string>)
    ensures r.None? <==> AllSpace(edit)
    ensures r.Some? ==> r.value == Trim(edit) && r.value != ""
  {
    TrimEmptyIff(edit);
    var t := Trim(edit);
    if t != "" then Some(t) else None
  }

  /** The caption field when a place is opened: its caption, or "". */
  function OpenedCaption(m: Milestone): string {
    if Given(m.photoCaption) then m.photoCaption.value else ""
  }

  /** Saving a caption, then opening the place and saving again without
      editing, stores the same caption. */
  lemma CaptionRoundTrip(m: Milestone, edit: string)
    ensures var saved := Apply(m, CaptionPatch(SavedCaption(edit)));
      SavedCaption(OpenedCaption(saved)) == SavedCaption(edit)
  {
    TrimIdempotent(edit);
    TrimEmptyIff(Trim(edit));
    TrimEmptyIff("");
  }

  /** `handleDelete`: the delete is issued only when the user confirms. */
  method HandleDelete(id: string, confirmed: bool) returns (request: Option<MilestoneRequest>)
    ensures request.Some? <==> confirmed
    ensures request.Some? ==> request.value == DeleteMilestoneRow(id)
  {
    if confirmed {
      request := Some(DeleteMilestoneRow(id));
    } else {
      request := None;
    }
  }

  /** `handleToggleVisited`. */
  method HandleToggleVisited(m: Milestone, clockIso: string) returns (request: MilestoneRequest)
    ensures request == UpdateMilestoneRow(m.id, TogglePatch(m, clockIso))
  {
    request := UpdateMilestoneRow(m.id, TogglePatch(m, clockIso));
  }

  /** The detail dialog state. */
  class TravelPageState {
    var selected: Option<Milestone>
    var editCaption: string

    constructor ()
      ensures selected.None? && editCaption == ""
    {
      selected := None;
      editCaption := "";
    }

    /** `handleOpenDetail`: the place is selected and its caption, or "",
        seeds the field. */
    method HandleOpenDetail(m: Milestone)
      modifies this
      ensures selected == Some(m) && editCaption == OpenedCaption(m)
    {
      selected := Some(m);
      editCaption := OpenedCaption(m);
    }

    /** `handleSaveCaption`: with a place selected the trimmed caption is sent
        for it and the dialog closes; otherwise nothing happens. */
    method HandleSaveCaption() returns (request: Option<MilestoneRequest>)
      modifies this
      ensures editCaption == old(editCaption)
      ensures old(selected).None? ==> request.None? && selected.None?
      ensures old(selected).Some? ==>
        request == Some(UpdateMilestoneRow(old(selected).value.id, CaptionPatch(SavedCaption(old(editCaption)))))
        && selected.None?
    {
      if selected.None? {
        return None;
      }
      request := Some(UpdateMilestoneRow(selected.value.id, CaptionPatch(SavedCaption(editCaption))));
      selected := None;
    }
  }
}
