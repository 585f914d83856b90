/** The habits page (src/pages/Habits.tsx): today's progress of the signed-in
    user, the icon shown for a habit, and the form handlers. */
module HabitsPage {
  import opened Common
  import Habits

  /** The habits the signed-in user has completed today. */
  function CompletedTodayBy(cs: seq<Habits.Completion>, current: Option<string>, today: int): Habits.Habit -> bool {
    (h: Habits.Habit) => Habits.CompletedToday(cs, h.id, None, current, today)
  }

  /** `completedCount`: the habits the signed-in user completed today. */
  function CompletedCount(hs: seq<Habits.Habit>, cs: seq<Habits.Completion>, current: Option<string>, today: int): (r: nat)
    ensures r <= |hs|
    ensures r == 0 <==> forall k :: 0 <= k < |hs| ==> !Habits.CompletedToday(cs, hs[k].id, None, current, today)
  {
    var done := Filter(hs, CompletedTodayBy(cs, current, today));
    assert |done| > 0 ==> Habits.CompletedToday(cs, done[0].id, None, current, today);
    |done|
  }

  /** `totalProgress`: the completed share as a rounded percentage, 0 without
      habits. */
  function TotalProgress(hs: seq<Habits.Habit>, cs: seq<Habits.Completion>, current: Option<string>, today: int): int {
    Percent(CompletedCount(hs, cs, current, today), |hs|)
  }

  /** Progress lies between 0 and 100; it is 100 when every habit is done
      (and there is one) and 0 when none is. */
  lemma TotalProgressBounds(hs: seq<Habits.Habit>, cs: seq<Habits.Completion>, current: Option<string>, today: int)
    ensures 0 <= TotalProgress(hs, cs, current, today) <= 100
    ensures hs != [] && CompletedCount(hs, cs, current, today) == |hs| ==> TotalProgress(hs, cs, current, today) == 100
    ensures CompletedCount(hs, cs, current, today) == 0 ==> TotalProgress(hs, cs, current, today) == 0
  {
    PercentBounds(CompletedCount(hs, cs, current, today), |hs|);
  }

  datatype HabitIcon = Moon | Brain | Droplets | BookOpen | Dumbbell | Apple

  /** The emoji keys of the icon map. */
  const IconMap: map<string, HabitIcon> := map[
    "\U{1F319}" := Moon, "\U{1F9E0}" := Brain, "\U{1F4A7}" := Droplets,
    "\U{1F4D6}" := BookOpen, "\U{1F4AA}" := Dumbbell, "\U{1F34E}" := Apple]

  /** `iconMap[habit.icon] || Moon`. */
  function IconFor(icon: string): (r: HabitIcon)
    ensures icon in IconMap ==> r == IconMap[icon]
    ensures icon !in IconMap ==> r == Moon
  {
    if icon in IconMap then IconMap[icon] else Moon
  }

  /** A habit stored with the placeholder icon of `addHabit` is drawn with
      the moon, as is any icon outside the map. */
  lemma PlaceholderShowsMoon()
    ensures IconFor(Habits.PlaceholderIcon) == Moon
  {
    assert Habits.PlaceholderIcon !in IconMap by {
      assert Habits.PlaceholderIcon[0] == '\U{F0}';
    }
  }

  datatype HabitForm = HabitForm(title: string, icon: string, color: string)

  const EmptyForm: HabitForm := HabitForm("", "\U{1F319}", "turquoise")

  /** The argument `handleSubmit` passes to `addHabit`. */
  function FormInput(f: HabitForm): Habits.HabitInput {
    Habits.HabitInput(f.title, Some(f.icon), Some(f.color), None)
  }

  /** The row the form inserts: the form's title, icon and color (the
      defaults replacing empty ones) and one completion per day. */
  lemma FormRow(coupleId: string, f: HabitForm)
    ensures var r := Habits.NewHabitRow(coupleId, FormInput(f));
      && r.title == f.title && r.targetPerDay == 1
      && r.icon == (if f.icon != "" then f.icon else Habits.PlaceholderIcon)
      && r.color == (if f.color != "" then f.color else "turquoise")
  {
  }

  /** The page's form and dialog state. */
  class HabitsPageState {
    var showAddDialog: bool
    var deleteId: Option<string>
    var saving: bool
    var form: HabitForm

    constructor ()
      ensures !showAddDialog && deleteId.None? && !saving && form == EmptyForm
    {
      showAddDialog := false;
      deleteId := None;
      saving := false;
      form := EmptyForm;
    }

    /** `handleSubmit`: an empty title submits nothing. Otherwise the form's
        habit is submitted and saving ends; when `addHabit` answers true the
        dialog closes and the form is reset, otherwise both stay. */
    method HandleSubmit(added: bool) returns (submitted: Option<Habits.HabitInput>)
      modifies this
      ensures deleteId == old(deleteId)
      ensures old(form).title == "" ==> submitted.None? && showAddDialog == old(showAddDialog) && saving == old(saving) && form == old(form)
      ensures old(form).title != "" ==> submitted == Some(FormInput(old(form))) && !saving
      ensures old(form).title != "" && added ==> !showAddDialog && form == EmptyForm
      ensures old(form).title != "" && !added ==> showAddDialog == old(showAddDialog) && form == old(form)
    {
      if form.title == "" {
        return None;
      }
      saving := true;
      submitted := Some(FormInput(form));
      saving := false;
      if added {
        showAddDialog := false;
        form := EmptyForm;
      }
    }

    /** `handleDelete`: without a pending id nothing happens; otherwise that
        habit is deleted and the id cleared. */
    method HandleDelete() returns (deleted: Option<string>)
      modifies this
      ensures showAddDialog == old(showAddDialog) && saving == old(saving) && form == old(form)
      ensures !Given(old(deleteId)) ==> deleted.None? && deleteId == old(deleteId)
      ensures Given(old(deleteId)) ==> deleted == old(deleteId) && deleteId.None?
    {
      if !Given(deleteId) {
        return None;
      }
      deleted := deleteId;
      deleteId := None;
    }
  }
}
