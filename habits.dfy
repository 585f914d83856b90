/** The habit replica of one couple (src/hooks/useHabits.tsx): the couple's
    habits, the completions fetched for today, and mutations that reload the
    affected list once the service acknowledges them. */
module Habits {
  import opened Common
  import opened Realtime

  datatype Habit = Habit(
    id: string, coupleId: string, title: string, icon: string,
    color: string, targetPerDay: int, createdAt: string)

  /** `completedAt` is the completion's date as a day number (days since
      1970-01-01); `today` below is the day number of the current date. */
  datatype Completion = Completion(id: string, habitId: string, userId: string, completedAt: int)

  /** The argument of `addHabit`; absent fields are None. */
  datatype HabitInput = HabitInput(
    title: string, icon: Option<string>, color: Option<string>, targetPerDay: Option<int>)

  /** The row `addHabit` inserts. */
  datatype HabitRow = HabitRow(coupleId: string, title: string, icon: string, color: string, targetPerDay: int)

  /** What `toggleCompletion` asks of the service. */
  datatype ToggleRequest = DeleteCompletion(completionId: string) | InsertCompletion(habitId: string, userId: string)

  /** The icon `addHabit` uses when none is given, as the characters the
      source file holds (a pushpin emoji read with the wrong encoding). */
  const PlaceholderIcon: string := "ðŸ“Œ"

  /** `habit.icon || placeholder`, `habit.color || 'turquoise'`,
      `habit.target_per_day || 1`: every field of the row is truthy, and a
      truthy argument is kept as given. */
  function NewHabitRow(coupleId: string, h: HabitInput): (r: HabitRow)
    ensures r.coupleId == coupleId && r.title == h.title
    ensures r.icon != "" && r.color != "" && r.targetPerDay != 0
    ensures Given(h.icon) ==> r.icon == h.icon.value
    ensures Given(h.color) ==> r.color == h.color.value
    ensures NonZero(h.targetPerDay) ==> r.targetPerDay == h.targetPerDay.value
    ensures !Given(h.icon) ==> r.icon == PlaceholderIcon
    ensures !Given(h.color) ==> r.color == "turquoise"
    ensures !NonZero(h.targetPerDay) ==> r.targetPerDay == 1
  {
    HabitRow(coupleId, h.title,
      if Given(h.icon) then h.icon.value else PlaceholderIcon,
      if Given(h.color) then h.color.value else "turquoise",
      if NonZero(h.targetPerDay) then h.targetPerDay.value else 1)
  }

  /** Whether the completion is of this habit, by this user, on this day. */
  predicate IsMine(c: Completion, habitId: string, userId: string, today: int) {
    c.habitId == habitId && c.userId == userId && c.completedAt == today
  }

  /** `isCompletedToday(habitId, userId)`: the given user when `userId` is
      truthy, else the signed-in user (no one when signed out). */
  predicate CompletedToday(cs: seq<Completion>, habitId: string, userId: Option<string>,
                           current: Option<string>, today: int) {
    if Given(userId) then exists k :: 0 <= k < |cs| && IsMine(cs[k], habitId, userId.value, today)
    else current.Some? && exists k :: 0 <= k < |cs| && IsMine(cs[k], habitId, current.value, today)
  }

  /** `completions.find(...)` in `toggleCompletion`: the first completion of
      this habit by this user today. */
  function FindMine(cs: seq<Completion>, habitId: string, userId: string, today: int): (r: Option<nat>)
    ensures r.Some? ==> r.value < |cs| && IsMine(cs[r.value], habitId, userId, today)
    ensures r.Some? ==> forall k :: 0 <= k < r.value ==> !IsMine(cs[k], habitId, userId, today)
    ensures r.None? ==> forall k :: 0 <= k < |cs| ==> !IsMine(cs[k], habitId, userId, today)
  {
    if cs == [] then None
    else if IsMine(cs[0], habitId, userId, today) then Some(0)
    else
      var rest := FindMine(cs[1..], habitId, userId, today);
      if rest.None? then None else Some(rest.value + 1)
  }

  /** A toggle by the signed-in user deletes exactly when the page shows the
      habit as completed today for that user. */
  lemma ToggleDeletesIffCompleted(cs: seq<Completion>, habitId: string, userId: string, today: int)
    ensures FindMine(cs, habitId, userId, today).Some?
        <==> CompletedToday(cs, habitId, None, Some(userId), today)
  {
    var r := FindMine(cs, habitId, userId, today);
    if r.Some? {
      assert IsMine(cs[r.value], habitId, userId, today);
    }
  }

  /** The replica of `useHabits`. */
  class HabitStore {
    var userId: Option<string>
    var coupleId: Option<string>
    var habits: seq<Habit>
    var completions: seq<Completion>
    var loading: bool

    constructor (userId: Option<string>, coupleId: Option<string>)
      ensures this.userId == userId && this.coupleId == coupleId
      ensures habits == [] && completions == [] && loading
    {
      this.userId := userId;
      this.coupleId := coupleId;
      habits := [];
      completions := [];
      loading := true;
    }

    /** The session changed; the lists are kept. Both fetches run again when
        the couple id changed. */
    method SetScope(userId: Option<string>, coupleId: Option<string>) returns (reload: bool)
      modifies this
      ensures this.userId == userId && this.coupleId == coupleId
      ensures habits == old(habits) && completions == old(completions) && loading == old(loading)
      ensures reload == (coupleId != old(this.coupleId))
    {
      reload := coupleId != this.coupleId;
      this.userId := userId;
      this.coupleId := coupleId;
    }

    /** `fetchHabits`: nothing happens without a couple or on an error; a
        successful query replaces the habits and ends loading. */
    method FetchHabits(result: Fetch<Habit>)
      modifies this
      ensures userId == old(userId) && coupleId == old(coupleId) && completions == old(completions)
      ensures Given(coupleId) && result.Rows? ==> habits == result.rows && !loading
      ensures !(Given(coupleId) && result.Rows?) ==> habits == old(habits) && loading == old(loading)
    {
      if !Given(coupleId) {
        return;
      }
      if result.FetchError? {
        return;
      }
      habits := result.rows;
      loading := false;
    }

    /** `fetchCompletions`: as FetchHabits, for the completions; `loading` is
        not touched. */
    method FetchCompletions(result: Fetch<Completion>)
      modifies this
      ensures userId == old(userId) && coupleId == old(coupleId)
      ensures habits == old(habits) && loading == old(loading)
      ensures Given(coupleId) && result.Rows? ==> completions == result.rows
      ensures !(Given(coupleId) && result.Rows?) ==> completions == old(completions)
    {
      if !Given(coupleId) {
        return;
      }
      if result.FetchError? {
        return;
      }
      completions := result.rows;
    }

    /** `addHabit`: without a couple it returns nothing and inserts nothing;
        otherwise it inserts the defaulted row and answers whether the
        service accepted it, reloading the habits only then. */
    method AddHabit(h: HabitInput, reply: Mutation)
      returns (request: Option<HabitRow>, outcome: Option<bool>, reload: bool)
      ensures !Given(coupleId) ==> request.None? && outcome.None? && !reload
      ensures Given(coupleId) ==>
        && request == Some(NewHabitRow(coupleId.value, h))
        && outcome == Some(reply.Ack?) && reload == reply.Ack?
    {
      if !Given(coupleId) {
        return None, None, false;
      }
      request := Some(NewHabitRow(coupleId.value, h));
      outcome := Some(reply.Ack?);
      reload := reply.Ack?;
    }

    /** `deleteHabit`: the delete of that habit is always issued; true and a
        reload of the habits on success, false and no reload on an error. */
    method DeleteHabit(id: string, reply: Mutation) returns (request: RowRequest, ok: bool, reload: bool)
      ensures request == DeleteRow("habits", id)
      ensures ok == reply.Ack? && reload == ok
    {
      request := DeleteRow("habits", id);
      ok := reply.Ack?;
      reload := ok;
    }

    /** `toggleCompletion`: without a signed-in user nothing happens and
        nothing is answered. Otherwise it deletes the first completion of this
        habit by the user today if there is one, and inserts a completion
        otherwise; on success it reloads the completions and answers true, on
        an error it answers false without reloading. */
    method ToggleCompletion(habitId: string, today: int, reply: Mutation)
      returns (request: Option<ToggleRequest>, outcome: Option<bool>, reload: bool)
      ensures !Given(userId) ==> request.None? && outcome.None? && !reload
      ensures Given(userId) ==> outcome == Some(reply.Ack?) && reload == reply.Ack?
      ensures Given(userId) ==>
        && request.Some?
        && (request.value.DeleteCompletion? <==> CompletedToday(completions, habitId, None, userId, today))
      ensures Given(userId) && CompletedToday(completions, habitId, None, userId, today) ==>
        var k := FindMine(completions, habitId, userId.value, today).value;
        && IsMine(completions[k], habitId, userId.value, today)
        && request == Some(DeleteCompletion(completions[k].id))
      ensures Given(userId) && !CompletedToday(completions, habitId, None, userId, today) ==>
        request == Some(InsertCompletion(habitId, userId.value))
    {
      if !Given(userId) {
        return None, None, false;
      }
      var existing := FindMine(completions, habitId, userId.value, today);
      ToggleDeletesIffCompleted(completions, habitId, userId.value, today);
      if existing.Some? {
        request := Some(DeleteCompletion(completions[existing.value].id));
      } else {
        request := Some(InsertCompletion(habitId, userId.value));
      }
      outcome := Some(reply.Ack?);
      reload := reply.Ack?;
    }

    /** The realtime callbacks: while a couple is bound, any change on
        `habits` reloads the habits and any change on `habit_completions`
        reloads the completions, whichever couple the row belongs to. */
    method OnChange(c: Change) returns (reloadHabits: bool, reloadCompletions: bool)
      ensures reloadHabits == (Given(coupleId) && c.table == "habits")
      ensures reloadCompletions == (Given(coupleId) && c.table == "habit_completions")
    {
      TableChannelReceives("habits", coupleId, false, c);
      TableChannelReceives("habit_completions", coupleId, false, c);
      reloadHabits := Receives(TableChannel("habits", coupleId, false), c);
      reloadCompletions := Receives(TableChannel("habit_completions", coupleId, false), c);
    }
  }
}
