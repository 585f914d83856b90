/** The money page (src/pages/Money.tsx): the spending per category, its
    total and percentages, the slices shown, and the form handlers. */
module MoneyPage {
  import opened Common
  import opened Transactions

  /** The transactions of category c. */
  function InCategory(c: string): Transaction -> bool {
    (t: Transaction) => t.category == c
  }

  /** What category c has spent over the expenses `es`. */
  function SpentOn(es: seq<Transaction>, c: string): int {
    SumAmounts(Filter(es, InCategory(c)))
  }

  /** The categories of `es` in the order they first occur, which is the
      order in which the accumulator object gains its keys. */
  function Categories(es: seq<Transaction>): seq<string> {
    if es == [] then []
    else
      var seen := Categories(es[..|es| - 1]);
      var c := es[|es| - 1].category;
      if c in seen then seen else seen + [c]
  }

  predicate Distinct(order: seq<string>) {
    forall i, j :: 0 <= i < j < |order| ==> order[i] != order[j]
  }

  lemma DistinctSnoc(s: seq<string>, c: string)
    requires Distinct(s) && c !in s
    ensures Distinct(s + [c])
  {
    var t := s + [c];
    forall i, j | 0 <= i < j < |t| ensures t[i] != t[j] {
      if j < |s| {
        assert t[i] == s[i] && t[j] == s[j];
      } else {
        assert t[i] == s[i] && t[j] == c;
      }
    }
  }

  /** Every category of `es` is listed exactly once, and nothing else is. */
  lemma {:induction false} CategoriesExact(es: seq<Transaction>)
    ensures Distinct(Categories(es))
    ensures forall c :: c in Categories(es) <==> exists k :: 0 <= k < |es| && es[k].category == c
  {
    if es != [] {
      var p := es[..|es| - 1];
      var last := es[|es| - 1].category;
      var seen := Categories(p);
      CategoriesExact(p);
      assert Categories(es) == if last in seen then seen else seen + [last];
      if last !in seen {
        DistinctSnoc(seen, last);
      }
      forall c | c in Categories(es)
        ensures exists k :: 0 <= k < |es| && es[k].category == c
      {
        if c in seen {
          var k :| 0 <= k < |p| && p[k].category == c;
          assert es[k] == p[k];
        } else {
          assert es[|es| - 1].category == c;
        }
      }
      forall c | exists k :: 0 <= k < |es| && es[k].category == c
        ensures c in Categories(es)
      {
        var k :| 0 <= k < |es| && es[k].category == c;
        if k < |p| {
          assert p[k] == es[k];
        }
      }
    }
  }

  /** Adding one transaction adds its amount to its own category only. */
  lemma SpentOnSnoc(es: seq<Transaction>, e: Transaction, c: string)
    ensures SpentOn(es + [e], c) == SpentOn(es, c) + (if e.category == c then e.amount else 0)
  {
    FilterAppend(es, [e], InCategory(c));
    SumAmountsAppend(Filter(es, InCategory(c)), Filter([e], InCategory(c)));
    assert SumAmounts([e]) == e.amount;
    if e.category == c {
      assert Filter([e], InCategory(c)) == [e];
    } else {
      assert Filter([e], InCategory(c)) == [];
    }
  }

  /** A category that no transaction has has spent nothing. */
  lemma SpentOnAbsent(es: seq<Transaction>, c: string)
    requires forall k :: 0 <= k < |es| ==> es[k].category != c
    ensures SpentOn(es, c) == 0
  {
    FilterNone(es, InCategory(c));
  }

  /** The sum of what the categories in `order` have spent. */
  function TotalOver(order: seq<string>, es: seq<Transaction>): int {
    if order == [] then 0
    else TotalOver(order[..|order| - 1], es) + SpentOn(es, order[|order| - 1])
  }

  lemma {:induction false} TotalOverSnoc(order: seq<string>, es: seq<Transaction>, e: Transaction)
    requires Distinct(order)
    ensures TotalOver(order, es + [e]) == TotalOver(order, es) + (if e.category in order then e.amount else 0)
  {
    if order != [] {
      var init := order[..|order| - 1];
      assert Distinct(init);
      TotalOverSnoc(init, es, e);
      SpentOnSnoc(es, e, order[|order| - 1]);
      assert e.category in order <==> e.category in init || e.category == order[|order| - 1];
      if e.category == order[|order| - 1] {
        assert e.category !in init;
      }
    }
  }

  /** Adding up the per-category spending gives the sum of all the amounts. */
  lemma {:induction false} TotalOverCategories(es: seq<Transaction>)
    ensures TotalOver(Categories(es), es) == SumAmounts(es)
  {
    if es != [] {
      var p := es[..|es| - 1];
      var e := es[|es| - 1];
      var seen := Categories(p);
      assert es == p + [e];
      TotalOverCategories(p);
      CategoriesExact(p);
      TotalOverSnoc(seen, p, e);
      if e.category !in seen {
        assert Categories(es) == seen + [e.category];
        assert (seen + [e.category])[..|seen|] == seen;
        SpentOnSnoc(p, e, e.category);
        SpentOnAbsent(p, e.category);
      }
    }
  }

  /** `Object.values(categorySpending).reduce((a, b) => a + b, 0)`. */
  function SumValues(order: seq<string>, spent: map<string, int>): int
    requires forall c :: c in order ==> c in spent
  {
    if order == [] then 0 else SumValues(order[..|order| - 1], spent) + spent[order[|order| - 1]]
  }

  /** The accumulator of `categorySpending` after the expenses `es`: each
      listed category is mapped to what it spent. */
  ghost predicate Accumulates(es: seq<Transaction>, order: seq<string>, spent: map<string, int>) {
    && order == Categories(es)
    && (forall c :: c in spent <==> c in order)
    && (forall c :: c in spent ==> spent[c] == SpentOn(es, c))
  }

  /** One step of the fold, `acc[c] = (acc[c] || 0) + amount`: a new
      category is appended to the keys and starts from 0; a known one adds
      the amount to its sum. */
  function Step(order: seq<string>, spent: map<string, int>, e: Transaction): (seq<string>, map<string, int>) {
    (if e.category in spent then order else order + [e.category],
     spent[e.category := (if e.category in spent then spent[e.category] else 0) + e.amount])
  }

  /** `categorySpending`: the expenses folded into an object keyed by
      category. The keys come out in first-occurrence order; income is left
      out. */
  method CategorySpending(ts: seq<Transaction>) returns (order: seq<string>, spent: map<string, int>)
    ensures Accumulates(Filter(ts, IsExpense), order, spent)
  {
    order, spent := Fold(Filter(ts, IsExpense));
  }

  /** The `reduce` over the expenses `es`. */
  method Fold(es: seq<Transaction>) returns (order: seq<string>, spent: map<string, int>)
    ensures Accumulates(es, order, spent)
  {
    order := [];
    spent := map[];
    var i := 0;
    while i < |es|
      invariant 0 <= i <= |es|
      invariant Accumulates(es[..i], order, spent)
    {
      var e := es[i];
      AccumulatesSnoc(es, i, order, spent);
      order, spent := Step(order, spent, e).0, Step(order, spent, e).1;
      i := i + 1;
    }
    assert es[..|es|] == es;
  }

  /** One step of the fold keeps the accumulator exact. */
  lemma AccumulatesSnoc(es: seq<Transaction>, i: nat, order: seq<string>, spent: map<string, int>)
    requires i < |es| && Accumulates(es[..i], order, spent)
    ensures Accumulates(es[..i + 1], Step(order, spent, es[i]).0, Step(order, spent, es[i]).1)
  {
    var order', spent' := Step(order, spent, es[i]).0, Step(order, spent, es[i]).1;
    StepOrder(es, i, order, spent);
    StepValues(es, i, order, spent);
    assert order' == Categories(es[..i + 1]);
    assert forall c :: c in spent' <==> c in order';
    assert forall c :: c in spent' ==> spent'[c] == SpentOn(es[..i + 1], c);
  }

  lemma StepOrder(es: seq<Transaction>, i: nat, order: seq<string>, spent: map<string, int>)
    requires i < |es| && order == Categories(es[..i])
    requires forall c :: c in spent <==> c in order
    ensures Step(order, spent, es[i]).0 == Categories(es[..i + 1])
    ensures forall c :: c in Step(order, spent, es[i]).1 <==> c in Step(order, spent, es[i]).0
  {
    var q := es[..i + 1];
    assert q[..|q| - 1] == es[..i] && q[|q| - 1] == es[i];
  }

  lemma StepValues(es: seq<Transaction>, i: nat, order: seq<string>, spent: map<string, int>)
    requires i < |es| && order == Categories(es[..i])
    requires forall c :: c in spent <==> c in order
    requires forall c :: c in spent ==> spent[c] == SpentOn(es[..i], c)
    ensures forall c :: c in Step(order, spent, es[i]).1 ==> Step(order, spent, es[i]).1[c] == SpentOn(es[..i + 1], c)
  {
    var p, e := es[..i], es[i];
    assert es[..i + 1] == p + [e];
    var spent' := Step(order, spent, e).1;
    forall c | c in spent' ensures spent'[c] == SpentOn(p + [e], c) {
      SpentOnSnoc(p, e, c);
      if e.category !in spent && c == e.category {
        CategoriesExact(p);
        SpentOnAbsent(p, e.category);
      }
    }
  }

  /** `totalCategorySpending` is the hook's `totalExpense`. */
  lemma CategoryTotalIsExpense(ts: seq<Transaction>, order: seq<string>, spent: map<string, int>)
    requires Accumulates(Filter(ts, IsExpense), order, spent)
    ensures SumValues(order, spent) == TotalExpense(ts)
  {
    var es := Filter(ts, IsExpense);
    SumValuesIsTotal(order, spent, es);
    TotalOverCategories(es);
  }

  lemma {:induction false} SumValuesIsTotal(order: seq<string>, spent: map<string, int>, es: seq<Transaction>)
    requires forall c :: c in order ==> c in spent && spent[c] == SpentOn(es, c)
    ensures SumValues(order, spent) == TotalOver(order, es)
  {
    if order != [] {
      SumValuesIsTotal(order[..|order| - 1], spent, es);
    }
  }

  predicate NonNegative(es: seq<Transaction>) {
    forall k :: 0 <= k < |es| ==> es[k].amount >= 0
  }

  lemma {:induction false} SumAmountsNonNegative(es: seq<Transaction>)
    requires NonNegative(es)
    ensures SumAmounts(es) >= 0
  {
    if es != [] {
      SumAmountsNonNegative(es[..|es| - 1]);
    }
  }

  /** With amounts of at least 0, every category spends between nothing and
      the total. */
  lemma {:induction false} SpentWithinTotal(order: seq<string>, es: seq<Transaction>, c: string)
    requires NonNegative(es)
    ensures 0 <= SpentOn(es, c)
    ensures c in order ==> SpentOn(es, c) <= TotalOver(order, es)
    ensures 0 <= TotalOver(order, es)
  {
    var f := Filter(es, InCategory(c));
    assert NonNegative(f) by {
      forall k | 0 <= k < |f| ensures f[k].amount >= 0 {
        var j :| 0 <= j < |es| && es[j] == f[k];
      }
    }
    SumAmountsNonNegative(f);
    if order != [] {
      var init := order[..|order| - 1];
      SpentWithinTotal(init, es, c);
      SpentWithinTotal(init, es, order[|order| - 1]);
      if c != order[|order| - 1] {
        assert c in order ==> c in init;
      }
    }
  }

  /** The percentage of a category: `round(amount / total * 100)` when the
      total is positive, 0 otherwise. */
  function CategoryPercent(amount: int, total: int): int {
    Percent(amount, total)
  }

  /** With amounts of at least 0, every category's percentage lies between
      0 and 100, and a category that alone makes up the total shows 100. */
  lemma CategoryPercentBounds(ts: seq<Transaction>, order: seq<string>, spent: map<string, int>, c: string)
    requires Accumulates(Filter(ts, IsExpense), order, spent)
    requires NonNegative(ts)
    requires c in spent
    ensures 0 <= CategoryPercent(spent[c], SumValues(order, spent)) <= 100
    ensures spent[c] == SumValues(order, spent) && spent[c] > 0 ==> CategoryPercent(spent[c], SumValues(order, spent)) == 100
  {
    var es := Filter(ts, IsExpense);
    assert NonNegative(es) by {
      forall k | 0 <= k < |es| ensures es[k].amount >= 0 {
        var j :| 0 <= j < |ts| && ts[j] == es[k];
      }
    }
    SumValuesIsTotal(order, spent, es);
    SpentWithinTotal(order, es, c);
    PercentBounds(spent[c], SumValues(order, spent));
  }

  /** The category tiles: the first four categories with their percentages. */
  function CategoryTiles(order: seq<string>, spent: map<string, int>): (r: seq<(string, int)>)
    requires forall c :: c in order ==> c in spent
    ensures |r| == if |order| < 4 then |order| else 4
    ensures forall k :: 0 <= k < |r| ==> r[k] == (order[k], CategoryPercent(spent[order[k]], SumValues(order, spent)))
  {
    var shown := Take(order, 4);
    seq(|shown|, (k: int) requires 0 <= k < |shown| => (shown[k], CategoryPercent(spent[shown[k]], SumValues(order, spent))))
  }

  /** The recent list: the first ten transactions. */
  function RecentTransactions(ts: seq<Transaction>): (r: seq<Transaction>)
    ensures |r| == if |ts| < 10 then |ts| else 10
    ensures r == ts[..|r|]
  {
    Take(ts, 10)
  }

  datatype TransactionForm = TransactionForm(amount: string, kind: TxKind, category: string, description: string)

  const EmptyForm: TransactionForm := TransactionForm("", Expense, "Belanja", "")

  /** The argument `handleSubmit` passes to `addTransaction`; `parsed` is
      what `parseFloat` makes of the amount field. */
  function FormInput(f: TransactionForm, parsed: int): TransactionInput {
    TransactionInput(parsed, f.kind, f.category, Some(f.description))
  }

  /** The row the form inserts: the parsed amount, the form's kind and
      category, and no description when its field is empty. */
  lemma FormRow(userId: string, coupleId: string, f: TransactionForm, parsed: int)
    ensures var r := NewTransactionRow(userId, coupleId, FormInput(f, parsed));
      && r.amount == parsed && r.kind == f.kind && r.category == f.category
      && (r.description.None? <==> f.description == "")
      && (r.description.Some? ==> r.description.value == f.description)
  {
  }

  /** The page's form and dialog state. */
  class MoneyPageState {
    var showAddDialog: bool
    var deleteId: Option<string>
    var saving: bool
    var form: TransactionForm

    constructor ()
      ensures !showAddDialog && deleteId.None? && !saving && form == EmptyForm
    {
      showAddDialog := false;
      deleteId := None;
      saving := false;
      form := EmptyForm;
    }

    /** `handleSubmit`: an empty amount submits nothing. Otherwise the form's
        transaction is submitted and saving ends; when `addTransaction`
        answers true the dialog closes and the form is reset, otherwise both
        stay as they were. */
    method HandleSubmit(parsed: int, added: bool) returns (submitted: Option<TransactionInput>)
      modifies this
      ensures deleteId == old(deleteId)
      ensures old(form).amount == "" ==> submitted.None? && showAddDialog == old(showAddDialog) && saving == old(saving) && form == old(form)
      ensures old(form).amount != "" ==> submitted == Some(FormInput(old(form), parsed)) && !saving
      ensures old(form).amount != "" && added ==> !showAddDialog && form == EmptyForm
      ensures old(form).amount != "" && !added ==> showAddDialog == old(showAddDialog) && form == old(form)
    {
      if form.amount == "" {
        return None;
      }
      saving := true;
      submitted := Some(FormInput(form, parsed));
      saving := false;
      if added {
        showAddDialog := false;
        form := EmptyForm;
      }
    }

    /** `handleDelete`: without a pending id nothing happens; otherwise that
        transaction is deleted and the id is cleared whatever the outcome. */
    method HandleDelete() returns (deleted: Option<string>)
      modifies this
      ensures showAddDialog == old(showAddDialog) && saving == old(saving) && form == old(form)
      ensures !Given(old(deleteId)) ==> deleted.None? && deleteId == old(deleteId)
      ensures Given(old(deleteId)) ==> deleted == old(deleteId) && deleteId.None?
    {
      if !Given(deleteId) {
        return None;
      }
      deleted := deleteId;
      deleteId := None;
    }
  }
}
