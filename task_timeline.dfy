/** components/TaskTimeline.tsx: the legend of task categories, built by
    classifying every task and keeping each category once, in order of first
    occurrence; and the position and width of each task's bar, as
    percentages of the growth cycle. */
module TaskTimeline {
  import opened Types
  import opened JsBuiltins
  import Constants

  // ---------------------------------------------------------------------------
  // Legend

  /** A legend entry: a category label and its colour class. */
  datatype LegendItem = LegendItem(category: string, color: string)

  const MAINTENANCE := "Entretien / Préparation"
  const IRRIGATION := "Irrigation"
  const WEEDING := "Désherbage"
  const TREATMENT := "Traitement / Fertilisation"
  const HARVEST := "Récolte"
  const OTHER := "Autre"

  /** The six category labels the classification can produce. */
  const CATEGORIES: set<string> := {MAINTENANCE, IRRIGATION, WEEDING, TREATMENT, HARVEST, OTHER}

  /** The category and colour of a task name: the same keyword tests, in the
      same order, as the colour classifier, with 'Autre' and gray as the
      default. */
  function Classify(taskName: string): (item: LegendItem)
    ensures item.category in CATEGORIES
  {
    var lower := ToLower(taskName);
    if Includes(lower, "entretien") || Includes(lower, "préparation") then LegendItem(MAINTENANCE, "bg-blue-500")
    else if Includes(lower, "arrosage") || Includes(lower, "irrigation") then LegendItem(IRRIGATION, "bg-cyan-400")
    else if Includes(lower, "désherbage") then LegendItem(WEEDING, "bg-yellow-500")
    else if Includes(lower, "traitement") || Includes(lower, "fertilisation") then LegendItem(TREATMENT, "bg-purple-500")
    else if Includes(lower, "récolte") then LegendItem(HARVEST, "bg-green-600")
    else LegendItem(OTHER, "bg-gray-400")
  }

  /** The colour class of each category. */
  function CategoryColor(category: string): string
  {
    if category == MAINTENANCE then "bg-blue-500"
    else if category == IRRIGATION then "bg-cyan-400"
    else if category == WEEDING then "bg-yellow-500"
    else if category == TREATMENT then "bg-purple-500"
    else if category == HARVEST then "bg-green-600"
    else "bg-gray-400"
  }

  /** The legend colour of a task is the colour of its bar, and it is the
      colour of its category: the two keyword tables agree entry for entry. */
  lemma ClassifyAgreesWithTaskColor(taskName: string)
    ensures Classify(taskName).color == Constants.GetTaskColor(taskName)
    ensures Classify(taskName).color == CategoryColor(Classify(taskName).category)
  {
  }

  /** The item of each task, in task order. */
  function ItemsOf(tasks: seq<Task>): (items: seq<LegendItem>)
    ensures |items| == |tasks|
    ensures forall k :: 0 <= k < |tasks| ==> items[k] == Classify(tasks[k].task)
  {
    seq(|tasks|, k requires 0 <= k < |tasks| => Classify(tasks[k].task))
  }

  /** Items whose colour is the colour of their category. */
  predicate ColoredByCategory(items: seq<LegendItem>) {
    forall k :: 0 <= k < |items| ==> items[k].color == CategoryColor(items[k].category)
  }

  /** Every task's item is coloured by its category. */
  lemma TaskItemsColoredByCategory(tasks: seq<Task>)
    ensures ColoredByCategory(ItemsOf(tasks))
  {
    forall k | 0 <= k < |tasks|
      ensures ItemsOf(tasks)[k].color == CategoryColor(ItemsOf(tasks)[k].category)
    {
      ClassifyAgreesWithTaskColor(tasks[k].task);
    }
  }

  /** `acc.some(item => item.category === category)`. */
  predicate HasCategory(acc: seq<LegendItem>, category: string) {
    exists i :: 0 <= i < |acc| && acc[i].category == category
  }

  /** Each legend item is one of `items`. */
  predicate ItemsFrom(legend: seq<LegendItem>, items: seq<LegendItem>) {
    forall i :: 0 <= i < |legend| ==> legend[i] in items
  }

  /** Every one of `items` is in the legend. */
  predicate Covers(legend: seq<LegendItem>, items: seq<LegendItem>) {
    forall k :: 0 <= k < |items| ==> items[k] in legend
  }

  /** No category is listed twice. */
  predicate DistinctCategories(legend: seq<LegendItem>) {
    forall i, j :: 0 <= i < j < |legend| ==> legend[i].category != legend[j].category
  }

  /** An earlier legend item occurs in `items` before every occurrence of a
      later one. */
  predicate FirstOccurrenceOrder(legend: seq<LegendItem>, items: seq<LegendItem>) {
    forall i, j, k :: 0 <= i < j < |legend| && 0 <= k < |items| && items[k] == legend[j] ==>
      legend[i] in items[..k]
  }

  /** The `legendItems` reduce: classify each task in turn and push its item
      when no item with that category is there yet. The result lists the
      item of every task once per category, in order of first occurrence;
      there are at most six, and no more than there are tasks. */
  method BuildLegend(tasks: seq<Task>) returns (legend: seq<LegendItem>)
    ensures ItemsFrom(legend, ItemsOf(tasks))
    ensures Covers(legend, ItemsOf(tasks))
    ensures DistinctCategories(legend)
    ensures FirstOccurrenceOrder(legend, ItemsOf(tasks))
    ensures |legend| <= |CATEGORIES| == 6
    ensures |legend| <= |tasks|
  {
    ghost var items := ItemsOf(tasks);
    TaskItemsColoredByCategory(tasks);
    legend := [];
    var n := 0;
    while n < |tasks|
      invariant 0 <= n <= |tasks| && |legend| <= n
      invariant ItemsFrom(legend, items[..n])
      invariant Covers(legend, items[..n])
      invariant DistinctCategories(legend)
      invariant FirstOccurrenceOrder(legend, items[..n])
    {
      var item := Classify(tasks[n].task);
      if !HasCategory(legend, item.category) {
        NewItemExtendsLegend(legend, items, n);
        legend := legend + [item];
      } else {
        KnownItemKeepsLegend(legend, items, n);
      }
      n := n + 1;
    }
    assert items[..n] == items;
    LegendIsSmall(legend, items);
  }

  /** A legend of distinct categories drawn from classified items has at
      most six entries. */
  lemma LegendIsSmall(legend: seq<LegendItem>, items: seq<LegendItem>)
    requires ItemsFrom(legend, items) && DistinctCategories(legend)
    requires forall k :: 0 <= k < |items| ==> items[k].category in CATEGORIES
    ensures |legend| <= |CATEGORIES| == 6
  {
    var cats := set i | 0 <= i < |legend| :: legend[i].category;
    forall i | 0 <= i < |legend|
      ensures legend[i].category in CATEGORIES
    {
      var k :| 0 <= k < |items| && items[k] == legend[i];
    }
    DistinctCount(legend);
    SubsetCardinality(cats, CATEGORIES);
  }

  lemma {:induction false} DistinctCount(legend: seq<LegendItem>)
    requires DistinctCategories(legend)
    ensures |set i | 0 <= i < |legend| :: legend[i].category| == |legend|
    decreases |legend|
  {
    if legend != [] {
      var init := legend[..|legend| - 1];
      DistinctCount(init);
      var last := legend[|legend| - 1].category;
      assert (set i | 0 <= i < |legend| :: legend[i].category) == (set i | 0 <= i < |init| :: init[i].category) + {last};
      assert last !in (set i | 0 <= i < |init| :: init[i].category);
    }
  }

  /** Pushing item `n`, whose category is new, keeps the legend properties
      for the items up to `n`. */
  lemma NewItemExtendsLegend(legend: seq<LegendItem>, items: seq<LegendItem>, n: int)
    requires 0 <= n < |items| && !HasCategory(legend, items[n].category)
    requires ItemsFrom(legend, items[..n]) && Covers(legend, items[..n])
    requires DistinctCategories(legend) && FirstOccurrenceOrder(legend, items[..n])
    ensures var l, s := legend + [items[n]], items[..n + 1];
            && ItemsFrom(l, s) && Covers(l, s) && DistinctCategories(l) && FirstOccurrenceOrder(l, s)
  {
    var l, s, p := legend + [items[n]], items[..n + 1], items[..n];
    assert s == p + [items[n]];
    assert s[..n] == p;
    forall i, j, k | 0 <= i < j < |l| && 0 <= k < |s| && s[k] == l[j]
      ensures l[i] in s[..k]
    {
      if j == |legend| {
        if k < n {
          assert false;
        }
        assert l[i] in p;
      } else if k < n {
        assert s[..k] == p[..k];
      }
    }
  }

  /** Skipping item `n`, whose category is already listed, keeps the legend
      properties for the items up to `n`, the items being coloured by their
      category. */
  lemma KnownItemKeepsLegend(legend: seq<LegendItem>, items: seq<LegendItem>, n: int)
    requires 0 <= n < |items| && HasCategory(legend, items[n].category)
    requires ColoredByCategory(items)
    requires ItemsFrom(legend, items[..n]) && Covers(legend, items[..n])
    requires DistinctCategories(legend) && FirstOccurrenceOrder(legend, items[..n])
    ensures var s := items[..n + 1];
            ItemsFrom(legend, s) && Covers(legend, s) && FirstOccurrenceOrder(legend, s)
  {
    var s, p, item := items[..n + 1], items[..n], items[n];
    assert s == p + [item];
    assert s[..n] == p;
    var m :| 0 <= m < |legend| && legend[m].category == item.category;
    var km :| 0 <= km < |p| && p[km] == legend[m];
    assert items[km] == legend[m];
    assert legend[m] == item;
    forall i, j, k | 0 <= i < j < |legend| && 0 <= k < |s| && s[k] == legend[j]
      ensures legend[i] in s[..k]
    {
      if k < n {
        assert s[..k] == p[..k];
      }
    }
  }

  lemma {:induction false} SubsetCardinality(a: set<string>, b: set<string>)
    requires a <= b
    ensures |a| <= |b|
    decreases |b|
  {
    if a != {} {
      var x :| x in a;
      SubsetCardinality(a - {x}, b - {x});
    }
  }

  // ---------------------------------------------------------------------------
  // Bars

  /** A JavaScript number as far as the bar arithmetic needs one: a finite
      value, NaN or an infinity. */
  datatype JsNumber = Num(value: real) | NaN | PosInf | NegInf

  /** `a / b` on integers, as JavaScript evaluates it. */
  function Divide(a: int, b: int): (r: JsNumber)
    ensures r.Num? <==> b != 0
  {
    if b != 0 then Num(a as real / b as real)
    else if a > 0 then PosInf
    else if a < 0 then NegInf
    else NaN
  }

  /** `x * 100`. */
  function Times100(x: JsNumber): JsNumber
  {
    match x
    case Num(v) => Num(v * 100.0)
    case _ => x
  }

  /** `left = (startDay / totalDays) * 100`. */
  function BarLeft(task: Task, totalDays: int): JsNumber
  {
    Times100(Divide(task.startDay, totalDays))
  }

  /** `width = ((endDay - startDay) / totalDays) * 100`. */
  function BarWidth(task: Task, totalDays: int): JsNumber
  {
    Times100(Divide(task.endDay - task.startDay, totalDays))
  }

  /** On a positive cycle the bar starts at the start day's share of the
      cycle and ends at the end day's share, and it has a non-negative width
      exactly when the task does not end before it starts. */
  lemma BarGeometry(task: Task, totalDays: int)
    requires totalDays > 0
    ensures BarLeft(task, totalDays) == Num(task.startDay as real / totalDays as real * 100.0)
    ensures BarWidth(task, totalDays).Num?
    ensures BarLeft(task, totalDays).value + BarWidth(task, totalDays).value == task.endDay as real / totalDays as real * 100.0
    ensures BarWidth(task, totalDays).value >= 0.0 <==> task.endDay >= task.startDay
  {
    var t := totalDays as real;
    var s, e := task.startDay as real, task.endDay as real;
    assert (e - s) / t == e / t - s / t;
    if e < s {
      assert (e - s) / t < 0.0;
    }
  }

  /** A task inside the cycle gets a bar inside the timeline. */
  lemma BarInsideTimeline(task: Task, totalDays: int)
    requires 0 <= task.startDay <= task.endDay <= totalDays && totalDays > 0
    ensures 0.0 <= BarLeft(task, totalDays).value
    ensures BarLeft(task, totalDays).value + BarWidth(task, totalDays).value <= 100.0
  {
    BarGeometry(task, totalDays);
    ShareOfCycle(task.startDay, totalDays);
    ShareOfCycle(task.endDay, totalDays);
  }

  lemma ShareOfCycle(d: int, t: int)
    requires 0 <= d <= t && t > 0
    ensures 0.0 <= d as real / t as real * 100.0 <= 100.0
  {
    var q := d as real / t as real;
    assert q * t as real == d as real;
  }

  /** There is no guard for a zero-day cycle: every bar's position is then an
      infinity or NaN, never a number. */
  lemma ZeroCycleHasNoGeometry(task: Task)
    ensures !BarLeft(task, 0).Num? && !BarWidth(task, 0).Num?
    ensures task.startDay == 0 ==> BarLeft(task, 0) == NaN
    ensures task.startDay > 0 ==> BarLeft(task, 0) == PosInf
  {
  }
}
