/** GanttChart.tsx: the implementation timeline. The basic variant runs over
    4 months and every other selection shows the optimal variant's 6; each
    task's bar starts at `(startMonth - 1) / totalMonths` of the width and
    is `duration / totalMonths` wide, and its badge names the first and the
    last month. Titles, descriptions, icons and detail lines are not part of
    this model. */
module Gantt {
  import opened Text
  import opened VariantContext

  /** A task of the timeline. */
  datatype Task = Task(id: string, startMonth: int, duration: int)

  /** The module-level `tasks` list, which the component never renders. */
  function ModuleTasks(): seq<Task> {
    [Task("phase1", 1, 1), Task("phase2", 2, 3), Task("phase3", 5, 2)]
  }

  /** `basicTasks`. */
  function BasicTasks(): seq<Task> {
    [Task("basic-phase1", 1, 1), Task("basic-phase2", 2, 2), Task("basic-phase3", 4, 1)]
  }

  /** `optimalTasks`. */
  function OptimalTasks(): seq<Task> {
    [Task("opt-phase1", 1, 1), Task("opt-phase2", 2, 3), Task("opt-phase3", 5, 2)]
  }

  /** `currentTasks`: the basic list for 'basic', the optimal one otherwise. */
  function CurrentTasks(sel: Selection): (r: seq<Task>)
    ensures r == BasicTasks() <==> sel == BasicOnly
    ensures r == OptimalTasks() <==> sel != BasicOnly
    ensures r != ModuleTasks()
  {
    if sel == BasicOnly then BasicTasks() else OptimalTasks()
  }

  /** `totalMonths`. */
  function TotalMonths(sel: Selection): (n: int)
    ensures n == 4 <==> sel == BasicOnly
    ensures n == 6 <==> sel != BasicOnly
  {
    if sel == BasicOnly then 4 else 6
  }

  /** The badge's last month. */
  function EndMonth(t: Task): int {
    t.startMonth + t.duration - 1
  }

  /** Whether month `m` falls within task `t`. */
  predicate Contains(t: Task, m: int) {
    t.startMonth <= m <= EndMonth(t)
  }

  /** Whether some task contains month `m`. */
  predicate Covered(tasks: seq<Task>, m: int) {
    exists k :: 0 <= k < |tasks| && Contains(tasks[k], m)
  }

  /** Consecutive tasks follow one another without gap or overlap, each at least a
      month long, from month `start` to month `end`. */
  predicate Tiles(tasks: seq<Task>, start: int, end: int)
    decreases |tasks|
  {
    if |tasks| == 0 then start == end + 1
    else tasks[0].startMonth == start && tasks[0].duration >= 1 && Tiles(tasks[1..], start + tasks[0].duration, end)
  }

  /** Tiled tasks lie within the range in order, each ending before the next
      begins, and every month of the range falls in one of them. */
  lemma {:induction false} TilesCover(tasks: seq<Task>, start: int, end: int)
    requires Tiles(tasks, start, end)
    ensures forall k :: 0 <= k < |tasks| ==> start <= tasks[k].startMonth && EndMonth(tasks[k]) <= end
    ensures forall i, j :: 0 <= i < j < |tasks| ==> EndMonth(tasks[i]) < tasks[j].startMonth
    ensures forall m :: start <= m <= end ==> Covered(tasks, m)
    decreases |tasks|
  {
    if |tasks| > 0 {
      var rest := tasks[1..];
      TilesCover(rest, start + tasks[0].duration, end);
      forall i, j | 0 <= i < j < |tasks|
        ensures EndMonth(tasks[i]) < tasks[j].startMonth
      {
        if i > 0 {
          assert tasks[i] == rest[i - 1] && tasks[j] == rest[j - 1];
        } else {
          assert tasks[j] == rest[j - 1];
        }
      }
      forall m | start <= m <= end
        ensures Covered(tasks, m)
      {
        if m > EndMonth(tasks[0]) {
          assert Covered(rest, m);
          var k :| 0 <= k < |rest| && Contains(rest[k], m);
          assert tasks[k + 1] == rest[k];
        } else {
          assert Contains(tasks[0], m);
        }
      }
    }
  }

  /** With tiled tasks each month belongs to exactly one task. */
  lemma OneTaskPerMonth(tasks: seq<Task>, start: int, end: int, m: int, i: int, j: int)
    requires Tiles(tasks, start, end)
    requires 0 <= i < |tasks| && 0 <= j < |tasks|
    requires Contains(tasks[i], m) && Contains(tasks[j], m)
    ensures i == j
  {
    TilesCover(tasks, start, end);
  }

  /** Both lists tile their timelines, months 1 to 4 and 1 to 6; whichever
      selection is current, the list on screen tiles the months on screen. */
  lemma ListsTile(sel: Selection)
    ensures Tiles(BasicTasks(), 1, 4) && Tiles(OptimalTasks(), 1, 6)
    ensures Tiles(CurrentTasks(sel), 1, TotalMonths(sel))
  {
    var b := BasicTasks();
    assert b[1..][1..] == b[2..];
    var o := OptimalTasks();
    assert o[1..][1..] == o[2..];
  }

  /** The last task ends with the timeline: 4 months for basic, 6 for
      optimal. */
  lemma LastTaskEnds()
    ensures EndMonth(BasicTasks()[2]) == 4 && EndMonth(OptimalTasks()[2]) == 6
  {
  }

  /** The bar's left offset in percent of the chart. */
  function Left(t: Task, totalMonths: int): real
    requires totalMonths > 0
  {
    (t.startMonth - 1) as real / totalMonths as real * 100.0
  }

  /** The bar's width in percent of the chart. */
  function Width(t: Task, totalMonths: int): real
    requires totalMonths > 0
  {
    t.duration as real / totalMonths as real * 100.0
  }

  /** A task within months 1 to `totalMonths` draws a bar inside the chart:
      it starts at or right of the left edge, has a positive width and ends
      at `EndMonth / totalMonths`, so at or left of the right edge. */
  lemma BarInside(t: Task, totalMonths: int)
    requires totalMonths > 0 && t.duration >= 1
    requires 1 <= t.startMonth && EndMonth(t) <= totalMonths
    ensures 0.0 <= Left(t, totalMonths)
    ensures Width(t, totalMonths) > 0.0
    ensures Left(t, totalMonths) + Width(t, totalMonths) == EndMonth(t) as real / totalMonths as real * 100.0
    ensures Left(t, totalMonths) + Width(t, totalMonths) <= 100.0
  {
    var n := totalMonths as real;
    assert Left(t, totalMonths) + Width(t, totalMonths) == ((t.startMonth - 1) as real + t.duration as real) / n * 100.0;
    assert EndMonth(t) as real <= n;
    assert EndMonth(t) as real / n <= 1.0;
  }

  /** Consecutive tiled bars touch: each begins where the previous ends. */
  lemma BarsTouch(a: Task, b: Task, totalMonths: int)
    requires totalMonths > 0
    requires b.startMonth == a.startMonth + a.duration
    ensures Left(b, totalMonths) == Left(a, totalMonths) + Width(a, totalMonths)
  {
    var n := totalMonths as real;
    assert Left(a, totalMonths) + Width(a, totalMonths) == ((a.startMonth - 1) as real + a.duration as real) / n * 100.0;
  }

  /** Every bar the chart draws, for any selection, lies inside it. */
  lemma ShownBarsInside(sel: Selection, k: int)
    requires 0 <= k < |CurrentTasks(sel)|
    ensures var t := CurrentTasks(sel)[k];
      0.0 <= Left(t, TotalMonths(sel)) && Left(t, TotalMonths(sel)) + Width(t, TotalMonths(sel)) <= 100.0
  {
    ListsTile(sel);
    TilesCover(CurrentTasks(sel), 1, TotalMonths(sel));
    var t := CurrentTasks(sel)[k];
    assert t.duration >= 1;
    BarInside(t, TotalMonths(sel));
  }

  /** The chart's hover state: the hovered task, whose details
      panel is open. */
  class GanttView {
    var activeTask: Option<string>

    constructor()
      ensures activeTask == None
    {
      activeTask := None;
    }

    /** Whether a task's details panel is open. */
    predicate Expanded(t: Task)
      reads this
    {
      activeTask == Some(t.id)
    }

    /** `onMouseEnter`. */
    method Enter(t: Task)
      modifies this
      ensures activeTask == Some(t.id) && Expanded(t)
    {
      activeTask := Some(t.id);
    }

    /** `onMouseLeave`. */
    method Leave()
      modifies this
      ensures activeTask == None
    {
      activeTask := None;
    }
  }

  /** Task ids are distinct within each list, so at most one panel is open. */
  lemma OnePanelOpen(sel: Selection, i: int, j: int, active: string)
    requires 0 <= i < |CurrentTasks(sel)| && 0 <= j < |CurrentTasks(sel)|
    requires CurrentTasks(sel)[i].id == active && CurrentTasks(sel)[j].id == active
    ensures i == j
  {
  }
}
