/** Roadmap.tsx: the implementation roadmap. Two tabs list three phases per
    variant; a click on a phase flips its entry in one record of expanded
    phases keyed by the phase id, which both tabs read. The tabs are bound
    to the shared variant selection. Titles, texts and deliverables are not
    part of this model. */
module Roadmap {
  import opened Quote
  import opened VariantContext

  /** A phase of the roadmap, with its duration label. */
  datatype Phase = Phase(id: string, duration: string)

  /** `basicPhases`. */
  function BasicPhases(): seq<Phase> {
    [Phase("01", "2 недели"), Phase("02", "1.5 месяца"), Phase("03", "1 месяц")]
  }

  /** `optimalPhases`. */
  function OptimalPhases(): seq<Phase> {
    [Phase("01", "1 месяц"), Phase("02", "2 - 3 месяца"), Phase("03", "1 - 2 месяца")]
  }

  /** `expandedPhases[id]`: an absent id reads as collapsed. */
  predicate Expanded(expanded: map<string, bool>, id: string) {
    Selected(expanded, id)
  }

  /** Each variant has three phases, and the two lists use the same ids in
      the same order. */
  lemma SharedIds()
    ensures |BasicPhases()| == 3 && |OptimalPhases()| == 3
    ensures forall k :: 0 <= k < 3 ==> BasicPhases()[k].id == OptimalPhases()[k].id
  {
  }

  /** Expanding a phase in one tab expands the phase at the same position in
      the other tab, and no phase of either tab other than that one changes. */
  lemma ToggleActsOnBothTabs(expanded: map<string, bool>, k: int, j: int)
    requires 0 <= k < 3 && 0 <= j < 3
    ensures var after := Toggle(expanded, BasicPhases()[k].id);
      && (Expanded(after, OptimalPhases()[k].id) <==> !Expanded(expanded, OptimalPhases()[k].id))
      && (j != k ==> (Expanded(after, BasicPhases()[j].id) <==> Expanded(expanded, BasicPhases()[j].id)))
      && (j != k ==> (Expanded(after, OptimalPhases()[j].id) <==> Expanded(expanded, OptimalPhases()[j].id)))
  {
    SharedIds();
    var after := Toggle(expanded, BasicPhases()[k].id);
    if j != k {
      assert BasicPhases()[j].id != BasicPhases()[k].id;
    }
  }

  /** At first no phase is expanded. */
  lemma NoneExpandedInitially(id: string)
    ensures !Expanded(map[], id)
  {
  }

  /** The phases the page renders as written: the tabs are bound to the
      selection, and the initial 'all' matches neither tab, so no phase is
      rendered until a tab is clicked. */
  function ShownPhases(sel: Selection): (r: seq<Phase>)
    ensures sel == AllVariants ==> r == []
    ensures sel == BasicOnly ==> r == BasicPhases()
    ensures sel == OptimalOnly ==> r == OptimalPhases()
  {
    match sel
    case BasicOnly => BasicPhases()
    case OptimalOnly => OptimalPhases()
    case AllVariants => []
  }

  /** Right after the provider starts, the roadmap shows nothing. */
  lemma InitialShowsNoPhase()
    ensures ShownPhases(InitialSelection) == []
  {
  }

  /** The tab as the `defaultValue` fallback to 'optimal' intends it: a
      selection that is not 'basic' shows the optimal phases, as the Gantt
      chart does. */
  function ShownPhasesCorrected(sel: Selection): (r: seq<Phase>)
    ensures |r| == 3
    ensures r == BasicPhases() <==> sel == BasicOnly
    ensures sel != BasicOnly ==> r == OptimalPhases()
  {
    if sel == BasicOnly then BasicPhases() else OptimalPhases()
  }

  /** With the correction every selection shows three phases, and the
      initial one shows the optimal roadmap. */
  lemma CorrectedAlwaysShowsPhases(sel: Selection)
    ensures |ShownPhasesCorrected(sel)| == 3
    ensures ShownPhasesCorrected(InitialSelection) == OptimalPhases() != ShownPhases(InitialSelection)
    ensures sel != AllVariants ==> ShownPhasesCorrected(sel) == ShownPhases(sel)
  {
  }

  /** The page's state. */
  class RoadmapPage {
    var expandedPhases: map<string, bool>

    constructor()
      ensures expandedPhases == map[]
      ensures forall id :: !Expanded(expandedPhases, id)
    {
      expandedPhases := map[];
    }

    /** `togglePhase`. */
    method TogglePhase(phaseId: string)
      modifies this
      ensures expandedPhases == Toggle(old(expandedPhases), phaseId)
    {
      expandedPhases := expandedPhases[phaseId := !(phaseId in expandedPhases && expandedPhases[phaseId])];
    }
  }
}
