/** Configurator.tsx: the three-step wizard that recommends a variant. Step
    1 asks for the document volume, step 2 whether high availability is
    needed, and step 3 shows the recommendation, which exists only there. */
module Configurator {
  import opened Text
  import opened Quote

  datatype Volume = Low | High
  datatype Availability = No | Yes

  /** The wizard's four state fields. */
  datatype Wizard = Wizard(step: int, volume: Volume, ha: Availability, recommendation: Option<Variant>)

  /** The initial state, which `reset` restores. */
  const Initial := Wizard(1, Low, No, None)

  /** The step is 1, 2 or 3, and a recommendation exists exactly at step 3. */
  predicate Valid(w: Wizard) {
    1 <= w.step <= 3 && (w.recommendation.Some? <==> w.step == 3)
  }

  /** `calculateRecommendation`'s choice. */
  function Recommend(volume: Volume, ha: Availability): (r: Variant)
    ensures r == Optimal <==> volume == High || ha == Yes
    ensures r == Basic <==> volume.Low? && ha.No?
  {
    if volume == High || ha == Yes then Optimal else Basic
  }

  /** `handleNext`: step 1 moves on, step 2 computes the recommendation and
      moves on, any other step stays as it is. */
  function Next(w: Wizard): (r: Wizard)
    ensures r.volume == w.volume && r.ha == w.ha
    ensures Valid(w) ==> Valid(r)
    ensures w.step == 1 ==> r == w.(step := 2)
    ensures w.step == 2 ==> r.step == 3 && r.recommendation == Some(Recommend(w.volume, w.ha))
    ensures w.step != 1 && w.step != 2 ==> r == w
  {
    if w.step == 1 then w.(step := 2)
    else if w.step == 2 then w.(recommendation := Some(Recommend(w.volume, w.ha)), step := 3)
    else w
  }

  /** Two clicks on "Далее" from any valid state reach the result, and more
      clicks change nothing. */
  lemma ResultAfterTwoClicks(w: Wizard)
    requires Valid(w)
    ensures Next(Next(w)).step == 3
    ensures Next(Next(Next(w))) == Next(Next(w))
  {
  }

  /** From the start, the answers given on the first two steps decide the
      recommendation shown. */
  lemma RecommendationFromAnswers(volume: Volume, ha: Availability)
    ensures var w := Next(Next(Initial.(volume := volume)).(ha := ha));
      && Valid(w) && w.step == 3
      && (w.recommendation == Some(Optimal) <==> volume == High || ha == Yes)
  {
  }

  /** The page's state. */
  class ConfiguratorPage {
    var step: int
    var volume: Volume
    var ha: Availability
    var recommendation: Option<Variant>

    function State(): Wizard
      reads this
    {
      Wizard(step, volume, ha, recommendation)
    }

    constructor()
      ensures State() == Initial && Valid(State())
    {
      step := 1;
      volume := Low;
      ha := No;
      recommendation := None;
    }

    /** `handleNext`, with `calculateRecommendation` inlined at step 2. */
    method HandleNext()
      modifies this
      ensures State() == Next(old(State()))
      ensures old(Valid(State())) ==> Valid(State())
    {
      if step == 1 {
        step := 2;
      } else if step == 2 {
        if volume == High || ha == Yes {
          recommendation := Some(Optimal);
        } else {
          recommendation := Some(Basic);
        }
        step := 3;
      }
    }

    /** The volume radio group (shown on step 1). */
    method SetVolume(v: Volume)
      modifies this
      ensures State() == old(State()).(volume := v)
      ensures old(Valid(State())) ==> Valid(State())
    {
      volume := v;
    }

    /** The availability radio group (shown on step 2). */
    method SetHa(a: Availability)
      modifies this
      ensures State() == old(State()).(ha := a)
      ensures old(Valid(State())) ==> Valid(State())
    {
      ha := a;
    }

    /** `reset`, from the result screen. */
    method Reset()
      modifies this
      ensures State() == Initial && Valid(State())
    {
      step := 1;
      volume := Low;
      ha := No;
      recommendation := None;
    }
  }
}
