/** Demo.tsx: the document-analysis simulation. A click picks one of three
    mock file names at random and starts processing; a 50 ms interval adds 2
    to the progress until it reaches 100, and the tick after that shows the
    result and stops the interval. The four stage lines light up past 20,
    40, 60 and 80 %. The random draw is a parameter. */
module Demo {
  datatype Step = Upload | Processing | Result

  /** The page's state; `running` says whether the interval is active. */
  datatype DemoState = DemoState(step: Step, progress: int, fileName: string, running: bool)

  /** The initial state, which `resetDemo` restores. */
  const Initial := DemoState(Upload, 0, "", false)

  /** The three mock file names. */
  const MockFiles := ["Договор_поставки_№123.pdf", "Счет_на_оплату_456.pdf", "Накладная_789.pdf"]

  /** `Math.floor(Math.random() * mockFiles.length)` for a draw in [0, 1). */
  function Pick(random: real): (k: nat)
    requires 0.0 <= random < 1.0
    ensures k < |MockFiles|
    ensures k as real <= random * 3.0 < k as real + 1.0
  {
    (random * 3.0).Floor
  }

  /** `handleUpload` with the interval `simulateProcessing` starts. */
  function StartUpload(w: DemoState, random: real): (r: DemoState)
    requires 0.0 <= random < 1.0
    ensures r.step == Processing && r.progress == 0 && r.running
    ensures r.fileName in MockFiles
  {
    DemoState(Processing, 0, MockFiles[Pick(random)], true)
  }

  /** One interval tick: below 100 the progress grows by 2; at 100 or more
      the interval stops and the result is shown with progress 100. With no
      interval running nothing happens. */
  function Tick(w: DemoState): (r: DemoState)
    ensures r.fileName == w.fileName
    ensures !w.running ==> r == w
    ensures w.running && w.progress < 100 ==> r == w.(progress := w.progress + 2)
    ensures w.running && w.progress >= 100 ==> r.step == Result && r.progress == 100 && !r.running
  {
    if !w.running then w
    else if w.progress >= 100 then w.(step := Result, progress := 100, running := false)
    else w.(progress := w.progress + 2)
  }

  /** `n` ticks in a row. */
  function Ticks(w: DemoState, n: nat): DemoState
  {
    if n == 0 then w else Tick(Ticks(w, n - 1))
  }

  /** After up to 50 ticks from a fresh start the page is still processing,
      at 2 % per tick. */
  lemma {:induction false} ProcessingTicks(w: DemoState, n: nat)
    requires w.step == Processing && w.progress == 0 && w.running
    requires n <= 50
    ensures Ticks(w, n) == w.(progress := 2 * n)
  {
    if n > 0 {
      ProcessingTicks(w, n - 1);
    }
  }

  /** The 51st tick shows the result, and not one tick earlier. */
  lemma ResultOnTick51(w: DemoState, n: nat)
    requires w.step == Processing && w.progress == 0 && w.running
    requires n <= 51
    ensures Ticks(w, n).step == Result <==> n == 51
    ensures n == 51 ==> Ticks(w, n) == w.(step := Result, progress := 100, running := false)
  {
    if n <= 50 {
      ProcessingTicks(w, n);
    } else {
      ProcessingTicks(w, 50);
    }
  }

  /** What may be seen while a fresh run goes on: an even progress between 0
      and 100, and the interval running exactly while processing. */
  predicate Reachable(w: DemoState) {
    && 0 <= w.progress <= 100 && w.progress % 2 == 0
    && (w.running <==> w.step == Processing)
  }

  /** The start of a run, each tick and a reset keep the page reachable. */
  lemma ReachableKept(w: DemoState, random: real)
    requires Reachable(w) && 0.0 <= random < 1.0
    ensures Reachable(StartUpload(w, random))
    ensures Reachable(Tick(w))
    ensures Reachable(Initial)
  {
  }

  /** Stage line `k` (1 to 4) is lit once the progress is past `20 * k`. */
  predicate Lit(progress: int, k: int) {
    progress > 20 * k
  }

  /** The number of lit stage lines. */
  function LitCount(progress: int): (n: nat)
    ensures n <= 4
    ensures forall k :: 1 <= k <= 4 ==> (Lit(progress, k) <==> k <= n)
  {
    if progress > 80 then 4 else if progress > 60 then 3 else if progress > 40 then 2 else if progress > 20 then 1 else 0
  }

  /** Lines only light up as the progress grows. */
  lemma LitMonotone(p: int, q: int)
    requires p <= q
    ensures LitCount(p) <= LitCount(q)
  {
  }

  /** The page's state. */
  class DemoPage {
    var step: Step
    var progress: int
    var fileName: string
    var running: bool

    function State(): DemoState
      reads this
    {
      DemoState(step, progress, fileName, running)
    }

    constructor()
      ensures State() == Initial
    {
      step := Upload;
      progress := 0;
      fileName := "";
      running := false;
    }

    /** `handleUpload` followed by `simulateProcessing`. */
    method HandleUpload(random: real)
      requires 0.0 <= random < 1.0
      modifies this
      ensures State() == StartUpload(old(State()), random)
    {
      var randomFile := MockFiles[Pick(random)];
      fileName := randomFile;
      step := Processing;
      progress := 0;
      running := true;
    }

    /** The interval callback. */
    method IntervalTick()
      modifies this
      ensures State() == Tick(old(State()))
    {
      if running {
        if progress >= 100 {
          running := false;
          step := Result;
          progress := 100;
        } else {
          progress := progress + 2;
        }
      }
    }

    /** `resetDemo`, from the result screen. */
    method ResetDemo()
      modifies this
      ensures State() == Initial.(running := old(running))
    {
      step := Upload;
      progress := 0;
      fileName := "";
    }
  }
}
