/** Loading images: a worker thread and the main thread share a queue of operations, a
    queue of results and the id of a deferred pull callback.  One action per step that
    the other thread could observe. */
module SlideshowPipeline {

  datatype Worker =
    | Popping                          // waits on the queue of operations
    | Loading                          // reads the image, without the lock
    | Entered                          // holds the lock of the results queue
    | Pushed                           // has pushed the result
    | Attached                         // has attached the pull callback, id not stored yet
    | Tagged                           // about to release the lock

  datatype MainThread =
    | InLoop
    | Pulling                          // the pull callback runs and wants the lock
    | Holding(image: bool)             // holds the lock and a result
    | Drained                          // the queue is empty, the id is still set
    | Cleared                          // about to release the lock

  datatype Show = Show(
    scheduled: bool,                   // update_image_id is set
    ops: nat,                          // operations in the queue
    worker: Worker,
    results: seq<bool>,                // whether each result has an image
    pullSource: bool,                  // a pull callback is attached
    pullId: bool,                      // results_pull_id is set
    main: MainThread,
    fading: bool,                      // pat2 is set
    crashed: bool)                     // the assertion in the pull callback failed

  datatype Action =
    | WidgetShown
    | LoadTimer                        // push_load_image_func
    | DrawTimer(last: bool)            // draw_iter; `last` if it ends the fade
    | PullDispatched
    | PullGoesOn
    | WorkerGoesOn(image: bool)        // `image` if loading succeeds

  function StartNewLoad(s: Show): Show {
    if s.scheduled then s else s.(scheduled := true)
  }

  function ProcessNewPixbuf(s: Show, image: bool): Show {
    if image then s.(fading := true) else StartNewLoad(s)
  }

  predicate WorkerLocks(w: Worker) {
    w == Entered || w == Pushed || w == Attached || w == Tagged
  }

  predicate MainLocks(m: MainThread) {
    m.Holding? || m == Drained || m == Cleared
  }

  function PopResult(s: Show): Show {
    if s.results == [] then s.(main := Drained)
    else s.(main := Holding(s.results[0]), results := s.results[1..])
  }

  function Pull(s: Show): Show {
    match s.main
    case InLoop => s
    case Pulling =>
      if WorkerLocks(s.worker) then s
      else if s.results == [] then s.(crashed := true)
      else PopResult(s)
    case Holding(image) => PopResult(ProcessNewPixbuf(s, image))
    case Drained => s.(pullId := false, main := Cleared)
    case Cleared => s.(main := InLoop)
  }

  function Work(s: Show, image: bool): Show {
    match s.worker
    case Popping => if s.ops == 0 then s else s.(ops := s.ops - 1, worker := Loading)
    case Loading => if MainLocks(s.main) then s else s.(worker := Entered)
    case Entered => s.(results := s.results + [image], worker := Pushed)
    case Pushed => if s.pullId then s.(worker := Tagged) else s.(pullSource := true, worker := Attached)
    case Attached => s.(pullId := true, worker := Tagged)
    case Tagged => s.(worker := Popping)
  }

  function Step(s: Show, a: Action): Show {
    if s.crashed then s
    else
      match a
      case WidgetShown => if s.main.InLoop? then StartNewLoad(s) else s
      case LoadTimer => if s.main.InLoop? && s.scheduled then s.(scheduled := false, ops := s.ops + 1) else s
      case DrawTimer(last) =>
        if s.main.InLoop? && s.fading && last then StartNewLoad(s.(fading := false)) else s
      case PullDispatched =>
        if s.main.InLoop? && s.pullSource then s.(pullSource := false, main := Pulling) else s
      case PullGoesOn => Pull(s)
      case WorkerGoesOn(image) => Work(s, image)
  }

  const New: Show := Show(false, 0, Popping, [], false, false, InLoop, false, false)

  function Run(s: Show, actions: seq<Action>): Show {
    if actions == [] then s
    else Step(Run(s, actions[..|actions| - 1]), actions[|actions| - 1])
  }

  // ----- The invariant ---------------------------------------------------------

  function Bit(b: bool): nat { if b then 1 else 0 }

  /** Where the one load may be: scheduled, queued, with the worker, among the results, in
      the hands of the main thread, or on screen as a fade. */
  function Tokens(s: Show): nat {
    Bit(s.scheduled) + s.ops + Bit(s.worker == Loading || s.worker == Entered)
    + |s.results| + Bit(s.main.Holding?) + Bit(s.fading)
  }

  /** A pull callback is attached, or dispatched and still waiting for the lock. */
  predicate PullOnTheWay(s: Show) {
    s.pullSource || s.main == Pulling
  }

  /** What each thread may rely on at its place. */
  predicate PullOk(s: Show) {
    && !s.crashed
    && !(WorkerLocks(s.worker) && MainLocks(s.main))
    && !(s.pullSource && s.main == Pulling)
    && (if MainLocks(s.main) then
          && !s.pullSource
          && s.pullId == (s.main != Cleared)
          && (s.main == Drained || s.main == Cleared ==> s.results == [])
        else if s.worker == Pushed then s.results != [] && s.pullId == PullOnTheWay(s)
        else if s.worker == Attached then s.results != [] && PullOnTheWay(s) && !s.pullId
        else (s.results != []) == s.pullId == PullOnTheWay(s))
  }

  lemma PullStepKeeps(s: Show, a: Action)
    requires PullOk(s)
    ensures PullOk(Step(s, a))
  {
  }

  /** Every step but showing the widget conserves the token. */
  lemma TokenStep(s: Show, a: Action)
    requires Tokens(s) == 1 && PullOk(s) && a != WidgetShown
    ensures Tokens(Step(s, a)) == 1
  {
  }

  /** Showing the widget once more keeps the single token if and only if a load is
      scheduled just then (or the call is not made from the main loop). */
  lemma ShownAgain(s: Show)
    requires Tokens(s) == 1 && PullOk(s) && s.main.InLoop?
    ensures Tokens(Step(s, WidgetShown)) == 1 <==> s.scheduled
  {
  }

  /** For instance while the first load is under way. */
  lemma ShownTwiceDoubles()
    ensures Tokens(Run(New, [WidgetShown, LoadTimer, WidgetShown])) == 2
  {
    var a := [WidgetShown, LoadTimer, WidgetShown];
    assert a[..2][..1] == a[..1] && a[..1][..0] == [];
    assert Run(New, a[..1]) == New.(scheduled := true);
    assert Run(New, a[..2]) == New.(ops := 1);
  }

  /** The single load token: after the widget was shown once, under every interleaving. */
  lemma {:induction false} OneToken(actions: seq<Action>)
    requires WidgetShown !in actions
    ensures var s := Run(Step(New, WidgetShown), actions);
            PullOk(s) && Tokens(s) == 1
  {
    if actions == [] {
      assert Tokens(Step(New, WidgetShown)) == 1;
    } else {
      var k := |actions| - 1;
      OneToken(actions[..k]);
      var s := Run(Step(New, WidgetShown), actions[..k]);
      assert actions[k] in actions;
      PullStepKeeps(s, actions[k]);
      TokenStep(s, actions[k]);
    }
  }

  /** No result is lost and the assertion never fails, however often the widget is shown:
      whenever no thread is inside the locked sections, a result is queued exactly if a
      pull callback is on its way, and exactly if its id is stored. */
  lemma {:induction false} NoResultLost(actions: seq<Action>)
    ensures var s := Run(New, actions);
            && !s.crashed
            && (!WorkerLocks(s.worker) && !MainLocks(s.main) ==>
                  (s.results != [] <==> PullOnTheWay(s)) && (s.results != [] <==> s.pullId))
    ensures PullOk(Run(New, actions))
  {
    if actions != [] {
      var k := |actions| - 1;
      NoResultLost(actions[..k]);
      PullStepKeeps(Run(New, actions[..k]), actions[k]);
    }
  }

  /** The pipeline never stalls: as long as no fade is on screen, some step moves the
      token towards the next image (a fade itself ends by the draw timer). */
  lemma TokenCanMove(actions: seq<Action>)
    requires WidgetShown !in actions
    ensures var s := Run(Step(New, WidgetShown), actions);
            || s.fading
            || Step(s, LoadTimer) != s || Step(s, PullDispatched) != s
            || Step(s, PullGoesOn) != s || Step(s, WorkerGoesOn(true)) != s
  {
    OneToken(actions);
    hide Run;
  }

  // ----- An image comes up -------------------------------------------------------

  /** A fade starts exactly when the main thread takes a result that has an image. */
  lemma FadesWithImage(s: Show, a: Action)
    requires !s.crashed && !s.fading
    ensures Step(s, a).fading <==> a == PullGoesOn && s.main == Holding(true)
    ensures a == PullGoesOn && s.main == Holding(false) ==> Step(s, a).scheduled
  {
  }

  /** The next thing to do, with loads that succeed. */
  function Next(s: Show): Action {
    if MainLocks(s.main) then PullGoesOn
    else if WorkerLocks(s.worker) then WorkerGoesOn(true)
    else if s.main == Pulling then PullGoesOn
    else if s.pullSource then PullDispatched
    else if s.scheduled then LoadTimer
    else WorkerGoesOn(true)
  }

  /** How far the token is from the screen; a result without an image goes round once more. */
  function Stage(s: Show): nat {
    if s.fading then 0
    else if s.main.Holding? then if s.main.image then 1 else 7
    else if s.results != [] then if s.results[0] then 2 else 8
    else if s.scheduled then 6
    else if s.ops > 0 then 5
    else if s.worker == Loading then 4
    else 3
  }

  function Rank(s: Show): nat {
    16 * Stage(s)
    + (match s.main
       case Cleared => 1
       case Drained => 2
       case Holding(_) => 3
       case Pulling => 4
       case InLoop => if s.pullSource then 5 else 0)
    + (match s.worker
       case Tagged => 1
       case Attached => 2
       case Pushed => 10
       case _ => 0)
  }

  lemma NextProgress(s: Show)
    requires PullOk(s) && Tokens(s) == 1 && !s.fading
    ensures var r := Step(s, Next(s));
            PullOk(r) && Tokens(r) == 1 && Rank(r) < Rank(s)
  {
    PullStepKeeps(s, Next(s));
    TokenStep(s, Next(s));
  }

  lemma {:induction false} RunOn(s: Show, a: Action, actions: seq<Action>)
    ensures Run(s, [a] + actions) == Run(Step(s, a), actions)
  {
    if actions == [] {
      assert [a][..0] == [];
    } else {
      var k := |actions| - 1;
      RunOn(s, a, actions[..k]);
      assert ([a] + actions)[..k + 1] == [a] + actions[..k];
    }
  }

  lemma {:induction false} FadeComes(s: Show) returns (actions: seq<Action>)
    requires PullOk(s) && Tokens(s) == 1
    ensures |actions| <= Rank(s) && Run(s, actions).fading
    decreases Rank(s)
  {
    if s.fading {
      actions := [];
    } else {
      NextProgress(s);
      var rest := FadeComes(Step(s, Next(s)));
      RunOn(s, Next(s), rest);
      actions := [Next(s)] + rest;
    }
  }

  /** However the threads have been interleaved, an image can come up within a bounded number
      of steps, if only the loads from now on succeed. */
  lemma ImageComesUp(before: seq<Action>) returns (actions: seq<Action>)
    requires WidgetShown !in before
    ensures |actions| < 150 && Run(Run(Step(New, WidgetShown), before), actions).fading
  {
    OneToken(before);
    actions := FadeComes(Run(Step(New, WidgetShown), before));
    hide Run;
  }
}
