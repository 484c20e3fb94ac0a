/** `MediaLoader` (older tree): folds the channel of load actions over a `DomainModel`,
    emitting every new state. The channel is a sequence, the emitted flow a sequence,
    and the media source's answers are the input `load`. */
module MediaLoaderModel {
  import opened Wrappers
  import opened MediaItemModel

  datatype LoadAction =
    | Start(startFilter: Option<string>)
    | Refresh(forced: bool)
    | Filter(filter: string)
    | NextPage
    | ClearFilter

  datatype DomainModel = DomainModel(
    domainItems: seq<MediaItem>,
    error: Option<string>,
    hasMore: bool,
    isFilteredResult: bool,
    filter: Option<string>,
    isLoading: bool)

  /** `DomainModel()` with its defaults. */
  const InitialState := DomainModel([], None, false, false, None, false)

  /** `MediaSource.MediaLoadingResult` of the older tree. */
  datatype LoadingResult = Success(data: seq<MediaItem>, canLoadMore: bool) | Failure(message: string) | NoChange

  /** The arguments of one `mediaSource.load(forced, loadMore, filter)` call. */
  datatype LoadRequest = LoadRequest(forced: bool, loadMore: bool, requestFilter: Option<string>)

  /** The source's answer to its `n`-th call with a request. */
  type MediaSourceLoad = (nat, LoadRequest) -> LoadingResult

  /** `buildDomainModel`: merges one load result into the state. */
  function BuildDomainModel(partialResult: LoadingResult, state: DomainModel): (r: DomainModel)
    ensures partialResult.Success? ==>
              r == state.(isLoading := false, error := None, hasMore := partialResult.canLoadMore,
                          domainItems := partialResult.data)
    ensures partialResult.Failure? ==>
              r.domainItems == state.domainItems && r.error == Some(partialResult.message) && !r.isLoading &&
              r.hasMore == state.hasMore && r.filter == state.filter && r.isFilteredResult == state.isFilteredResult
    ensures partialResult.NoChange? ==> r == state
    ensures r.filter == state.filter
  {
    match partialResult
    case Success(data, hasMore) => state.(isLoading := false, error := None, hasMore := hasMore, domainItems := data)
    case Failure(message) => state.(isLoading := false, error := Some(message))
    case NoChange => state
  }

  /** What one action does to a state: nothing, or emit the states `pre`, then load with
      `request` and emit the result merged into `base`. */
  datatype Plan = Skip | Load(pre: seq<DomainModel>, base: DomainModel, request: LoadRequest)

  predicate IsNullOrEmpty(s: Option<string>) {
    s.None? || s.value == ""
  }

  /** The branch of the `when (loadAction)` taken for `state`. */
  function PlanOf(state: DomainModel, action: LoadAction): (p: Plan)
    ensures p.Load? ==> p.request.requestFilter == p.base.filter && !p.request.loadMore == !action.NextPage?
    ensures p.Load? ==> p.pre == [] || p.pre == [p.base]
    ensures p.Load? && p.pre != [] ==> p.base.isLoading
  {
    match action
    case Start(_) =>
      if state.domainItems == [] || state.error.Some? then Load([], state, LoadRequest(false, false, state.filter))
      else Skip
    case Refresh(forced) =>
      if forced || state.domainItems == [] then
        var loading := state.(isLoading := true);
        Load([loading], loading, LoadRequest(forced, false, loading.filter))
      else Skip
    case NextPage =>
      Load([], state, LoadRequest(false, true, state.filter))
    case Filter(filter) =>
      if Some(filter) != state.filter then
        var filtering := state.(filter := Some(filter), isLoading := true);
        Load([filtering], filtering, LoadRequest(false, false, filtering.filter))
      else Skip
    case ClearFilter =>
      if !IsNullOrEmpty(state.filter) then
        var clearing := state.(filter := None, isLoading := true);
        Load([clearing], clearing, LoadRequest(false, false, clearing.filter))
      else Skip
  }

  /** The emitted states, the load requests made and the final state of folding `actions`
      over `state`, the source having answered `calls` requests before. */
  datatype Outcome = Outcome(emitted: seq<DomainModel>, requests: seq<LoadRequest>, final: DomainModel)

  /** One action: its emitted states, its requests (none or one) and the state after it. */
  function Step(state: DomainModel, action: LoadAction, load: MediaSourceLoad, calls: nat): (o: Outcome)
    ensures |o.requests| <= 1 && |o.requests| <= |o.emitted| <= 2 * |o.requests|
    ensures o.emitted != [] ==> o.emitted[|o.emitted| - 1] == o.final
    ensures o.emitted == [] ==> o.final == state
  {
    match PlanOf(state, action)
    case Skip => Outcome([], [], state)
    case Load(pre, base, request) =>
      var next := BuildDomainModel(load(calls, request), base);
      Outcome(pre + [next], [request], next)
  }

  /** What one action does from a state, the source having answered the given number of
      requests before. */
  type Stepper = (DomainModel, LoadAction, nat) -> Outcome

  /** The loop over the channel: `step` folded over the actions in order. */
  function Fold(step: Stepper, state: DomainModel, actions: seq<LoadAction>, calls: nat): Outcome
    decreases |actions|
  {
    if actions == [] then Outcome([], [], state)
    else
      var first := step(state, actions[0], calls);
      var rest := Fold(step, first.final, actions[1..], calls + |first.requests|);
      Outcome(first.emitted + rest.emitted, first.requests + rest.requests, rest.final)
  }

  /** `Step` with the media source's answers fixed. */
  function StepWith(load: MediaSourceLoad): Stepper {
    (state: DomainModel, action: LoadAction, calls: nat) => Step(state, action, load, calls)
  }

  /** The whole `loadMedia` fold. */
  function Run(state: DomainModel, actions: seq<LoadAction>, load: MediaSourceLoad, calls: nat): Outcome {
    Fold(StepWith(load), state, actions, calls)
  }

  /** One pass of the `when (loadAction)`; `calls` is how many loads were made before. */
  method ProcessAction(state0: DomainModel, action: LoadAction, load: MediaSourceLoad, calls: nat)
    returns (emitted: seq<DomainModel>, requests: seq<LoadRequest>, state: DomainModel)
    ensures Outcome(emitted, requests, state) == Step(state0, action, load, calls)
  {
    state := state0;
    emitted := [];
    requests := [];
    match action {
      case Start(_) =>
        if state.domainItems == [] || state.error.Some? {
          var request := LoadRequest(false, false, state.filter);
          requests := [request];
          state := BuildDomainModel(load(calls, request), state);
          emitted := emitted + [state];
        }
      case Refresh(forced) =>
        if forced || state.domainItems == [] {
          state := state.(isLoading := true);
          emitted := emitted + [state];
          var request := LoadRequest(forced, false, state.filter);
          requests := [request];
          state := BuildDomainModel(load(calls, request), state);
          emitted := emitted + [state];
        }
      case NextPage =>
        var request := LoadRequest(false, true, state.filter);
        requests := [request];
        state := BuildDomainModel(load(calls, request), state);
        emitted := emitted + [state];
      case Filter(filter) =>
        if Some(filter) != state.filter {
          state := state.(filter := Some(filter), isLoading := true);
          emitted := emitted + [state];
          var request := LoadRequest(false, false, state.filter);
          requests := [request];
          state := BuildDomainModel(load(calls, request), state);
          emitted := emitted + [state];
        }
      case ClearFilter =>
        if !IsNullOrEmpty(state.filter) {
          state := state.(filter := None, isLoading := true);
          emitted := emitted + [state];
          var request := LoadRequest(false, false, state.filter);
          requests := [request];
          state := BuildDomainModel(load(calls, request), state);
          emitted := emitted + [state];
        }
    }
  }

  /** `loadMedia`: processes the actions in order; `updateState` emits each new state and
      then stores it. */
  method LoadMedia(actions: seq<LoadAction>, load: MediaSourceLoad)
    returns (emitted: seq<DomainModel>, requests: seq<LoadRequest>, state: DomainModel)
    ensures Outcome(emitted, requests, state) == Run(InitialState, actions, load, 0)
    ensures emitted != [] ==> emitted[|emitted| - 1] == state
  {
    ghost var step := StepWith(load);
    ghost var total := Fold(step, InitialState, actions, 0);
    state := InitialState;
    emitted := [];
    requests := [];
    var i := 0;
    FoldedInit(step, actions);
    while i < |actions|
      invariant 0 <= i <= |actions|
      invariant Folded(step, total, emitted, requests, state, actions[i..])
    {
      var stepEmitted, stepRequests, next := ProcessAction(state, actions[i], load, |requests|);
      assert step(state, actions[i], |requests|) == Outcome(stepEmitted, stepRequests, next);
      assert actions[i..][0] == actions[i] && actions[i..][1..] == actions[i + 1..];
      FoldedStep(step, total, emitted, requests, state, actions[i..], stepEmitted, stepRequests, next);
      emitted := emitted + stepEmitted;
      requests := requests + stepRequests;
      state := next;
      i := i + 1;
    }
    FoldedDone(step, total, emitted, requests, state, actions[i..]);
  }

  /** The last state a step emits is the state it ends in; a step that emits nothing keeps
      the state. */
  predicate EndsEmitted(o: Outcome, state: DomainModel) {
    && (o.emitted != [] ==> o.emitted[|o.emitted| - 1] == o.final)
    && (o.emitted == [] ==> o.final == state)
  }

  /** The loop invariant of `LoadMedia`: what was emitted and requested so far, followed by
      the fold of the remaining actions, is the fold of all of them. */
  ghost predicate Folded(step: Stepper, total: Outcome, emitted: seq<DomainModel>, requests: seq<LoadRequest>,
                         state: DomainModel, remaining: seq<LoadAction>)
  {
    var rest := Fold(step, state, remaining, |requests|);
    && total == Outcome(emitted + rest.emitted, requests + rest.requests, rest.final)
    && (emitted != [] ==> emitted[|emitted| - 1] == state)
  }

  /** Nothing processed yet: the fold of all the actions is still ahead. */
  lemma FoldedInit(step: Stepper, actions: seq<LoadAction>)
    ensures Folded(step, Fold(step, InitialState, actions, 0), [], [], InitialState, actions)
  {
    var total := Fold(step, InitialState, actions, 0);
    assert [] + total.emitted == total.emitted && [] + total.requests == total.requests;
  }

  /** Every action processed: what was emitted and requested is the whole fold. */
  lemma FoldedDone(step: Stepper, total: Outcome, emitted: seq<DomainModel>, requests: seq<LoadRequest>,
                   state: DomainModel, remaining: seq<LoadAction>)
    requires remaining == []
    requires Folded(step, total, emitted, requests, state, remaining)
    ensures total == Outcome(emitted, requests, state)
    ensures emitted != [] ==> emitted[|emitted| - 1] == state
  {
    assert emitted + [] == emitted && requests + [] == requests;
  }

  lemma FoldedStep(step: Stepper, total: Outcome, emitted: seq<DomainModel>, requests: seq<LoadRequest>,
                   state: DomainModel, remaining: seq<LoadAction>,
                   stepEmitted: seq<DomainModel>, stepRequests: seq<LoadRequest>, next: DomainModel)
    requires remaining != []
    requires Folded(step, total, emitted, requests, state, remaining)
    requires Outcome(stepEmitted, stepRequests, next) == step(state, remaining[0], |requests|)
    requires EndsEmitted(Outcome(stepEmitted, stepRequests, next), state)
    ensures Folded(step, total, emitted + stepEmitted, requests + stepRequests, next, remaining[1..])
  {
    var after := Fold(step, next, remaining[1..], |requests| + |stepRequests|);
    assert Fold(step, state, remaining, |requests|)
        == Outcome(stepEmitted + after.emitted, stepRequests + after.requests, after.final);
    assert emitted + (stepEmitted + after.emitted) == (emitted + stepEmitted) + after.emitted;
    assert requests + (stepRequests + after.requests) == (requests + stepRequests) + after.requests;
    assert |requests + stepRequests| == |requests| + |stepRequests|;
  }

  /** A fold of steps that each end in their last emission ends in its last emission. */
  lemma {:induction false} FoldEndsEmitted(step: Stepper, state: DomainModel, actions: seq<LoadAction>, calls: nat)
    requires forall s, a, c :: EndsEmitted(step(s, a, c), s)
    decreases |actions|
    ensures EndsEmitted(Fold(step, state, actions, calls), state)
  {
    if actions != [] {
      var first := step(state, actions[0], calls);
      var rest := Fold(step, first.final, actions[1..], calls + |first.requests|);
      FoldEndsEmitted(step, first.final, actions[1..], calls + |first.requests|);
      assert EndsEmitted(first, state);
      var o := Fold(step, state, actions, calls);
      if rest.emitted != [] {
        assert o.emitted[|o.emitted| - 1] == rest.emitted[|rest.emitted| - 1];
      } else {
        assert o.emitted == first.emitted + [];
      }
    }
  }

  /** Every step of the media loader ends in its last emission. */
  lemma StepsEndEmitted(load: MediaSourceLoad)
    ensures forall s, a, c :: EndsEmitted(StepWith(load)(s, a, c), s)
  {
    forall s, a, c ensures EndsEmitted(StepWith(load)(s, a, c), s) {
      var o := Step(s, a, load, c);
    }
  }

  /** The last state emitted by a fold is its final state. */
  lemma LastEmittedIsFinal(state: DomainModel, actions: seq<LoadAction>, load: MediaSourceLoad, calls: nat)
    ensures var o := Run(state, actions, load, calls);
      o.emitted != [] ==> o.emitted[|o.emitted| - 1] == o.final
    ensures var o := Run(state, actions, load, calls);
      o.emitted == [] ==> o.final == state
  {
    StepsEndEmitted(load);
    FoldEndsEmitted(StepWith(load), state, actions, calls);
  }

  /** `Start` loads only when there are no items or there is an error; otherwise it changes
      nothing. It loads with the stored filter, not its own. */
  lemma StartPlan(state: DomainModel, filter: Option<string>)
    ensures PlanOf(state, Start(filter)).Load? <==> state.domainItems == [] || state.error.Some?
    ensures PlanOf(state, Start(filter)).Load? ==>
              PlanOf(state, Start(filter)) == Load([], state, LoadRequest(false, false, state.filter))
  {
  }

  /** A non-forced `Refresh` with items is a no-op; otherwise a loading state is emitted
      before the result. */
  lemma RefreshPlan(state: DomainModel, forced: bool)
    ensures PlanOf(state, Refresh(forced)).Skip? <==> !forced && state.domainItems != []
    ensures PlanOf(state, Refresh(forced)).Load? ==>
              var p := PlanOf(state, Refresh(forced));
              p.pre == [state.(isLoading := true)] && p.request == LoadRequest(forced, false, state.filter)
  {
  }

  /** `NextPage` always loads more, with the current filter. */
  lemma NextPagePlan(state: DomainModel)
    ensures PlanOf(state, NextPage) == Load([], state, LoadRequest(false, true, state.filter))
  {
  }

  /** `Filter` with the current filter is a no-op; otherwise the filter is stored and used. */
  lemma FilterPlan(state: DomainModel, filter: string)
    ensures PlanOf(state, Filter(filter)).Skip? <==> state.filter == Some(filter)
    ensures PlanOf(state, Filter(filter)).Load? ==>
              var p := PlanOf(state, Filter(filter));
              p.base.filter == Some(filter) && p.base.isLoading && p.pre == [p.base] &&
              p.request == LoadRequest(false, false, Some(filter)) &&
              p.base.domainItems == state.domainItems && p.base.error == state.error
  {
  }

  /** `ClearFilter` is a no-op for a null or empty filter; otherwise the filter becomes null. */
  lemma ClearFilterPlan(state: DomainModel)
    ensures PlanOf(state, ClearFilter).Skip? <==> state.filter.None? || state.filter == Some("")
    ensures PlanOf(state, ClearFilter).Load? ==>
              var p := PlanOf(state, ClearFilter);
              p.base.filter.None? && p.base.isLoading && p.pre == [p.base] &&
              p.request == LoadRequest(false, false, None)
  {
  }

  /** A step makes at most one request, and emits one or two states per request. */
  predicate Bounded(o: Outcome) {
    |o.requests| <= 1 && |o.requests| <= |o.emitted| <= 2 * |o.requests|
  }

  /** A fold of bounded steps makes at most one request per action, and emits between one
      and two states per request. */
  lemma {:induction false} FoldCounts(step: Stepper, state: DomainModel, actions: seq<LoadAction>, calls: nat)
    requires forall s, a, c :: Bounded(step(s, a, c))
    decreases |actions|
    ensures var o := Fold(step, state, actions, calls);
      |o.requests| <= |o.emitted| <= 2 * |o.requests| && |o.requests| <= |actions|
  {
    if actions != [] {
      var first := step(state, actions[0], calls);
      var rest := Fold(step, first.final, actions[1..], calls + |first.requests|);
      FoldCounts(step, first.final, actions[1..], calls + |first.requests|);
      assert Bounded(first);
      var o := Fold(step, state, actions, calls);
      assert |o.emitted| == |first.emitted| + |rest.emitted|;
      assert |o.requests| == |first.requests| + |rest.requests|;
    }
  }

  /** Skipped actions emit nothing; every load emits its result, so the fold makes one
      request per `Load` plan and emits at least as many states. */
  lemma RequestsAndEmissions(state: DomainModel, actions: seq<LoadAction>, load: MediaSourceLoad, calls: nat)
    ensures var o := Run(state, actions, load, calls);
      |o.requests| <= |o.emitted| <= 2 * |o.requests| && |o.requests| <= |actions|
  {
    forall s, a, c ensures Bounded(StepWith(load)(s, a, c)) {
      var o := Step(s, a, load, c);
    }
    FoldCounts(StepWith(load), state, actions, calls);
  }

  /** A step of an action other than `Filter` and `ClearFilter` keeps the stored filter. */
  predicate KeepsFilter(o: Outcome, state: DomainModel, action: LoadAction) {
    !action.Filter? && !action.ClearFilter? ==> o.final.filter == state.filter
  }

  /** Folding steps that keep the filter over actions without `Filter` and `ClearFilter`
      keeps it. */
  lemma {:induction false} FoldKeepsFilter(step: Stepper, state: DomainModel, actions: seq<LoadAction>, calls: nat)
    requires forall s, a, c :: KeepsFilter(step(s, a, c), s, a)
    requires forall k :: 0 <= k < |actions| ==> !actions[k].Filter? && !actions[k].ClearFilter?
    decreases |actions|
    ensures Fold(step, state, actions, calls).final.filter == state.filter
  {
    if actions != [] {
      var first := step(state, actions[0], calls);
      assert KeepsFilter(first, state, actions[0]);
      assert forall k :: 0 <= k < |actions[1..]| ==> actions[1..][k] == actions[k + 1];
      FoldKeepsFilter(step, first.final, actions[1..], calls + |first.requests|);
    }
  }

  /** Only `Filter` and `ClearFilter` change the stored filter. */
  lemma FilterOnlyChangedByFilterActions(state: DomainModel, actions: seq<LoadAction>, load: MediaSourceLoad,
                                         calls: nat)
    requires forall k :: 0 <= k < |actions| ==> !actions[k].Filter? && !actions[k].ClearFilter?
    ensures Run(state, actions, load, calls).final.filter == state.filter
  {
    forall s, a, c ensures KeepsFilter(StepWith(load)(s, a, c), s, a) {
      var o := Step(s, a, load, c);
      if !a.Filter? && !a.ClearFilter? {
        match PlanOf(s, a)
        case Skip =>
        case Load(_, _, _) =>
      }
    }
    FoldKeepsFilter(StepWith(load), state, actions, calls);
  }
}
