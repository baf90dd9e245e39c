/**
 * The meaning of running a workflow, as functions: what handleStateMachine,
 * handleParallel and handleTask compute, given an invoker for Task states.
 *
 * The Go loop has no bound.  Here one `fuel` counter bounds both the number of
 * transitions of a run and the nesting depth of Parallel sub-runs; a run that
 * uses it up fails with StepLimit.  FuelMonotone shows that any other outcome
 * is final: more fuel does not change it.
 */
module Interpreter {
  import opened Base
  import opened Json
  import opened Workflow

  /** Runs one Task: (AppName, FuncName, input) to the function's output. */
  type Invoker = (string, string, string) -> Result<string>

  /** The per-branch input: an object with the single key itemName bound to item. */
  function BranchInput(codec: Codec, itemName: string, item: Json): string {
    codec.marshal(JObject(map[itemName := item]))
  }

  /** A branch's *string slot: nil when the branch failed. */
  function Slot(r: Result<string>): Option<string> {
    if r.Ok? then Some(r.value) else None
  }

  function Slots(rs: seq<Result<string>>): (slots: seq<Option<string>>)
    ensures |slots| == |rs|
  {
    seq(|rs|, i requires 0 <= i < |rs| => Slot(rs[i]))
  }

  /** The Json value json.Marshal sees for a []*string: strings, nil as null. */
  function SlotsJson(slots: seq<Option<string>>): Json {
    JArray(seq(|slots|, i requires 0 <= i < |slots| => if slots[i].Some? then JString(slots[i].value) else JNull))
  }

  /** handleStateMachine: start at StartAt. */
  function Run(codec: Codec, invoke: Invoker, fuel: nat, m: StateMachine, input: string): Result<string>
    decreases fuel, 1
  {
    Walk(codec, invoke, fuel, m, m.startAt, input)
  }

  /** One turn of handleStateMachine's loop, and the rest of the run. */
  function Walk(codec: Codec, invoke: Invoker, fuel: nat, m: StateMachine, current: string, input: string): Result<string>
    decreases fuel, 0
  {
    if fuel == 0 then Err(StepLimit)
    else if current !in m.states then Err(UnknownStateName(current))
    else
      var st := m.states[current];
      match Dispatch(codec, invoke, fuel - 1, st, input)
      case Err(e) => Err(e)
      case Ok(result) => if st.end then Ok(result) else Walk(codec, invoke, fuel - 1, m, st.next, result)
  }

  /** The switch on state.Type. */
  function Dispatch(codec: Codec, invoke: Invoker, budget: nat, st: State, input: string): Result<string>
    decreases budget, 4
  {
    match KindOf(st.stateType)
    case Some(Task) => invoke(st.appName, st.funcName, input)
    case Some(Parallel) => RunParallel(codec, invoke, budget, st, input)
    case None => Err(UnknownStateType(st.stateType))
  }

  /** The Parallel case of the switch, with its four checks in the source's order. */
  function RunParallel(codec: Codec, invoke: Invoker, budget: nat, st: State, input: string): Result<string>
    decreases budget, 3
  {
    match DecodeObject(codec, input)
    case Err(e) => Err(e)
    case Ok(obj) =>
      if st.parallelExecution.None? then Err(MissingParallelExecution)
      else
        var pe := st.parallelExecution.value;
        if pe.iterableItemsKey !in obj then Err(KeyNotFound(pe.iterableItemsKey))
        else if !obj[pe.iterableItemsKey].JArray? then Err(NotAnArray)
        else Join(codec, Branches(codec, invoke, budget, pe.stateMachine, pe.iterableItemName, obj[pe.iterableItemsKey].items))
  }

  /** The outcomes of the branch runs, in item order. */
  function Branches(codec: Codec, invoke: Invoker, budget: nat, m: StateMachine, itemName: string, items: seq<Json>): seq<Result<string>>
    decreases budget, 2, |items|
  {
    if items == [] then []
    else
      var last := |items| - 1;
      Branches(codec, invoke, budget, m, itemName, items[..last])
        + [Run(codec, invoke, budget, m, BranchInput(codec, itemName, items[last]))]
  }

  /** The error handleParallel returns: each later failure overwrites the earlier ones. */
  function LastError(rs: seq<Result<string>>): Option<Error> {
    if rs == [] then None
    else if rs[|rs| - 1].Err? then Some(rs[|rs| - 1].error)
    else LastError(rs[..|rs| - 1])
  }

  /** The caller's side of the join: drop all results on an error, else marshal them. */
  function Join(codec: Codec, rs: seq<Result<string>>): Result<string> {
    match LastError(rs)
    case Some(e) => Err(e)
    case None => Ok(codec.marshal(SlotsJson(Slots(rs))))
  }

  // ---------------------------------------------------------------------------
  // Transitions
  // ---------------------------------------------------------------------------

  /**
   * The rules of one turn at a state that exists: a failure ends the run with
   * that failure; an End state returns its result whatever Next says; any other
   * state hands its result to Next as input.
   */
  lemma TransitionRules(codec: Codec, invoke: Invoker, fuel: nat, m: StateMachine, current: string, input: string)
    requires fuel > 0 && current in m.states
    ensures var st := m.states[current];
            var d := Dispatch(codec, invoke, fuel - 1, st, input);
            && (d.Err? ==> Walk(codec, invoke, fuel, m, current, input) == d)
            && (d.Ok? && st.end ==> Walk(codec, invoke, fuel, m, current, input) == d)
            && (d.Ok? && !st.end ==> Walk(codec, invoke, fuel, m, current, input) == Walk(codec, invoke, fuel - 1, m, st.next, d.value))
  {
  }

  /** A Task state's result is the invoker's, and an unknown type is an error. */
  lemma DispatchRules(codec: Codec, invoke: Invoker, budget: nat, st: State, input: string)
    ensures st.stateType == StateTypeTask ==> Dispatch(codec, invoke, budget, st, input) == invoke(st.appName, st.funcName, input)
    ensures st.stateType != StateTypeTask && st.stateType != StateTypeParallel ==>
              Dispatch(codec, invoke, budget, st, input) == Err(UnknownStateType(st.stateType))
  {
  }

  /**
   * A name that is not a key of States ends the run with "unknown state name",
   * before and without any invocation: the outcome is the same for every invoker.
   */
  lemma UnknownStateFails(codec: Codec, invoke: Invoker, other: Invoker, fuel: nat, m: StateMachine, current: string, input: string)
    requires fuel > 0 && current !in m.states
    ensures Walk(codec, invoke, fuel, m, current, input) == Err(UnknownStateName(current))
    ensures Walk(codec, other, fuel, m, current, input) == Walk(codec, invoke, fuel, m, current, input)
  {
  }

  /** A missing StartAt fails the run before anything is invoked. */
  lemma {:induction false} UnknownStartFails(codec: Codec, invoke: Invoker, other: Invoker, fuel: nat, m: StateMachine, input: string)
    requires fuel > 0 && m.startAt !in m.states
    ensures Run(codec, invoke, fuel, m, input) == Err(UnknownStateName(m.startAt))
    ensures Run(codec, other, fuel, m, input) == Run(codec, invoke, fuel, m, input)
  {
    UnknownStateFails(codec, invoke, other, fuel, m, m.startAt, input);
  }

  /**
   * A non-End state whose Next is empty or dangling does not end the run
   * quietly: once it succeeds, the run fails with "unknown state name".
   */
  lemma {:induction false} DanglingNextFails(codec: Codec, invoke: Invoker, fuel: nat, m: StateMachine, current: string, input: string)
    requires fuel > 1 && current in m.states
    requires !m.states[current].end && m.states[current].next !in m.states
    requires Dispatch(codec, invoke, fuel - 1, m.states[current], input).Ok?
    ensures Walk(codec, invoke, fuel, m, current, input) == Err(UnknownStateName(m.states[current].next))
  {
    TransitionRules(codec, invoke, fuel, m, current, input);
    UnknownStateFails(codec, invoke, invoke, fuel - 1, m, m.states[current].next,
                      Dispatch(codec, invoke, fuel - 1, m.states[current], input).value);
  }

  // ---------------------------------------------------------------------------
  // Parallel states
  // ---------------------------------------------------------------------------

  /**
   * The checks of a Parallel state, in order: the input must decode to an
   * object (null counts as an empty one), ParallelExecution must be set, the
   * items key must be present and must hold an array.
   */
  lemma ParallelCheckOrder(codec: Codec, invoke: Invoker, budget: nat, st: State, input: string)
    requires st.stateType == StateTypeParallel
    ensures DecodeObject(codec, input).Err? ==> Dispatch(codec, invoke, budget, st, input) == Err(DecodeObject(codec, input).error)
    ensures DecodeObject(codec, input).Ok? && st.parallelExecution.None? ==>
              Dispatch(codec, invoke, budget, st, input) == Err(MissingParallelExecution)
    ensures DecodeObject(codec, input).Ok? && st.parallelExecution.Some?
              && st.parallelExecution.value.iterableItemsKey !in DecodeObject(codec, input).value ==>
              Dispatch(codec, invoke, budget, st, input) == Err(KeyNotFound(st.parallelExecution.value.iterableItemsKey))
    ensures DecodeObject(codec, input).Ok? && st.parallelExecution.Some?
              && st.parallelExecution.value.iterableItemsKey in DecodeObject(codec, input).value
              && !DecodeObject(codec, input).value[st.parallelExecution.value.iterableItemsKey].JArray? ==>
              Dispatch(codec, invoke, budget, st, input) == Err(NotAnArray)
  {
  }

  /** Branch i runs the nested machine on an object binding itemName to items[i]. */
  lemma {:induction false} BranchesAt(codec: Codec, invoke: Invoker, budget: nat, m: StateMachine, itemName: string, items: seq<Json>)
    ensures |Branches(codec, invoke, budget, m, itemName, items)| == |items|
    ensures forall i :: 0 <= i < |items| ==>
              Branches(codec, invoke, budget, m, itemName, items)[i] == Run(codec, invoke, budget, m, BranchInput(codec, itemName, items[i]))
    decreases |items|
  {
    if items != [] {
      var last := |items| - 1;
      BranchesAt(codec, invoke, budget, m, itemName, items[..last]);
    }
  }

  /**
   * The join reports no error exactly when every branch succeeded, and
   * otherwise the error of the failing branch with the highest index.
   */
  lemma {:induction false} LastErrorIsHighestFailure(rs: seq<Result<string>>)
    ensures LastError(rs).None? <==> forall i :: 0 <= i < |rs| ==> rs[i].Ok?
    ensures LastError(rs).Some? ==>
              exists i :: 0 <= i < |rs| && rs[i].Err? && LastError(rs) == Some(rs[i].error)
                          && forall j :: i < j < |rs| ==> rs[j].Ok?
    decreases |rs|
  {
    if rs != [] {
      var last := |rs| - 1;
      LastErrorIsHighestFailure(rs[..last]);
      if rs[last].Ok? && LastError(rs).Some? {
        var i :| 0 <= i < last && rs[..last][i].Err? && LastError(rs[..last]) == Some(rs[..last][i].error)
                 && forall j :: i < j < last ==> rs[..last][j].Ok?;
        assert rs[i].Err? && forall j :: i < j < |rs| ==> rs[j].Ok?;
      }
    }
  }

  /** The highest failing index determines the join's error. */
  lemma {:induction false} LastErrorAt(rs: seq<Result<string>>, i: nat)
    requires i < |rs| && rs[i].Err?
    requires forall j :: i < j < |rs| ==> rs[j].Ok?
    ensures LastError(rs) == Some(rs[i].error)
    decreases |rs|
  {
    var last := |rs| - 1;
    if i < last {
      LastErrorAt(rs[..last], i);
    }
  }

  /**
   * A Parallel state whose branches all succeed yields one JSON string per
   * item, in item order, whatever order the branches finished in.
   */
  lemma {:induction false} ParallelJoinsInOrder(codec: Codec, invoke: Invoker, budget: nat, m: StateMachine, itemName: string, items: seq<Json>)
    requires forall i :: 0 <= i < |items| ==> Run(codec, invoke, budget, m, BranchInput(codec, itemName, items[i])).Ok?
    ensures Join(codec, Branches(codec, invoke, budget, m, itemName, items))
            == Ok(codec.marshal(JArray(seq(|items|, i requires 0 <= i < |items| =>
                 JString(Run(codec, invoke, budget, m, BranchInput(codec, itemName, items[i])).value)))))
  {
    var rs := Branches(codec, invoke, budget, m, itemName, items);
    BranchesAt(codec, invoke, budget, m, itemName, items);
    LastErrorIsHighestFailure(rs);
    assert SlotsJson(Slots(rs)) == JArray(seq(|items|, i requires 0 <= i < |items| =>
                 JString(Run(codec, invoke, budget, m, BranchInput(codec, itemName, items[i])).value)));
  }

  /**
   * If branch k fails and every later branch succeeds, the Parallel state
   * fails with branch k's error and all branch results are discarded.
   */
  lemma {:induction false} ParallelReportsLastFailure(codec: Codec, invoke: Invoker, budget: nat, m: StateMachine, itemName: string, items: seq<Json>, k: nat)
    requires k < |items|
    requires Run(codec, invoke, budget, m, BranchInput(codec, itemName, items[k])).Err?
    requires forall j :: k < j < |items| ==> Run(codec, invoke, budget, m, BranchInput(codec, itemName, items[j])).Ok?
    ensures Join(codec, Branches(codec, invoke, budget, m, itemName, items))
            == Err(Run(codec, invoke, budget, m, BranchInput(codec, itemName, items[k])).error)
  {
    var rs := Branches(codec, invoke, budget, m, itemName, items);
    BranchesAt(codec, invoke, budget, m, itemName, items);
    LastErrorAt(rs, k);
  }

  // ---------------------------------------------------------------------------
  // The step bound
  // ---------------------------------------------------------------------------

  /** Any outcome other than StepLimit is final: more fuel gives the same outcome. */
  lemma {:induction false} FuelMonotone(codec: Codec, invoke: Invoker, fuel: nat, more: nat, m: StateMachine, input: string)
    requires fuel <= more
    requires Run(codec, invoke, fuel, m, input) != Err(StepLimit)
    ensures Run(codec, invoke, more, m, input) == Run(codec, invoke, fuel, m, input)
    decreases fuel, 1
  {
    WalkMonotone(codec, invoke, fuel, more, m, m.startAt, input);
  }

  lemma {:induction false} WalkMonotone(codec: Codec, invoke: Invoker, fuel: nat, more: nat, m: StateMachine, current: string, input: string)
    requires fuel <= more
    requires Walk(codec, invoke, fuel, m, current, input) != Err(StepLimit)
    ensures Walk(codec, invoke, more, m, current, input) == Walk(codec, invoke, fuel, m, current, input)
    decreases fuel, 0
  {
    if fuel > 0 && current in m.states {
      var st := m.states[current];
      var d := Dispatch(codec, invoke, fuel - 1, st, input);
      assert d != Err(StepLimit);
      DispatchMonotone(codec, invoke, fuel - 1, more - 1, st, input);
      if d.Ok? && !st.end {
        WalkMonotone(codec, invoke, fuel - 1, more - 1, m, st.next, d.value);
      }
    }
  }

  lemma {:induction false} DispatchMonotone(codec: Codec, invoke: Invoker, budget: nat, more: nat, st: State, input: string)
    requires budget <= more
    requires Dispatch(codec, invoke, budget, st, input) != Err(StepLimit)
    ensures Dispatch(codec, invoke, more, st, input) == Dispatch(codec, invoke, budget, st, input)
    decreases budget, 4
  {
    if KindOf(st.stateType) == Some(Parallel) {
      ParallelMonotone(codec, invoke, budget, more, st, input);
    }
  }

  lemma {:induction false} ParallelMonotone(codec: Codec, invoke: Invoker, budget: nat, more: nat, st: State, input: string)
    requires budget <= more
    requires RunParallel(codec, invoke, budget, st, input) != Err(StepLimit)
    ensures RunParallel(codec, invoke, more, st, input) == RunParallel(codec, invoke, budget, st, input)
    decreases budget, 3
  {
    var dec := DecodeObject(codec, input);
    if dec.Ok? && st.parallelExecution.Some? {
      var pe := st.parallelExecution.value;
      if pe.iterableItemsKey in dec.value && dec.value[pe.iterableItemsKey].JArray? {
        var items := dec.value[pe.iterableItemsKey].items;
        var rs := Branches(codec, invoke, budget, pe.stateMachine, pe.iterableItemName, items);
        var rs' := Branches(codec, invoke, more, pe.stateMachine, pe.iterableItemName, items);
        BranchesMonotone(codec, invoke, budget, more, pe.stateMachine, pe.iterableItemName, items);
        LastErrorIsHighestFailure(rs);
        match LastError(rs)
        case None =>
          assert forall i :: 0 <= i < |rs| ==> rs'[i] == rs[i];
          assert rs' == rs;
        case Some(e) =>
          var i :| 0 <= i < |rs| && rs[i].Err? && LastError(rs) == Some(rs[i].error)
                   && forall j :: i < j < |rs| ==> rs[j].Ok?;
          LastErrorAt(rs', i);
      }
    }
  }

  /** Every branch outcome other than StepLimit survives more fuel. */
  lemma {:induction false} BranchesMonotone(codec: Codec, invoke: Invoker, budget: nat, more: nat, m: StateMachine, itemName: string, items: seq<Json>)
    requires budget <= more
    ensures |Branches(codec, invoke, budget, m, itemName, items)| == |items|
    ensures |Branches(codec, invoke, more, m, itemName, items)| == |items|
    ensures forall i :: 0 <= i < |items| && Branches(codec, invoke, budget, m, itemName, items)[i] != Err(StepLimit) ==>
              Branches(codec, invoke, more, m, itemName, items)[i] == Branches(codec, invoke, budget, m, itemName, items)[i]
    decreases budget, 2, |items|
  {
    BranchesAt(codec, invoke, budget, m, itemName, items);
    BranchesAt(codec, invoke, more, m, itemName, items);
    forall i | 0 <= i < |items| && Branches(codec, invoke, budget, m, itemName, items)[i] != Err(StepLimit)
      ensures Branches(codec, invoke, more, m, itemName, items)[i] == Branches(codec, invoke, budget, m, itemName, items)[i]
    {
      FuelMonotone(codec, invoke, budget, more, m, BranchInput(codec, itemName, items[i]));
    }
  }

  // ---------------------------------------------------------------------------
  // The two-state example that the source ships as mockStateMachine
  // ---------------------------------------------------------------------------

  /** start (Task, Next "end") then end (Task, End), both calling revapp /revfunc. */
  function MockStateMachine(): StateMachine {
    StateMachine("", "start", map[
      "start" := State(StateTypeTask, "revapp", "/revfunc", "end", "", false, None),
      "end" := State(StateTypeTask, "revapp", "/revfunc", "", "", true, None)])
  }

  /** With functions that echo their input, the mock machine returns its input. */
  lemma {:induction false} MockRunEchoes(codec: Codec, invoke: Invoker, fuel: nat, input: string)
    requires fuel >= 2
    requires forall app, fn, x :: invoke(app, fn, x) == Ok(x)
    ensures Run(codec, invoke, fuel, MockStateMachine(), input) == Ok(input)
  {
    var m := MockStateMachine();
    TransitionRules(codec, invoke, fuel, m, "start", input);
    DispatchRules(codec, invoke, fuel - 1, m.states["start"], input);
    TransitionRules(codec, invoke, fuel - 1, m, "end", input);
    DispatchRules(codec, invoke, fuel - 2, m.states["end"], input);
  }
}
