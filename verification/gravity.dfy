/**
 * The wizard step-state machine held by the Gravity context provider: a fixed,
 * ordered list of six steps, each locked, active or completed and carrying an
 * opaque result (`data`), together with the seed, budget and market that the
 * pages share. `D` is the type of a step's result; `None` stands for `null`.
 */
module Gravity {
  import opened Wrappers
  import opened Strings

  datatype Status = Locked | Active | Completed

  datatype Step<D> = Step(id: string, name: string, path: string, status: Status, data: Option<D>)

  /** The step identifiers, in wizard order. */
  const StepIds: seq<string> := ["dashboard", "strategy", "channels", "roi", "timeline", "rival-intel"]

  /** The last index of the wizard (`rival-intel`). */
  const LastIndex: nat := 5

  /** `INITIAL_STEPS`: the dashboard is completed, every other step locked, no step has data. */
  function InitialSteps<D>(): (r: seq<Step<D>>)
    ensures |r| == |StepIds| && forall i :: 0 <= i < |r| ==> r[i].id == StepIds[i]
    ensures r[0].status == Completed
    ensures forall i :: 1 <= i < |r| ==> r[i].status == Locked
    ensures forall i :: 0 <= i < |r| ==> r[i].data == None
  {
    [ Step("dashboard", "Control Panel", "/", Completed, None),
      Step("strategy", "Strategy", "/strategy", Locked, None),
      Step("channels", "Channels", "/channels", Locked, None),
      Step("roi", "ROI", "/roi", Locked, None),
      Step("timeline", "Timeline", "/timeline", Locked, None),
      Step("rival-intel", "Rival Intel", "/rival-intel", Locked, None) ]
  }

  /** `a` and `b` list the same steps (id, name, path) in the same order; only statuses and data may differ. */
  ghost predicate SameLayout<D>(a: seq<Step<D>>, b: seq<Step<D>>) {
    && |a| == |b|
    && forall i :: 0 <= i < |a| ==> a[i].id == b[i].id && a[i].name == b[i].name && a[i].path == b[i].path
  }

  /** The layout every reachable step list has: that of `INITIAL_STEPS`. */
  ghost predicate WellFormed<D>(steps: seq<Step<D>>) {
    SameLayout(steps, InitialSteps<D>())
  }

  /** `steps.findIndex(s => s.id === id)`. */
  function IndexOfId<D>(steps: seq<Step<D>>, id: string): (r: int)
    ensures -1 <= r < |steps|
    ensures r == -1 <==> forall j :: 0 <= j < |steps| ==> steps[j].id != id
    ensures 0 <= r ==> steps[r].id == id && forall j :: 0 <= j < r ==> steps[j].id != id
  {
    FindIndex(steps, (s: Step<D>) => s.id == id)
  }

  /** `currentStepIndex`: the first active step, or -1 when no step is active. */
  function FirstActive<D>(steps: seq<Step<D>>): (r: int)
    ensures -1 <= r < |steps|
    ensures r == -1 <==> forall j :: 0 <= j < |steps| ==> steps[j].status != Active
    ensures 0 <= r ==> steps[r].status == Active && forall j :: 0 <= j < r ==> steps[j].status != Active
  {
    FindIndex(steps, (s: Step<D>) => s.status == Active)
  }

  /** The per-step rewrite `setSeed` maps over the list. */
  function ReseedStep<D>(s: Step<D>): Step<D> {
    if s.id == "dashboard" then s.(status := Completed)
    else if s.id == "strategy" then s.(status := Active, data := None)
    else s.(status := Locked, data := None)
  }

  /** The step list after `setSeed`. */
  function Reseeded<D>(steps: seq<Step<D>>): (r: seq<Step<D>>)
    ensures SameLayout(steps, r)
    ensures forall i :: 0 <= i < |r| && r[i].id == "dashboard" ==>
      r[i].status == Completed && r[i].data == steps[i].data
    ensures forall i :: 0 <= i < |r| && r[i].id == "strategy" ==>
      r[i].status == Active && r[i].data == None
    ensures forall i :: 0 <= i < |r| && r[i].id != "dashboard" && r[i].id != "strategy" ==>
      r[i].status == Locked && r[i].data == None
  {
    seq(|steps|, i requires 0 <= i < |steps| => ReseedStep(steps[i]))
  }

  /** The step list after `completeStep(id, data)`. */
  function CompletedSteps<D>(steps: seq<Step<D>>, id: string, data: Option<D>): (r: seq<Step<D>>)
    ensures SameLayout(steps, r)
    ensures IndexOfId(steps, id) == -1 ==> r == steps
    ensures var i := IndexOfId(steps, id);
      0 <= i ==>
        && r[i] == steps[i].(status := Completed, data := data)
        && (i + 1 < |steps| ==> r[i + 1] == steps[i + 1].(status := Active))
        && forall j :: 0 <= j < |steps| && j != i && j != i + 1 ==> r[j] == steps[j]
  {
    var index := IndexOfId(steps, id);
    if index == -1 then steps
    else
      var marked := steps[index := steps[index].(status := Completed, data := data)];
      if index + 1 < |marked| then marked[index + 1 := marked[index + 1].(status := Active)] else marked
  }

  /** The step list after `unlockStep(id)`. */
  function UnlockedSteps<D>(steps: seq<Step<D>>, id: string): (r: seq<Step<D>>)
    ensures SameLayout(steps, r)
    ensures forall j :: 0 <= j < |r| ==> r[j].data == steps[j].data
    ensures forall j :: 0 <= j < |r| ==> r[j].status == if steps[j].id == id then Active else steps[j].status
    ensures IndexOfId(steps, id) == -1 ==> r == steps
  {
    seq(|steps|, j requires 0 <= j < |steps| => if steps[j].id == id then steps[j].(status := Active) else steps[j])
  }

  /** The Sidebar link of a step is navigable exactly when the step is not locked. */
  predicate Navigable<D>(s: Step<D>) {
    s.status != Locked
  }

  class GravityProvider<D> {
    var seed: string
    var budget: real
    var market: string
    var steps: seq<Step<D>>

    ghost predicate Valid()
      reads this
    {
      WellFormed(steps)
    }

    /** The provider's initial `useState` values. */
    constructor ()
      ensures Valid()
      ensures seed == "" && budget == 0.0 && market == "" && steps == InitialSteps()
    {
      seed := "";
      budget := 0.0;
      market := "";
      steps := InitialSteps();
    }

    /** `setSeed`: stores the seed verbatim and rewinds the chain; budget and market are left alone. */
    method SetSeed(newSeed: string)
      requires Valid()
      modifies this
      ensures Valid()
      ensures seed == newSeed && steps == Reseeded(old(steps))
      ensures budget == old(budget) && market == old(market)
    {
      seed := newSeed;
      steps := Reseeded(steps);
    }

    /** `completeStep`: copies the list and writes slots `index` and `index + 1`. */
    method CompleteStep(stepId: string, data: Option<D>)
      requires Valid()
      modifies this
      ensures Valid()
      ensures steps == CompletedSteps(old(steps), stepId, data)
      ensures seed == old(seed) && budget == old(budget) && market == old(market)
    {
      var index := IndexOfId(steps, stepId);
      if index == -1 {
        return;
      }
      var newSteps := steps;
      newSteps := newSteps[index := newSteps[index].(status := Completed, data := data)];
      if index + 1 < |newSteps| {
        newSteps := newSteps[index + 1 := newSteps[index + 1].(status := Active)];
      }
      assert newSteps == CompletedSteps(steps, stepId, data);
      LayoutKept(steps, newSteps, InitialSteps());
      steps := newSteps;
    }

    /** `resetChain`: back to an empty seed and `INITIAL_STEPS`; budget and market are left alone. */
    method ResetChain()
      modifies this
      ensures Valid()
      ensures seed == "" && steps == InitialSteps()
      ensures budget == old(budget) && market == old(market)
    {
      seed := "";
      steps := InitialSteps();
    }

    /** `unlockStep`: forces the matching step to active, nothing else. */
    method UnlockStep(stepId: string)
      requires Valid()
      modifies this
      ensures Valid()
      ensures steps == UnlockedSteps(old(steps), stepId)
      ensures seed == old(seed) && budget == old(budget) && market == old(market)
    {
      steps := UnlockedSteps(steps, stepId);
    }

    method SetBudget(value: real)
      modifies this
      ensures budget == value
      ensures seed == old(seed) && market == old(market) && steps == old(steps)
    {
      budget := value;
    }

    method SetMarket(value: string)
      modifies this
      ensures market == value
      ensures seed == old(seed) && budget == old(budget) && steps == old(steps)
    {
      market := value;
    }

    /** `currentStepIndex`, recomputed from `steps` on every render. */
    function CurrentStepIndex(): int
      reads this
    {
      FirstActive(steps)
    }
  }

  // ---------------------------------------------------------------------------
  // Properties of the transitions
  // ---------------------------------------------------------------------------

  /** In a well-formed list, every fixed identifier is found at its own position. */
  lemma IndexOfStepId<D>(steps: seq<Step<D>>, k: nat)
    requires WellFormed(steps) && k < |StepIds|
    ensures IndexOfId(steps, StepIds[k]) == k
  {
    assert forall j :: 0 <= j < |steps| ==> steps[j].id == StepIds[j];
  }

  /** Transitions never change the layout, so the index of an id depends on the layout only. */
  lemma IndexOfIdSameLayout<D>(a: seq<Step<D>>, b: seq<Step<D>>, id: string)
    requires SameLayout(a, b)
    ensures IndexOfId(a, id) == IndexOfId(b, id)
  {
  }

  /** `setSeed` forgets the history: two well-formed lists whose dashboards carry the same data reseed to the same list. */
  lemma ReseedForgetsHistory<D>(a: seq<Step<D>>, b: seq<Step<D>>)
    requires WellFormed(a) && WellFormed(b) && a[0].data == b[0].data
    ensures Reseeded(a) == Reseeded(b)
  {
    var ra, rb := Reseeded(a), Reseeded(b);
    forall i | 0 <= i < |ra|
      ensures ra[i] == rb[i]
    {
      assert a[i].id == b[i].id && a[i].name == b[i].name && a[i].path == b[i].path;
      if i == 0 {
        assert a[i].id == "dashboard";
      }
    }
  }

  /** After `setSeed` the list is `INITIAL_STEPS` with the dashboard's data kept and `strategy` active. */
  lemma ReseedShape<D>(steps: seq<Step<D>>)
    requires WellFormed(steps)
    ensures Reseeded(steps) == InitialSteps<D>()[0 := InitialSteps<D>()[0].(data := steps[0].data)][1 := InitialSteps<D>()[1].(status := Active)]
  {
    var r := Reseeded(steps);
    var e := InitialSteps<D>()[0 := InitialSteps<D>()[0].(data := steps[0].data)][1 := InitialSteps<D>()[1].(status := Active)];
    forall i | 0 <= i < |r|
      ensures r[i] == e[i]
    {
      assert steps[i].id == StepIds[i];
    }
  }

  /** `completeStep` is idempotent: completing the same step twice with the same data is completing it once. */
  lemma CompleteIdempotent<D>(steps: seq<Step<D>>, id: string, data: Option<D>)
    ensures CompletedSteps(CompletedSteps(steps, id, data), id, data) == CompletedSteps(steps, id, data)
  {
    var once := CompletedSteps(steps, id, data);
    IndexOfIdSameLayout(steps, once, id);
  }

  /** Completing `rival-intel` changes that step alone: there is no step after it to unlock. */
  lemma CompleteLastStep<D>(steps: seq<Step<D>>, data: Option<D>)
    requires WellFormed(steps)
    ensures CompletedSteps(steps, "rival-intel", data) == steps[LastIndex := steps[LastIndex].(status := Completed, data := data)]
  {
    IndexOfStepId(steps, LastIndex);
  }

  /** `completeStep` moves forward only: no step goes back to locked, and no step before the completed one changes. */
  lemma CompleteMovesForward<D>(steps: seq<Step<D>>, id: string, data: Option<D>)
    ensures var r := CompletedSteps(steps, id, data);
      forall j :: 0 <= j < |steps| && steps[j].status != Locked ==> r[j].status != Locked
    ensures var i, r := IndexOfId(steps, id), CompletedSteps(steps, id, data);
      forall j :: 0 <= j < i ==> r[j] == steps[j]
  {
  }

  /** The list after `setSeed` followed by completing the first `|ds|` content steps in order with the results `ds`. */
  function CompleteInOrder<D>(steps: seq<Step<D>>, ds: seq<Option<D>>): seq<Step<D>>
    requires |ds| < |StepIds|
  {
    if |ds| == 0 then Reseeded(steps)
    else CompletedSteps(CompleteInOrder(steps, ds[..|ds| - 1]), StepIds[|ds|], ds[|ds| - 1])
  }

  /** The shape of the list after `setSeed` and `|ds|` in-order completions. */
  ghost predicate WalkShape<D>(r: seq<Step<D>>, ds: seq<Option<D>>)
    requires |ds| < |StepIds|
  {
    && WellFormed(r)
    && (forall j :: 0 <= j <= |ds| ==> r[j].status == Completed)
    && (forall j :: 1 <= j <= |ds| ==> r[j].data == ds[j - 1])
    && (forall j :: |ds| + 1 < j < |r| ==> r[j].status == Locked && r[j].data == None)
    && (forall j :: 0 <= j < |r| ==> (r[j].status == Active <==> j == |ds| + 1))
  }

  /** One more in-order completion extends the shape by one step. */
  lemma WalkStep<D>(p: seq<Step<D>>, ds: seq<Option<D>>)
    requires 0 < |ds| < |StepIds| && WalkShape(p, ds[..|ds| - 1])
    ensures WalkShape(CompletedSteps(p, StepIds[|ds|], ds[|ds| - 1]), ds)
  {
    var k := |ds|;
    var r := CompletedSteps(p, StepIds[k], ds[k - 1]);
    IndexOfStepId(p, k);
    LayoutKept(p, r, InitialSteps());
    WalkStepDone(p, ds, r);
    WalkStepAhead(p, ds, r);
  }

  lemma LayoutKept<D>(a: seq<Step<D>>, b: seq<Step<D>>, c: seq<Step<D>>)
    requires SameLayout(a, b) && SameLayout(a, c)
    ensures SameLayout(b, c)
  {
  }

  /** Steps `0..k` are completed and hold their results once step `k` is completed. */
  lemma WalkStepDone<D>(p: seq<Step<D>>, ds: seq<Option<D>>, r: seq<Step<D>>)
    requires 0 < |ds| < |StepIds| && WalkShape(p, ds[..|ds| - 1])
    requires IndexOfId(p, StepIds[|ds|]) == |ds| && r == CompletedSteps(p, StepIds[|ds|], ds[|ds| - 1])
    ensures |r| == |p|
    ensures forall j :: 0 <= j <= |ds| ==> r[j].status == Completed
    ensures forall j :: 1 <= j <= |ds| ==> r[j].data == ds[j - 1]
  {
    var k := |ds|;
    var prev := ds[..k - 1];
    forall j | 1 <= j < k
      ensures r[j].data == ds[j - 1]
    {
      assert prev[j - 1] == ds[j - 1];
    }
  }

  /** After step `k` only step `k + 1` is active and the rest stay locked and empty. */
  lemma WalkStepAhead<D>(p: seq<Step<D>>, ds: seq<Option<D>>, r: seq<Step<D>>)
    requires 0 < |ds| < |StepIds| && WalkShape(p, ds[..|ds| - 1])
    requires IndexOfId(p, StepIds[|ds|]) == |ds| && r == CompletedSteps(p, StepIds[|ds|], ds[|ds| - 1])
    ensures forall j :: |ds| + 1 < j < |r| ==> r[j].status == Locked && r[j].data == None
    ensures forall j :: 0 <= j < |r| ==> (r[j].status == Active <==> j == |ds| + 1)
  {
  }

  /**
   * Walking the wizard in order: after `setSeed` and `k = |ds|` in-order completions,
   * steps `0..k` are completed (each content step holding the result it was completed with),
   * exactly one step is active (`k + 1`, the current step) while `k < 5`, every later step
   * is locked, and once `rival-intel` is completed no step is active.
   */
  lemma {:induction false} InOrderWalk<D>(steps: seq<Step<D>>, ds: seq<Option<D>>)
    requires WellFormed(steps) && |ds| < |StepIds|
    ensures WalkShape(CompleteInOrder(steps, ds), ds)
    ensures FirstActive(CompleteInOrder(steps, ds)) == if |ds| < LastIndex then |ds| + 1 else -1
  {
    if |ds| == 0 {
      ReseedShape(steps);
    } else {
      InOrderWalk(steps, ds[..|ds| - 1]);
      WalkStep(CompleteInOrder(steps, ds[..|ds| - 1]), ds);
    }
    CurrentOfShape(CompleteInOrder(steps, ds), ds);
  }

  /** In a walk's shape the current step is the one after the completed prefix, if any remains. */
  lemma CurrentOfShape<D>(r: seq<Step<D>>, ds: seq<Option<D>>)
    requires |ds| < |StepIds| && WalkShape(r, ds)
    ensures FirstActive(r) == if |ds| < LastIndex then |ds| + 1 else -1
  {
    if |ds| < LastIndex {
      assert r[|ds| + 1].status == Active;
    }
  }

  /** A client step: a page completes the current step of an in-order walk. */
  method CompleteCurrent(g: GravityProvider<string>, ghost init: seq<Step<string>>, ghost ds: seq<Option<string>>, result: string)
    requires g.Valid() && WellFormed(init) && |ds| < LastIndex && g.steps == CompleteInOrder(init, ds)
    modifies g
    ensures g.Valid() && g.steps == CompleteInOrder(init, ds + [Some(result)])
    ensures g.steps[|ds| + 1].status == Completed && g.steps[|ds| + 1].data == Some(result)
    ensures g.CurrentStepIndex() == if |ds| + 1 < LastIndex then |ds| + 2 else -1
  {
    InOrderWalk(init, ds);
    var i := g.CurrentStepIndex();
    g.CompleteStep(g.steps[i].id, Some(result));
    assert (ds + [Some(result)])[..|ds|] == ds;
    InOrderWalk(init, ds + [Some(result)]);
  }

  /** A client: the seed "Pomanox" walked through two steps, using the contracts alone. */
  method PomanoxWalkthrough()
  {
    var g := new GravityProvider<string>();
    ghost var init := g.steps;
    g.SetSeed("Pomanox");
    assert g.steps == CompleteInOrder(init, []);
    InOrderWalk(init, []);
    assert g.steps[1].status == Active && g.CurrentStepIndex() == 1;
    CompleteCurrent(g, init, [], "missionCritical");
    assert g.CurrentStepIndex() == 2;
    CompleteCurrent(g, init, [Some("missionCritical")], "channels");
    assert g.steps[2].status == Completed && g.CurrentStepIndex() == 3;
  }

  /** A client: `resetChain` after any history leaves no step active. */
  method ResetWalkthrough(g: GravityProvider<string>)
    modifies g
  {
    g.ResetChain();
    assert g.seed == "" && g.steps == InitialSteps();
    assert g.CurrentStepIndex() == -1;
  }
}
