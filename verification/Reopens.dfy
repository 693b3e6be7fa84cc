/** A reopen that nothing else interferes with (client.go, `reopenSessions`; session.go, `reopen`). */
module Reopens {
  import opened Wire
  import opened Routing

  /** The table is made of the reopened sessions, and every new id of theirs is in it. */
  ghost predicate Rebuilt(s: State, w: nat, order: seq<nat>) {
    && w < |s.works|
    && (forall id :: id in s.table ==> s.table[id] in s.works[w].reopened)
    && (forall k :: k in s.works[w].reopened ==>
          k < |s.sessions| && k !in s.works[w].todo && s.sessions[k].id in s.table)
    && (forall k :: k in order <==> k in s.works[w].reopened || k in s.works[w].lost || k in s.works[w].todo)
    && (forall k :: k in s.works[w].lost ==> k !in s.works[w].reopened && k !in s.works[w].todo)
  }

  lemma SameListsKeepRebuilt(s: State, t: State, w: nat, order: seq<nat>)
    requires Rebuilt(s, w, order) && w < |t.works| && t.table == s.table && |t.sessions| == |s.sessions|
    requires t.works[w].todo == s.works[w].todo
    requires t.works[w].reopened == s.works[w].reopened && t.works[w].lost == s.works[w].lost
    requires forall k :: k in s.works[w].reopened ==> t.sessions[k].id == s.sessions[k].id
    ensures Rebuilt(t, w, order)
  {
  }

  lemma HeadKeepsRebuilt(s: State, w: nat, order: seq<nat>, id: u32, phase: Phase)
    requires Rebuilt(s, w, order) && s.works[w].todo != [] && s.works[w].todo[0] < |s.sessions|
    ensures Rebuilt(SetPhase(SetID(s, s.works[w].todo[0], id), w, phase), w, order)
  {
    assert s.works[w].todo[0] in s.works[w].todo;
    SameListsKeepRebuilt(s, SetPhase(SetID(s, s.works[w].todo[0], id), w, phase), w, order);
  }

  lemma TakenOff(todo: seq<nat>)
    requires todo != [] && NoDuplicates(todo)
    ensures todo[0] !in todo[1..] && forall k :: k in todo <==> k == todo[0] || k in todo[1..]
  {
    assert todo == [todo[0]] + todo[1..];
  }

  lemma LoseKeepsRebuilt(s: State, w: nat, order: seq<nat>)
    requires Inv(s) && Rebuilt(s, w, order) && s.works[w].todo != []
    ensures Rebuilt(Lose(s, w), w, order)
  {
    TakenOff(s.works[w].todo);
  }

  lemma RouteKeepsRebuilt(s: State, w: nat, order: seq<nat>, k: nat)
    requires Inv(s) && Rebuilt(s, w, order) && Enabled(s, Route(w, k))
    ensures Rebuilt(Do(s, Route(w, k)), w, order)
  {
    TakenOff(s.works[w].todo);
  }

  lemma RebuiltKeeps(s: State, step: Step, w: nat, order: seq<nat>)
    requires Inv(s) && Rebuilt(s, w, order) && Enabled(s, step) && Of(step, w)
    ensures Rebuilt(Do(s, step), w, order)
  {
    match step
    case ClearID(_, _) => HeadKeepsRebuilt(s, w, order, 0, Opening);
    case OpenAnswered(_, _, id) => HeadKeepsRebuilt(s, w, order, id, Opened);
    case OpenFailed(_, _) => LoseKeepsRebuilt(s, w, order);
    case Replay(_, _, _) => LoseKeepsRebuilt(s, w, order);
    case Route(_, k) => RouteKeepsRebuilt(s, w, order, k);
  }

  ghost predicate Reachable(s: State, reopened: seq<nat>) {
    forall k :: k in reopened ==> k < |s.sessions| && s.sessions[k].id in s.table && s.table[s.sessions[k].id] == k
  }

  ghost predicate DistinctIDs(s: State, reopened: seq<nat>) {
    && (forall k :: k in reopened ==> k < |s.sessions|)
    && forall j, k :: j in reopened && k in reopened && s.sessions[j].id == s.sessions[k].id ==> j == k
  }

  lemma ReachableIffDistinct(s: State, w: nat, order: seq<nat>)
    requires Inv(s) && Rebuilt(s, w, order)
    ensures Reachable(s, s.works[w].reopened) <==> DistinctIDs(s, s.works[w].reopened)
  {
    var reopened := s.works[w].reopened;
    if DistinctIDs(s, reopened) {
      forall k | k in reopened
        ensures s.table[s.sessions[k].id] == k
      {
        assert s.table[s.sessions[k].id] in reopened;
      }
    }
  }

  // ------------------------------------------ what the master agent answered

  /** The master agent opened the session again. */
  ghost predicate Opens(past: seq<Step>, w: nat, k: nat) {
    exists id :: OpenAnswered(w, k, id) in past
  }

  /** It did, and took the registration again if there is one. */
  ghost predicate Comes(past: seq<Step>, w: nat, k: nat, registered: bool) {
    Opens(past, w, k) && (registered ==> Replay(w, k, true) in past)
  }

  /** No answer about the session came yet. */
  ghost predicate NoAnswer(past: seq<Step>, w: nat, k: nat) {
    !Opens(past, w, k) && Replay(w, k, true) !in past && Replay(w, k, false) !in past
  }

  ghost predicate StageFits(phase: Phase, past: seq<Step>, w: nat, k: nat, registered: bool) {
    match phase
    case Idle => NoAnswer(past, w, k)
    case Opening => NoAnswer(past, w, k)
    case Opened => Opens(past, w, k) && Replay(w, k, true) !in past && Replay(w, k, false) !in past
    case Replayed => Comes(past, w, k, registered)
  }

  function StageOf(work: Work, k: nat): (phase: Phase) {
    if work.todo != [] && work.todo[0] == k then work.phase else Idle
  }

  /** Where the reopen has put a session, and under which id, is what the answers say. */
  ghost predicate Told(s: State, past: seq<Step>, w: nat, k: nat) {
    && w < |s.works| && k < |s.sessions|
    && var work, registered := s.works[w], s.sessions[k].registered;
       && (forall id :: OpenAnswered(w, k, id) in past ==> s.sessions[k].id == id)
       && (ClearID(w, k) in past && !Opens(past, w, k) ==> s.sessions[k].id == 0)
       && (k in work.reopened ==> Comes(past, w, k, registered))
       && (k in work.lost ==> ClearID(w, k) in past && !Comes(past, w, k, registered))
       && (k in work.todo ==> StageFits(StageOf(work, k), past, w, k, registered))
       && (k in work.todo && StageOf(work, k) != Idle ==> ClearID(w, k) in past)
  }

  predicate AboutSession(step: Step, w: nat, k: nat) {
    Of(step, w) && step.k == k
  }

  lemma AppendTells(past: seq<Step>, step: Step, w: nat, k: nat)
    ensures Opens(past + [step], w, k) <==> Opens(past, w, k) || (step.OpenAnswered? && step.w == w && step.k == k)
  {
    if Opens(past, w, k) {
      var id :| OpenAnswered(w, k, id) in past;
      assert OpenAnswered(w, k, id) in past + [step];
    }
    if step.OpenAnswered? && step.w == w && step.k == k {
      assert OpenAnswered(w, k, step.id) in past + [step];
    }
  }

  /** The lists of one work, and the other sessions, when a step about another session is taken. */
  lemma OtherSession(s: State, step: Step, w: nat, k: nat)
    requires Enabled(s, step) && Of(step, w) && step.k != k && k < |s.sessions| && NoDuplicates(s.works[w].todo)
    ensures var t, x := Do(s, step), s.works[w];
            && w < |t.works| && k < |t.sessions| && t.sessions[k] == s.sessions[k]
            && var y := t.works[w];
               && (k in y.reopened <==> k in x.reopened) && (k in y.lost <==> k in x.lost)
               && (k in y.todo <==> k in x.todo)
               && (k in y.todo ==> StageOf(x, k) == Idle && StageOf(y, k) == Idle)
  {
    TakenOff(s.works[w].todo);
  }

  lemma OtherTold(s: State, past: seq<Step>, step: Step, w: nat, k: nat)
    requires Told(s, past, w, k) && Enabled(s, step) && Of(step, w) && step.k != k && NoDuplicates(s.works[w].todo)
    ensures Told(Do(s, step), past + [step], w, k)
  {
    OtherSession(s, step, w, k);
    AppendTells(past, step, w, k);
  }

  lemma HeadTold(s: State, past: seq<Step>, step: Step, w: nat, k: nat)
    requires Told(s, past, w, k) && Enabled(s, step) && AboutSession(step, w, k) && NoDuplicates(s.works[w].todo)
    requires k !in s.works[w].reopened && k !in s.works[w].lost
    ensures Told(Do(s, step), past + [step], w, k)
  {
    TakenOff(s.works[w].todo);
    AppendTells(past, step, w, k);
  }

  lemma StepTold(s: State, past: seq<Step>, step: Step, w: nat, order: seq<nat>, k: nat)
    requires Inv(s) && Rebuilt(s, w, order) && Told(s, past, w, k) && Enabled(s, step) && Of(step, w)
    ensures Told(Do(s, step), past + [step], w, k)
  {
    if step.k == k {
      assert s.works[w].todo[0] in s.works[w].todo;
      HeadTold(s, past, step, w, k);
    } else {
      OtherTold(s, past, step, w, k);
    }
  }

  lemma StartTold(s: State, order: seq<nat>, k: nat)
    requires Inv(s) && Enabled(s, StartReopen(order)) && k in order
    ensures Told(Do(s, StartReopen(order)), [StartReopen(order)], |s.works|, k)
  {
    StartReopenKeeps(s, order);
    assert Waits(Do(s, StartReopen(order)).works, |s.works|, k);
  }

  /** A reopen by itself, from the moment it takes the sessions off the table. */
  ghost predicate Undisturbed(states: seq<State>, steps: seq<Step>) {
    && Path(states, steps) && Inv(states[0]) && steps != [] && steps[0].StartReopen?
    && forall i :: 1 <= i < |steps| ==> Of(steps[i], |states[0].works|)
  }

  lemma SoloStep(states: seq<State>, steps: seq<Step>, m: nat)
    requires Undisturbed(states, steps) && 1 <= m < |steps|
    ensures Enabled(states[m], steps[m]) && states[m + 1] == Do(states[m], steps[m]) && Of(steps[m], |states[0].works|)
  {
  }

  lemma SoloStart(states: seq<State>, steps: seq<Step>, k: nat)
    requires Undisturbed(states, steps) && k in steps[0].order
    ensures Told(states[1], steps[..1], |states[0].works|, k)
  {
    assert Enabled(states[0], steps[0]) && states[1] == Do(states[0], steps[0]);
    StartTold(states[0], steps[0].order, k);
    assert steps[..1] == [steps[0]];
  }

  /** Everything a step of the reopen needs to be known of the run. */
  ghost predicate SoloAt(s: State, step: Step, t: State, w: nat, order: seq<nat>) {
    Inv(s) && Rebuilt(s, w, order) && Enabled(s, step) && t == Do(s, step) && Of(step, w)
  }

  lemma SoloStepIs(states: seq<State>, steps: seq<Step>, m: nat)
    requires Undisturbed(states, steps) && 1 <= m < |steps|
    ensures SoloAt(states[m], steps[m], states[m + 1], |states[0].works|, steps[0].order)
  {
    SoloKeeps(states, steps, m);
    SoloStep(states, steps, m);
  }

  lemma ToldNext(s: State, step: Step, t: State, past: seq<Step>, next: seq<Step>, w: nat, order: seq<nat>, k: nat)
    requires SoloAt(s, step, t, w, order) && Told(s, past, w, k) && next == past + [step]
    ensures Told(t, next, w, k)
  {
    StepTold(s, past, step, w, order, k);
  }

  lemma {:induction false} ToldThroughout(states: seq<State>, steps: seq<Step>, w: nat, order: seq<nat>, n: nat, k: nat)
    requires |states| == |steps| + 1 && 1 <= n < |states|
    requires forall m :: 1 <= m < |steps| ==> SoloAt(states[m], steps[m], states[m + 1], w, order)
    requires Told(states[1], steps[..1], w, k)
    ensures Told(states[n], steps[..n], w, k)
  {
    if n > 1 {
      var m := n - 1;
      ToldThroughout(states, steps, w, order, m, k);
      assert SoloAt(states[m], steps[m], states[m + 1], w, order);
      assert steps[..n] == steps[..m] + [steps[m]];
      ToldNext(states[m], steps[m], states[n], steps[..m], steps[..n], w, order, k);
    }
  }

  lemma SoloTold(states: seq<State>, steps: seq<Step>, n: nat, k: nat)
    requires Undisturbed(states, steps) && 1 <= n < |states| && k in steps[0].order
    ensures Told(states[n], steps[..n], |states[0].works|, k)
  {
    SoloStart(states, steps, k);
    forall m | 1 <= m < |steps|
      ensures SoloAt(states[m], steps[m], states[m + 1], |states[0].works|, steps[0].order)
    {
      SoloStepIs(states, steps, m);
    }
    ToldThroughout(states, steps, |states[0].works|, steps[0].order, n, k);
  }

  lemma RegisteredStays(s: State, step: Step, w: nat, k: nat)
    requires Enabled(s, step) && (Of(step, w) || step.StartReopen?) && k < |s.sessions|
    ensures k < |Do(s, step).sessions| && Do(s, step).sessions[k].registered == s.sessions[k].registered
  {
  }

  lemma {:induction false} SoloRegistered(states: seq<State>, steps: seq<Step>, n: nat, k: nat)
    requires Undisturbed(states, steps) && n < |states| && k < |states[0].sessions|
    ensures k < |states[n].sessions| && states[n].sessions[k].registered == states[0].sessions[k].registered
  {
    if n > 0 {
      SoloRegistered(states, steps, n - 1, k);
      RegisteredStays(states[n - 1], steps[n - 1], |states[0].works|, k);
    }
  }

  /**
   * A reopen that nothing else interferes with goes through every session of the table. At the end
   * the table holds none but those that reopened, each of them lying under its new id exactly when
   * the master agent gave them different ids.
   */
  lemma UndisturbedReopen(states: seq<State>, steps: seq<Step>)
    requires Undisturbed(states, steps)
    requires var w, after := |states[0].works|, states[|steps|]; w < |after.works| && after.works[w].todo == []
    ensures var before, w, after := states[0], |states[0].works|, states[|steps|];
            var reopened, lost := after.works[w].reopened, after.works[w].lost;
            && (forall k :: k in before.table.Values <==> k in reopened || k in lost)
            && (forall k :: k in lost ==> k !in reopened && k !in after.table.Values)
            && (forall id :: id in after.table ==>
                  && after.table[id] in reopened
                  && after.table[id] < |after.sessions| && after.sessions[after.table[id]].id == id)
            && (Reachable(after, reopened) <==> DistinctIDs(after, reopened))
  {
    SoloKeeps(states, steps, |steps|);
    ReachableIffDistinct(states[|steps|], |states[0].works|, steps[0].order);
  }

  /**
   * And a session reopens, under the id it was opened with, if and only if the master agent opened
   * it and, when it has a registration, took that too. Any other is lost, and has the id zero
   * unless it was opened.
   */
  lemma ReopenedAsAnswered(states: seq<State>, steps: seq<Step>, k: nat)
    requires Undisturbed(states, steps) && k in states[0].table.Values
    requires var w, after := |states[0].works|, states[|steps|]; w < |after.works| && after.works[w].todo == []
    ensures var before, w, after := states[0], |states[0].works|, states[|steps|];
            && k < |before.sessions| && k < |after.sessions|
            && (k in after.works[w].reopened <==>
                  (exists id :: OpenAnswered(w, k, id) in steps)
                  && (before.sessions[k].registered ==> Replay(w, k, true) in steps))
            && (k in after.works[w].lost <==> k !in after.works[w].reopened)
            && (forall id :: OpenAnswered(w, k, id) in steps ==> after.sessions[k].id == id)
            && ((forall id :: OpenAnswered(w, k, id) !in steps) ==> after.sessions[k].id == 0)
  {
    var w, after, n := |states[0].works|, states[|steps|], |steps|;
    assert k in steps[0].order;
    UndisturbedReopen(states, steps);
    SoloTold(states, steps, n, k);
    assert steps[..n] == steps;
    var id :| id in states[0].table && states[0].table[id] == k;
    SoloRegistered(states, steps, n, k);
    assert Told(after, steps, w, k);
    if k in after.works[w].reopened {
      assert Opens(steps, w, k);
    }
  }

  lemma {:induction false} SoloKeeps(states: seq<State>, steps: seq<Step>, n: nat)
    requires Path(states, steps) && Inv(states[0]) && 1 <= n < |states| && steps[0].StartReopen?
    requires var w := |states[0].works|; forall i :: 1 <= i < |steps| ==> Of(steps[i], w)
    ensures Inv(states[n]) && Rebuilt(states[n], |states[0].works|, steps[0].order)
  {
    if n > 1 {
      SoloKeeps(states, steps, n - 1);
      RebuiltKeeps(states[n - 1], steps[n - 1], |states[0].works|, steps[0].order);
    }
    if n == 1 {
      StepKeeps(states[0], steps[0]);
    } else {
      StepKeeps(states[n - 1], steps[n - 1]);
    }
  }
}
