/**
 * The routing table (client.go, session.go): opening, closing and reopening sessions as
 * interleaved steps, with any number of overlapping reopens.
 */
module Routing {
  import opened Wire

  /** A session: its current id, and whether it has a registration to replay. */
  datatype Entry = Entry(id: u32, registered: bool)

  /** How far a reopen is with the first session of its list: `Opening` has set its id to zero. */
  datatype Phase = Idle | Opening | Opened | Replayed

  /** One run of `reopenSessions`: the sessions still to do, and those done with either outcome. */
  datatype Work = Work(todo: seq<nat>, phase: Phase, reopened: seq<nat>, lost: seq<nat>)

  datatype State = State(
    sessions: seq<Entry>,
    /** Sessions the master agent has opened that are not in the table yet. */
    unrouted: set<nat>,
    table: map<u32, nat>,
    works: seq<Work>,
    /** Calls of `Session.Close` that have read the session's id and not yet removed the entry. */
    closing: seq<Closing>,
    /** Sessions whose entry a call of `Close` has removed, if there was one. */
    closed: set<nat>)

  datatype Closing = Closing(session: nat, id: u32)

  datatype Step =
    | Open(id: u32)
    | Register(s: nat)
    | SetRegistered(s: nat, registered: bool)
    | BeginClose(s: nat)
    | EndClose(c: nat)
    | StartReopen(order: seq<nat>)
    | ClearID(w: nat, k: nat)
    | OpenAnswered(w: nat, k: nat, id: u32)
    | OpenFailed(w: nat, k: nat)
    | Replay(w: nat, k: nat, ok: bool)
    | Route(w: nat, k: nat)

  const INITIAL := State([], {}, map[], [], [], {})

  /** Work `w` is so far with session `k`, the first of its list. */
  predicate WorkAt(s: State, w: nat, k: nat, phase: Phase) {
    && w < |s.works| && s.works[w].todo != [] && s.works[w].phase == phase
    && s.works[w].todo[0] == k && k < |s.sessions|
  }

  ghost predicate Enabled(s: State, step: Step) {
    match step
    case Open(_) => true
    case Register(k) => k in s.unrouted && k < |s.sessions|
    case SetRegistered(k, _) => k < |s.sessions| && k !in s.unrouted
    case BeginClose(k) => k < |s.sessions| && k !in s.unrouted
    case EndClose(c) => c < |s.closing|
    case StartReopen(order) => NoDuplicates(order) && forall k :: k in order <==> k in s.table.Values
    case ClearID(w, k) => WorkAt(s, w, k, Idle)
    case OpenAnswered(w, k, _) => WorkAt(s, w, k, Opening)
    case OpenFailed(w, k) => WorkAt(s, w, k, Opening)
    case Replay(w, k, _) => WorkAt(s, w, k, Opened)
    case Route(w, k) => WorkAt(s, w, k, Replayed)
  }

  function SetID(s: State, k: nat, id: u32): (t: State)
    requires k < |s.sessions|
  {
    s.(sessions := s.sessions[k := s.sessions[k].(id := id)])
  }

  function SetPhase(s: State, w: nat, phase: Phase): (t: State)
    requires w < |s.works|
  {
    s.(works := s.works[w := s.works[w].(phase := phase)])
  }

  function Lose(s: State, w: nat): (t: State)
    requires w < |s.works| && s.works[w].todo != []
  {
    var work := s.works[w];
    s.(works := s.works[w := Work(work.todo[1..], Idle, work.reopened, work.lost + [work.todo[0]])])
  }

  function Do(s: State, step: Step): (t: State)
    requires Enabled(s, step)
  {
    match step
    case Open(id) => s.(sessions := s.sessions + [Entry(id, false)], unrouted := s.unrouted + {|s.sessions|})
    case Register(k) => s.(unrouted := s.unrouted - {k}, table := s.table[s.sessions[k].id := k])
    case SetRegistered(k, b) => s.(sessions := s.sessions[k := s.sessions[k].(registered := b)])
    case BeginClose(k) => s.(closing := s.closing + [Closing(k, s.sessions[k].id)])
    case EndClose(c) =>
      s.(closing := s.closing[..c] + s.closing[c + 1..],
         closed := s.closed + {s.closing[c].session},
         table := s.table - {s.closing[c].id})
    case StartReopen(order) => s.(table := map[], works := s.works + [Work(order, Idle, [], [])])
    case ClearID(w, k) => SetPhase(SetID(s, k, 0), w, Opening)
    case OpenAnswered(w, k, id) => SetPhase(SetID(s, k, id), w, Opened)
    case OpenFailed(w, _) => Lose(s, w)
    case Replay(w, k, ok) => if ok || !s.sessions[k].registered then SetPhase(s, w, Replayed) else Lose(s, w)
    case Route(w, k) =>
      var work := s.works[w];
      s.(table := s.table[s.sessions[k].id := k],
         works := s.works[w := Work(work.todo[1..], Idle, work.reopened + [k], work.lost)])
  }

  // ------------------------------------------------------------ invariant

  /** Session `k` is still to be reopened by work `w`. */
  ghost predicate Waits(works: seq<Work>, w: nat, k: nat) {
    w < |works| && k in works[w].todo
  }

  /** The lists hold sessions, each at most once in all of them together. */
  ghost predicate Lists(s: State) {
    && (forall w :: 0 <= w < |s.works| ==> NoDuplicates(s.works[w].todo))
    && (forall w: nat, k: nat :: Waits(s.works, w, k) ==> k < |s.sessions| && k !in s.unrouted)
    && (forall v: nat, w: nat, k: nat :: Waits(s.works, v, k) && Waits(s.works, w, k) ==> v == w)
  }

  /** A session in the table is under its current id, and in no list. */
  ghost predicate Routes(s: State) {
    && (forall id :: id in s.table ==>
          s.table[id] < |s.sessions| && s.sessions[s.table[id]].id == id && s.table[id] !in s.unrouted)
    && (forall id, w: nat :: id in s.table ==> !Waits(s.works, w, s.table[id]))
  }

  ghost predicate Inv(s: State) {
    && Lists(s) && Routes(s)
    && (forall k :: k in s.unrouted ==> k < |s.sessions|)
    && (forall c :: 0 <= c < |s.closing| ==> Returned(s, s.closing[c].session))
  }

  /** The session has been in the table, so that its opener has it. */
  ghost predicate Returned(s: State, k: nat) {
    k < |s.sessions| && k !in s.unrouted
  }

  lemma TableStepKeeps(s: State, step: Step)
    requires Inv(s) && Enabled(s, step)
    requires step.Open? || step.Register? || step.SetRegistered? || step.BeginClose? || step.EndClose?
    ensures Inv(Do(s, step))
  {
  }

  lemma StartReopenKeeps(s: State, order: seq<nat>)
    requires Inv(s) && Enabled(s, StartReopen(order))
    ensures Inv(Do(s, StartReopen(order)))
  {
    var t := Do(s, StartReopen(order));
    assert forall w: nat, k: nat :: Waits(t.works, w, k) <==> Waits(s.works, w, k) || (w == |s.works| && k in order);
    forall k | k in order
      ensures k < |s.sessions| && k !in s.unrouted
      ensures forall w: nat :: !Waits(s.works, w, k)
    {
      var id :| id in s.table && s.table[id] == k;
    }
  }

  /** The session at the head of a list can change its id: it is in no other list and not in the table. */
  lemma HeadIDKeeps(s: State, w: nat, id: u32, phase: Phase)
    requires Inv(s) && w < |s.works| && s.works[w].todo != [] && s.works[w].todo[0] < |s.sessions|
    ensures Inv(SetPhase(SetID(s, s.works[w].todo[0], id), w, phase))
  {
    var head := s.works[w].todo[0];
    var t := SetPhase(SetID(s, head, id), w, phase);
    assert Waits(s.works, w, head);
    assert forall v: nat, k: nat :: Waits(t.works, v, k) <==> Waits(s.works, v, k);
  }

  /** Taking the head off one list leaves it in none. */
  lemma DropKeeps(s: State, w: nat, after: Work)
    requires Inv(s) && w < |s.works| && s.works[w].todo != [] && after.todo == s.works[w].todo[1..]
    ensures var t := s.(works := s.works[w := after]);
            Inv(t) && forall v: nat :: !Waits(t.works, v, s.works[w].todo[0])
  {
    var t := s.(works := s.works[w := after]);
    assert Waits(s.works, w, s.works[w].todo[0]);
    assert forall v: nat, k: nat :: Waits(t.works, v, k) ==> Waits(s.works, v, k);
  }

  lemma RouteKeeps(s: State, w: nat, k: nat)
    requires Inv(s) && Enabled(s, Route(w, k))
    ensures Inv(Do(s, Route(w, k)))
  {
    var work := s.works[w];
    var after := Work(work.todo[1..], Idle, work.reopened + [work.todo[0]], work.lost);
    assert Waits(s.works, w, work.todo[0]);
    DropKeeps(s, w, after);
  }

  lemma StepKeeps(s: State, step: Step)
    requires Inv(s) && Enabled(s, step)
    ensures Inv(Do(s, step))
  {
    match step
    case StartReopen(order) => StartReopenKeeps(s, order);
    case ClearID(w, _) => HeadIDKeeps(s, w, 0, Opening);
    case OpenAnswered(w, _, id) => HeadIDKeeps(s, w, id, Opened);
    case OpenFailed(w, _) => DropKeeps(s, w, Lose(s, w).works[w]);
    case Replay(w, k, ok) => ReplayKeeps(s, w, k, ok);
    case Route(w, k) => RouteKeeps(s, w, k);
    case _ => TableStepKeeps(s, step);
  }

  lemma ReplayKeeps(s: State, w: nat, k: nat, ok: bool)
    requires Inv(s) && Enabled(s, Replay(w, k, ok))
    ensures Inv(Do(s, Replay(w, k, ok)))
  {
    if ok || !s.sessions[k].registered {
      HeadIDKeeps(s, w, s.sessions[k].id, Replayed);
      assert SetID(s, k, s.sessions[k].id) == s;
    } else {
      DropKeeps(s, w, Lose(s, w).works[w]);
    }
  }

  // ----------------------------------------------------------------- runs

  ghost predicate Path(states: seq<State>, steps: seq<Step>) {
    && |states| == |steps| + 1
    && forall i :: 0 <= i < |steps| ==> Enabled(states[i], steps[i]) && states[i + 1] == Do(states[i], steps[i])
  }

  ghost predicate Run(states: seq<State>, steps: seq<Step>) {
    Path(states, steps) && states[0] == INITIAL
  }

  lemma {:induction false} RunKeeps(states: seq<State>, steps: seq<Step>, n: nat)
    requires Run(states, steps) && n < |states|
    ensures Inv(states[n])
  {
    if n > 0 {
      RunKeeps(states, steps, n - 1);
      StepKeeps(states[n - 1], steps[n - 1]);
    }
  }

  /**
   * In every state of every interleaving of opens, closes and overlapping reopens: an entry under
   * `id` is a session whose current id is `id`; no session has two entries, is in two work lists
   * or twice in one, or is both in the table and waiting to be reopened.
   */
  lemma TableIsConsistent(states: seq<State>, steps: seq<Step>, n: nat)
    requires Run(states, steps) && n < |states|
    ensures var s := states[n];
            && (forall id :: id in s.table ==> s.table[id] < |s.sessions| && s.sessions[s.table[id]].id == id)
            && (forall a, b :: a in s.table && b in s.table && s.table[a] == s.table[b] ==> a == b)
            && (forall w :: 0 <= w < |s.works| ==> NoDuplicates(s.works[w].todo))
            && (forall v: nat, w: nat, k: nat :: Waits(s.works, v, k) && Waits(s.works, w, k) ==> v == w)
            && (forall id, w: nat :: id in s.table ==> !Waits(s.works, w, s.table[id]))
  {
    RunKeeps(states, steps, n);
  }

  /** A step of one reopen. */
  predicate Of(step: Step, w: nat) {
    match step
    case ClearID(v, _) => v == w
    case OpenAnswered(v, _, _) => v == w
    case OpenFailed(v, _) => v == w
    case Replay(v, _, _) => v == w
    case Route(v, _) => v == w
    case _ => false
  }

  // --------------------------------------------------------------- opening

  lemma RegistrationStep(s: State, step: Step, k: nat)
    requires Enabled(s, step)
    ensures k < |s.sessions| ==> k < |Do(s, step).sessions|
    ensures k < |Do(s, step).sessions| ==>
              (Do(s, step).sessions[k].registered <==>
                 step == SetRegistered(k, true)
                 || (k < |s.sessions| && s.sessions[k].registered && step != SetRegistered(k, false)))
  {
  }

  /** A session has a registration to replay when it registered last and did not unregister since. */
  lemma {:induction false} RegistrationIsRemembered(states: seq<State>, steps: seq<Step>, n: nat, k: nat)
    requires Run(states, steps) && n < |states| && k < |states[n].sessions|
    ensures states[n].sessions[k].registered <==>
              exists i :: 0 <= i < n && steps[i] == SetRegistered(k, true)
                          && forall j :: i < j < n ==> steps[j] != SetRegistered(k, false)
  {
    if n > 0 {
      RegistrationStep(states[n - 1], steps[n - 1], k);
      if k < |states[n - 1].sessions| {
        RegistrationIsRemembered(states, steps, n - 1, k);
      } else {
        NotRegisteredYet(states, steps, n - 1, k);
      }
      RegistrationGoesOn(steps, n - 1, k);
    }
  }

  ghost predicate RegisteredLast(steps: seq<Step>, n: nat, k: nat)
    requires n <= |steps|
  {
    exists i :: 0 <= i < n && steps[i] == SetRegistered(k, true)
                && forall j :: i < j < n ==> steps[j] != SetRegistered(k, false)
  }

  lemma RegistrationGoesOn(steps: seq<Step>, n: nat, k: nat)
    requires n < |steps|
    ensures RegisteredLast(steps, n + 1, k) <==>
              steps[n] == SetRegistered(k, true) || (RegisteredLast(steps, n, k) && steps[n] != SetRegistered(k, false))
  {
    if RegisteredLast(steps, n, k) && steps[n] != SetRegistered(k, false) {
      var i :| 0 <= i < n && steps[i] == SetRegistered(k, true)
               && forall j :: i < j < n ==> steps[j] != SetRegistered(k, false);
      assert forall j :: i < j < n + 1 ==> steps[j] != SetRegistered(k, false);
    }
    if RegisteredLast(steps, n + 1, k) && steps[n] != SetRegistered(k, true) {
      var i :| 0 <= i < n + 1 && steps[i] == SetRegistered(k, true)
               && forall j :: i < j < n + 1 ==> steps[j] != SetRegistered(k, false);
      assert i < n && steps[n] != SetRegistered(k, false);
    }
  }

  lemma {:induction false} NotRegisteredYet(states: seq<State>, steps: seq<Step>, n: nat, k: nat)
    requires Run(states, steps) && n < |states| && k >= |states[n].sessions|
    ensures !RegisteredLast(steps, n, k)
  {
    if n > 0 {
      SessionsGrow(states[n - 1], steps[n - 1]);
      NotRegisteredYet(states, steps, n - 1, k);
      RegistrationGoesOn(steps, n - 1, k);
    }
  }

  lemma UnroutedStays(s: State, step: Step, k: nat)
    requires Inv(s) && Enabled(s, step) && k in s.unrouted && k in Do(s, step).unrouted
    ensures k < |s.sessions| && k < |Do(s, step).sessions| && Do(s, step).sessions[k] == s.sessions[k]
  {
    if step.ClearID? || step.OpenAnswered? {
      assert Waits(s.works, step.w, step.k);
    }
  }

  lemma UnroutedBefore(s: State, step: Step, k: nat)
    requires Enabled(s, step) && k < |s.sessions| && k in Do(s, step).unrouted
    ensures k in s.unrouted
  {
  }

  lemma StillUnrouted(states: seq<State>, steps: seq<Step>, n: nat, k: nat)
    requires Run(states, steps) && n < |steps| && k < |states[n].sessions| && k in states[n + 1].unrouted
    ensures k in states[n].unrouted && k < |states[n + 1].sessions|
    ensures states[n + 1].sessions[k] == states[n].sessions[k]
  {
    RunKeeps(states, steps, n);
    UnroutedBefore(states[n], steps[n], k);
    UnroutedStays(states[n], steps[n], k);
  }

  lemma {:induction false} OpenedAs(states: seq<State>, steps: seq<Step>, m: nat, n: nat)
    requires Run(states, steps) && m < n < |states| && steps[m].Open? && |states[m].sessions| in states[n].unrouted
    ensures var k := |states[m].sessions|;
            k < |states[n].sessions| && states[n].sessions[k] == Entry(steps[m].id, false)
  {
    if n > m + 1 {
      SessionsStay(states, steps, m + 1, n - 1);
      StillUnrouted(states, steps, n - 1, |states[m].sessions|);
      OpenedAs(states, steps, m, n - 1);
    }
  }

  lemma {:induction false} SessionsStay(states: seq<State>, steps: seq<Step>, m: nat, n: nat)
    requires Run(states, steps) && m <= n < |states|
    ensures |states[m].sessions| <= |states[n].sessions|
  {
    if m < n {
      SessionsStay(states, steps, m, n - 1);
      SessionsGrow(states[n - 1], steps[n - 1]);
    }
  }

  lemma SessionsGrow(s: State, step: Step)
    requires Enabled(s, step)
    ensures |s.sessions| <= |Do(s, step).sessions|
  {
  }

  /** A session that was opened is routed under the id the master agent gave it, and displaces no other id's entry. */
  lemma OpenedIsRouted(states: seq<State>, steps: seq<Step>, m: nat, n: nat)
    requires Run(states, steps) && m < n < |steps| && steps[m].Open? && steps[n] == Register(|states[m].sessions|)
    ensures states[n + 1].table == states[n].table[steps[m].id := |states[m].sessions|]
  {
    OpenedAs(states, steps, m, n);
  }

  // --------------------------------------------------------------- closing

  ghost predicate Routed(s: State, k: nat) {
    exists id :: id in s.table && s.table[id] == k
  }

  ghost predicate Listed(s: State, k: nat) {
    exists w: nat :: Waits(s.works, w, k)
  }

  /** Some interleaving of steps leads from `s` to `t`. */
  ghost predicate Leads(s: State, t: State) {
    exists states, steps :: Path(states, steps) && states[0] == s && states[|steps|] == t
  }

  /** Nothing that can happen after `s` routes to session `k` again. */
  ghost predicate NeverRouted(s: State, k: nat) {
    forall t :: Leads(s, t) ==> !Routed(t, k)
  }

  lemma LeadsNowhere(s: State)
    ensures Leads(s, s)
  {
    var states: seq<State>, steps: seq<Step> := [s], [];
    assert Path(states, steps) && states[0] == s && states[|steps|] == s;
  }

  lemma LeadsOn(s: State, step: Step, t: State)
    requires Enabled(s, step) && Leads(Do(s, step), t)
    ensures Leads(s, t)
  {
    var states, steps :| Path(states, steps) && states[0] == Do(s, step) && states[|steps|] == t;
    var more, taken := [s] + states, [step] + steps;
    forall i | 0 <= i < |taken|
      ensures Enabled(more[i], taken[i]) && more[i + 1] == Do(more[i], taken[i])
    {
      if i > 0 {
        assert Enabled(states[i - 1], steps[i - 1]) && states[i] == Do(states[i - 1], steps[i - 1]);
      }
    }
    assert Path(more, taken) && more[0] == s && more[|taken|] == t;
  }

  /** The session is known to its opener, is not in the table and waits for no reopen. */
  ghost predicate Gone(s: State, k: nat) {
    Returned(s, k) && !Routed(s, k) && !Listed(s, k)
  }

  lemma TableStepKeepsGone(s: State, step: Step, k: nat)
    requires Inv(s) && Gone(s, k) && Enabled(s, step)
    requires step.Open? || step.Register? || step.SetRegistered? || step.BeginClose? || step.EndClose?
    ensures Gone(Do(s, step), k)
  {
    var t := Do(s, step);
    assert t.works == s.works;
  }

  lemma ReopenKeepsGone(s: State, order: seq<nat>, k: nat)
    requires Inv(s) && Gone(s, k) && Enabled(s, StartReopen(order))
    ensures Gone(Do(s, StartReopen(order)), k)
  {
    var t := Do(s, StartReopen(order));
    assert k !in order;
    assert forall w: nat :: Waits(t.works, w, k) ==> Waits(s.works, w, k);
  }

  lemma WorkStepKeepsGone(s: State, step: Step, k: nat, w: nat)
    requires Inv(s) && Gone(s, k) && Enabled(s, step) && Of(step, w)
    ensures Gone(Do(s, step), k)
  {
    var t := Do(s, step);
    assert Waits(s.works, w, s.works[w].todo[0]);
    assert forall v: nat :: Waits(t.works, v, k) ==> Waits(s.works, v, k);
  }

  lemma StepKeepsGone(s: State, step: Step, k: nat)
    requires Inv(s) && Gone(s, k) && Enabled(s, step)
    ensures Gone(Do(s, step), k)
  {
    match step
    case StartReopen(order) => ReopenKeepsGone(s, order, k);
    case ClearID(w, _) => WorkStepKeepsGone(s, step, k, w);
    case OpenAnswered(w, _, _) => WorkStepKeepsGone(s, step, k, w);
    case OpenFailed(w, _) => WorkStepKeepsGone(s, step, k, w);
    case Replay(w, _, _) => WorkStepKeepsGone(s, step, k, w);
    case Route(w, _) => WorkStepKeepsGone(s, step, k, w);
    case _ => TableStepKeepsGone(s, step, k);
  }

  lemma {:induction false} PathKeepsGone(states: seq<State>, steps: seq<Step>, n: nat, k: nat)
    requires Path(states, steps) && n < |states| && Inv(states[0]) && Gone(states[0], k)
    ensures Inv(states[n]) && Gone(states[n], k)
  {
    if n > 0 {
      PathKeepsGone(states, steps, n - 1, k);
      StepKeeps(states[n - 1], steps[n - 1]);
      StepKeepsGone(states[n - 1], steps[n - 1], k);
    }
  }

  lemma GoneForGood(s: State, k: nat)
    requires Inv(s) && Gone(s, k)
    ensures NeverRouted(s, k)
  {
    forall t | Leads(s, t)
      ensures !Routed(t, k)
    {
      var states, steps :| Path(states, steps) && states[0] == s && states[|steps|] == t;
      PathKeepsGone(states, steps, |steps|, k);
    }
  }

  /** The next step of a reopen all of whose requests succeed. */
  function NextStep(s: State, w: nat): (step: Step)
    requires w < |s.works| && s.works[w].todo != []
  {
    var k := s.works[w].todo[0];
    match s.works[w].phase
    case Idle => ClearID(w, k)
    case Opening => OpenAnswered(w, k, 0)
    case Opened => Replay(w, k, true)
    case Replayed => Route(w, k)
  }

  function StepsLeft(work: Work): (n: int) {
    4 * |work.todo| - (match work.phase case Idle => 0 case Opening => 1 case Opened => 2 case Replayed => 3)
  }

  lemma NextStepGoesOn(s: State, w: nat, k: nat)
    requires Inv(s) && Waits(s.works, w, k)
    ensures Enabled(s, NextStep(s, w))
    ensures var t := Do(s, NextStep(s, w));
            && w < |t.works| && StepsLeft(t.works[w]) < StepsLeft(s.works[w])
            && (Waits(t.works, w, k) || Routed(t, k))
  {
    var todo := s.works[w].todo;
    assert Waits(s.works, w, todo[0]);
    var t := Do(s, NextStep(s, w));
    if s.works[w].phase.Replayed? {
      if k == todo[0] {
        assert s.sessions[k].id in t.table && t.table[s.sessions[k].id] == k;
      } else {
        assert k in todo[1..];
      }
    }
  }

  /** A session waiting in a work list may be routed again: its reopen may succeed. */
  lemma {:induction false} ListedMayBeRouted(s: State, w: nat, k: nat) returns (t: State)
    requires Inv(s) && Waits(s.works, w, k)
    ensures Leads(s, t) && Routed(t, k)
    decreases StepsLeft(s.works[w])
  {
    var step := NextStep(s, w);
    NextStepGoesOn(s, w, k);
    StepKeeps(s, step);
    var u := Do(s, step);
    if Routed(u, k) {
      t := u;
      LeadsNowhere(u);
    } else {
      t := ListedMayBeRouted(u, w, k);
    }
    LeadsOn(s, step, t);
  }

  /**
   * After `Session.Close` no entry of the table leads to the session again, whatever happens to a
   * client that stays open, exactly when at the removal no reopen has the session in its work list
   * and, if it is routed, it still has the id that was read.
   */
  lemma ClosedForGood(states: seq<State>, steps: seq<Step>, n: nat, c: nat)
    requires Run(states, steps) && n < |states| && c < |states[n].closing|
    ensures var s := states[n];
            var k := s.closing[c].session;
            && k < |s.sessions|
            && (NeverRouted(Do(s, EndClose(c)), k)
                <==> !Listed(s, k) && (Routed(s, k) ==> s.sessions[k].id == s.closing[c].id))
  {
    RunKeeps(states, steps, n);
    var s, t := states[n], Do(states[n], EndClose(c));
    var k := s.closing[c].session;
    StepKeeps(s, EndClose(c));
    CloseRemoves(states, steps, n, c, k);
    assert t.works == s.works;
    if Routed(t, k) {
      LeadsNowhere(t);
    } else if w: nat :| Waits(s.works, w, k) {
      var u := ListedMayBeRouted(t, w, k);
    } else {
      GoneForGood(t, k);
    }
  }

  /** Removing the entry stops routing to whichever session has, by then, the id that was read. */
  lemma CloseRemoves(states: seq<State>, steps: seq<Step>, n: nat, c: nat, k: nat)
    requires Run(states, steps) && n < |states| && c < |states[n].closing| && k < |states[n].sessions|
    ensures var s, t := states[n], Do(states[n], EndClose(c));
            Routed(t, k) <==> Routed(s, k) && s.sessions[k].id != s.closing[c].id
  {
    RunKeeps(states, steps, n);
    var s, t := states[n], Do(states[n], EndClose(c));
    if Routed(s, k) && s.sessions[k].id != s.closing[c].id {
      assert s.sessions[k].id in t.table && t.table[s.sessions[k].id] == k;
    }
  }

  /** What a close has read is the id the session had at that time. */
  lemma {:induction false} ClosingReads(states: seq<State>, steps: seq<Step>, n: nat, c: nat)
    requires Run(states, steps) && n < |states| && c < |states[n].closing|
    ensures exists m :: 0 <= m < n && steps[m] == BeginClose(states[n].closing[c].session)
                        && states[n].closing[c].session < |states[m].sessions|
                        && states[n].closing[c].id == states[m].sessions[states[n].closing[c].session].id
  {
    var before, step := states[n - 1], steps[n - 1];
    assert Enabled(before, step) && states[n] == Do(before, step);
    if step.BeginClose? && c == |before.closing| {
      assert steps[n - 1] == BeginClose(states[n].closing[c].session);
    } else {
      var b := EarlierClosing(before, step, c);
      ClosingReads(states, steps, n - 1, b);
    }
  }

  lemma EarlierClosing(s: State, step: Step, c: nat) returns (b: nat)
    requires Enabled(s, step) && c < |Do(s, step).closing| && !(step.BeginClose? && c == |s.closing|)
    ensures b < |s.closing| && s.closing[b] == Do(s, step).closing[c]
  {
    b := if step.EndClose? && c >= step.c then c + 1 else c;
  }

  /** A close that nothing comes between takes the session's own entry off the table, and no other. */
  lemma PromptClose(states: seq<State>, steps: seq<Step>, n: nat)
    requires Run(states, steps) && n + 1 < |steps|
    requires steps[n].BeginClose? && steps[n + 1] == EndClose(|states[n].closing|)
    requires Routed(states[n], steps[n].s)
    ensures steps[n].s < |states[n].sessions|
    ensures states[n + 2].table == states[n].table - {states[n].sessions[steps[n].s].id}
    ensures !Routed(states[n + 2], steps[n].s)
  {
    RunKeeps(states, steps, n);
    assert states[n + 1] == Do(states[n], steps[n]) && states[n + 2] == Do(states[n + 1], steps[n + 1]);
  }

  /** Some run gets there. */
  ghost predicate Occurs(s: State) {
    exists states, steps :: Run(states, steps) && states[|steps|] == s
  }

  lemma OccursNext(s: State, step: Step)
    requires Occurs(s) && Enabled(s, step)
    ensures Occurs(Do(s, step))
  {
    var states, steps :| Run(states, steps) && states[|steps|] == s;
    var more, taken := states + [Do(s, step)], steps + [step];
    assert Run(more, taken) && more[|taken|] == Do(s, step);
  }

  /** A session is open under 5, and closing it has read its id. */
  function ClosingFirst(): (s: State) {
    State([Entry(5, false)], {}, map[5 := 0], [], [Closing(0, 5)], {})
  }

  /** The connection was lost and the session did not reopen. */
  function LostFirst(): (s: State) {
    State([Entry(0, false)], {}, map[], [Work([], Idle, [], [0])], [Closing(0, 5)], {})
  }

  /** Its id was then given to another session. */
  function Reassigned(): (s: State) {
    State([Entry(0, false), Entry(5, false)], {}, map[5 := 1], [Work([], Idle, [], [0])], [Closing(0, 5)], {})
  }

  lemma ToClosingFirst()
    ensures var a := Do(INITIAL, Open(5));
            && Enabled(a, Register(0)) && Enabled(Do(a, Register(0)), BeginClose(0))
            && Do(Do(a, Register(0)), BeginClose(0)) == ClosingFirst()
  {
  }

  lemma ToLostFirst()
    ensures Enabled(ClosingFirst(), StartReopen([0]))
    ensures var b := Do(ClosingFirst(), StartReopen([0]));
            && Enabled(b, ClearID(0, 0)) && Enabled(Do(b, ClearID(0, 0)), OpenFailed(0, 0))
            && Do(Do(b, ClearID(0, 0)), OpenFailed(0, 0)) == LostFirst()
  {
    assert ClosingFirst().table[5] == 0;
    var b := Do(ClosingFirst(), StartReopen([0]));
    assert b.works == [Work([0], Idle, [], [])];
    var c := Do(b, ClearID(0, 0));
    assert c == State([Entry(0, false)], {}, map[], [Work([0], Opening, [], [])], [Closing(0, 5)], {});
    assert c.works[0].todo[1..] == [] && c.works[0].lost + [c.works[0].todo[0]] == [0];
    assert Do(c, OpenFailed(0, 0)).works == [Work([], Idle, [], [0])];
  }

  lemma ToReassigned()
    ensures var c := Do(LostFirst(), Open(5)); Enabled(c, Register(1)) && Do(c, Register(1)) == Reassigned()
  {
  }

  lemma OccursAfterThree(s: State, x: Step, y: Step, z: Step)
    requires Occurs(s) && Enabled(s, x) && Enabled(Do(s, x), y) && Enabled(Do(Do(s, x), y), z)
    ensures Occurs(Do(Do(Do(s, x), y), z))
  {
    OccursNext(s, x);
    OccursNext(Do(s, x), y);
    OccursNext(Do(Do(s, x), y), z);
  }

  lemma InitialOccurs()
    ensures Occurs(INITIAL)
  {
    assert Run([INITIAL], []) && [INITIAL][0] == INITIAL;
  }

  lemma LostFirstOccurs()
    ensures Occurs(LostFirst())
  {
    InitialOccurs();
    ToClosingFirst();
    OccursAfterThree(INITIAL, Open(5), Register(0), BeginClose(0));
    ToLostFirst();
    OccursAfterThree(ClosingFirst(), StartReopen([0]), ClearID(0, 0), OpenFailed(0, 0));
  }

  /** This does happen, and then closing session 0 takes session 1 off the table. */
  lemma CloseMayHitAnother()
    ensures Occurs(Reassigned()) && Routed(Reassigned(), 1)
    ensures !Routed(Do(Reassigned(), EndClose(0)), 1)
  {
    LostFirstOccurs();
    ToReassigned();
    OccursNext(LostFirst(), Open(5));
    OccursNext(Do(LostFirst(), Open(5)), Register(1));
    assert Reassigned().table[5] == 1;
  }

  /** The session was closed while a reopen had it in its work list. */
  function ClosedWaiting(): (s: State) {
    State([Entry(5, false)], {}, map[], [Work([0], Idle, [], [])], [], {0})
  }

  /** The reopen went on and routed it again. */
  function BackAgain(): (s: State) {
    State([Entry(7, false)], {}, map[7 := 0], [Work([], Idle, [0], [])], [], {0})
  }

  function Waiting(phase: Phase, id: u32): (s: State) {
    State([Entry(id, false)], {}, map[], [Work([0], phase, [], [])], [], {0})
  }

  lemma ToReopening()
    ensures var a := Do(INITIAL, Open(5));
            && Enabled(a, Register(0)) && Enabled(Do(a, Register(0)), StartReopen([0]))
            && Do(Do(a, Register(0)), StartReopen([0])) == Waiting(Idle, 5).(closed := {})
  {
    var b := Do(Do(INITIAL, Open(5)), Register(0));
    assert b.table == map[5 := 0] && b.table[5] == 0;
  }

  lemma ToClosedWaiting(s: State)
    requires s == Waiting(Idle, 5).(closed := {})
    ensures Enabled(s, BeginClose(0)) && Enabled(Do(s, BeginClose(0)), EndClose(0))
    ensures Do(Do(s, BeginClose(0)), EndClose(0)) == ClosedWaiting()
  {
  }

  lemma ToReplayed(s: State)
    requires s == ClosedWaiting()
    ensures Enabled(s, ClearID(0, 0)) && Do(s, ClearID(0, 0)) == Waiting(Opening, 0)
    ensures Enabled(Waiting(Opening, 0), OpenAnswered(0, 0, 7))
    ensures Do(Waiting(Opening, 0), OpenAnswered(0, 0, 7)) == Waiting(Opened, 7)
    ensures Enabled(Waiting(Opened, 7), Replay(0, 0, true))
    ensures Do(Waiting(Opened, 7), Replay(0, 0, true)) == Waiting(Replayed, 7)
  {
  }

  lemma ToBackAgain(s: State)
    requires s == Waiting(Replayed, 7)
    ensures Enabled(s, Route(0, 0)) && Do(s, Route(0, 0)) == BackAgain()
  {
    assert s.works[0].todo[1..] == [] && s.works[0].reopened + [s.works[0].todo[0]] == [0];
    assert Do(s, Route(0, 0)).works == [Work([], Idle, [0], [])];
  }

  lemma ClosedWaitingOccurs()
    ensures Occurs(ClosedWaiting())
  {
    InitialOccurs();
    ToReopening();
    OccursAfterThree(INITIAL, Open(5), Register(0), StartReopen([0]));
    var s := Waiting(Idle, 5).(closed := {});
    ToClosedWaiting(s);
    OccursNext(s, BeginClose(0));
    OccursNext(Do(s, BeginClose(0)), EndClose(0));
  }

  /** A session whose close is finished, and to which nothing is routed, is routed again by a reopen. */
  lemma ClosedSessionComesBack()
    ensures Occurs(ClosedWaiting()) && 0 in ClosedWaiting().closed && !Routed(ClosedWaiting(), 0)
    ensures Leads(ClosedWaiting(), BackAgain()) && Routed(BackAgain(), 0)
  {
    ClosedWaitingOccurs();
    ToReplayed(ClosedWaiting());
    ToBackAgain(Waiting(Replayed, 7));
    LeadsNowhere(BackAgain());
    LeadsOn(Waiting(Replayed, 7), Route(0, 0), BackAgain());
    LeadsOn(Waiting(Opened, 7), Replay(0, 0, true), BackAgain());
    LeadsOn(Waiting(Opening, 0), OpenAnswered(0, 0, 7), BackAgain());
    LeadsOn(ClosedWaiting(), ClearID(0, 0), BackAgain());
    assert BackAgain().table[7] == 0;
  }
}
