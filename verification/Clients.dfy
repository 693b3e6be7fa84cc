/** The client's tables as its methods change them (client.go), and one undisturbed reopen. */
module Clients {
  import opened Wire
  import C = Correlation

  /** A session as the routing table knows it (session.go). */
  class Session {
    var sessionID: u32
    var registered: bool

    constructor (id: u32)
      ensures sessionID == id && !registered
    {
      sessionID, registered := id, false;
    }

    /** The id is cleared before the session is opened again, and stays cleared when that fails. */
    method Reopen(a: Answer) returns (ok: bool)
      modifies this`sessionID
      ensures sessionID == AssignedID(a)
      ensures ok <==> a.newID.Some? && (registered ==> a.accepted)
    {
      sessionID := 0;
      if a.newID.None? {
        return false;
      }
      sessionID := a.newID.value;
      ok := !registered || a.accepted;
    }
  }

  /** How the master agent answers a reopen: the new id if it opened, and whether it took the registration. */
  datatype Answer = Answer(newID: Option<u32>, accepted: bool)

  function AssignedID(a: Answer): (id: u32)
    ensures a.newID == Some(id) || (a.newID.None? && id == 0)
  {
    if a.newID.Some? then a.newID.value else 0
  }

  /** What one session comes back to, if it does. */
  function NewID(a: Answer, registered: bool): (id: Option<u32>)
    ensures id.Some? <==> a.newID.Some? && (registered ==> a.accepted)
    ensures id.Some? ==> id == a.newID
  {
    if registered && !a.accepted then None else a.newID
  }

  /** The table after the first `n` sessions: a later session takes over the entry of an earlier one with its id. */
  function TableAfter<T>(order: seq<T>, ids: seq<Option<u32>>, n: nat): (table: map<u32, T>)
    requires n <= |order| == |ids|
  {
    if n == 0 then map[]
    else
      var before := TableAfter(order, ids, n - 1);
      match ids[n - 1]
      case Some(id) => before[id := order[n - 1]]
      case None => before
  }

  function CountReopened(ids: seq<Option<u32>>, n: nat): (c: nat)
    requires n <= |ids|
  {
    if n == 0 then 0 else CountReopened(ids, n - 1) + (if ids[n - 1].Some? then 1 else 0)
  }

  /** The count is of those that came back. */
  lemma {:induction false} CountIsOfReopened(ids: seq<Option<u32>>, n: nat)
    requires n <= |ids|
    ensures CountReopened(ids, n) == |set i | 0 <= i < n && ids[i].Some?|
  {
    if n > 0 {
      CountIsOfReopened(ids, n - 1);
      var before := set i | 0 <= i < n - 1 && ids[i].Some?;
      var after := set i | 0 <= i < n && ids[i].Some?;
      assert after == if ids[n - 1].Some? then before + {n - 1} else before;
    }
  }

  /** Session `i` is the last of the first `n` with its id. */
  ghost predicate LastWith(ids: seq<Option<u32>>, n: nat, i: nat) {
    i < n <= |ids| && ids[i].Some? && forall j :: i < j < n ==> ids[j] != ids[i]
  }

  lemma {:induction false} TableHoldsLast<T>(order: seq<T>, ids: seq<Option<u32>>, n: nat)
    requires n <= |order| == |ids|
    ensures forall id :: id in TableAfter(order, ids, n) ==>
              exists i: nat :: LastWith(ids, n, i) && ids[i] == Some(id) && TableAfter(order, ids, n)[id] == order[i]
    ensures forall i: nat :: LastWith(ids, n, i) ==>
              ids[i].value in TableAfter(order, ids, n) && TableAfter(order, ids, n)[ids[i].value] == order[i]
  {
    if n > 0 {
      TableHoldsLast(order, ids, n - 1);
      var before, after := TableAfter(order, ids, n - 1), TableAfter(order, ids, n);
      forall id | id in after
        ensures exists i: nat :: LastWith(ids, n, i) && ids[i] == Some(id) && after[id] == order[i]
      {
        if ids[n - 1] == Some(id) {
          assert LastWith(ids, n, n - 1);
        } else {
          var i: nat :| LastWith(ids, n - 1, i) && ids[i] == Some(id) && before[id] == order[i];
          assert LastWith(ids, n, i);
        }
      }
      forall i: nat | LastWith(ids, n, i)
        ensures ids[i].value in after && after[ids[i].value] == order[i]
      {
        if i < n - 1 {
          assert LastWith(ids, n - 1, i);
        }
      }
    }
  }

  ghost predicate DistinctIDs(ids: seq<Option<u32>>) {
    forall i, j :: 0 <= i < j < |ids| && ids[i].Some? ==> ids[i] != ids[j]
  }

  /** Every session that reopened is in the table, under its new id. */
  ghost predicate AllRouted<T>(table: map<u32, T>, order: seq<T>, ids: seq<Option<u32>>)
    requires |order| == |ids|
  {
    forall i :: 0 <= i < |ids| && ids[i].Some? ==> ids[i].value in table && table[ids[i].value] == order[i]
  }

  /** The table routes to every reopened session exactly when their new ids differ, and to nothing else. */
  lemma RoutedIffDistinct<T>(order: seq<T>, ids: seq<Option<u32>>)
    requires |order| == |ids| && NoDuplicates(order)
    ensures var table := TableAfter(order, ids, |ids|);
            && (AllRouted(table, order, ids) <==> DistinctIDs(ids))
            && (forall id :: id in table ==> exists i: nat :: i < |ids| && ids[i] == Some(id) && table[id] == order[i])
  {
    var n, table := |ids|, TableAfter(order, ids, |ids|);
    TableHoldsLast(order, ids, n);
    if DistinctIDs(ids) {
      forall i: nat | i < n && ids[i].Some?
        ensures table[ids[i].value] == order[i]
      {
        assert LastWith(ids, n, i);
      }
    }
    if AllRouted(table, order, ids) {
      forall i, j | 0 <= i < j < n && ids[i].Some?
        ensures ids[i] != ids[j]
      {
        assert order[i] != order[j];
      }
    }
  }

  /** The id each session of `order` comes back with, if it does. */
  function NewIDs(order: seq<Session>, answers: seq<Answer>): (ids: seq<Option<u32>>)
    requires |answers| == |order|
    reads order
    ensures |ids| == |order|
    ensures forall i :: 0 <= i < |order| ==> ids[i] == NewID(answers[i], order[i].registered)
  {
    if order == [] then []
    else
      var n := |order| - 1;
      NewIDs(order[..n], answers[..n]) + [NewID(answers[n], order[n].registered)]
  }

  // -------------------------------------------------------------- the client

  class Client {
    var sessions: map<u32, Session>
    var pending: map<u32, nat>
    var nextPacketID: u32
    /** The state of the requests and responses that the two stand for. */
    ghost var model: C.State

    constructor ()
      ensures sessions == map[] && pending == map[] && nextPacketID == 0
      ensures Correlates() && model == C.INITIAL
    {
      sessions, pending, nextPacketID, model := map[], map[], 0, C.INITIAL;
    }

    ghost predicate Correlates()
      reads this
    {
      pending == model.pending && nextPacketID == model.nextPacketID && C.Inv(model)
    }

    /** Every entry of the table is under its session's own id. */
    ghost predicate Valid()
      reads this, set id | id in sessions :: sessions[id]
    {
      forall id :: id in sessions ==> sessions[id].sessionID == id
    }

    /** The first part of `request`: the id is the old counter, which wraps at 2^32. */
    method AllocateID() returns (packetID: u32)
      modifies this`nextPacketID
      ensures packetID == old(nextPacketID) && nextPacketID == (old(nextPacketID) + 1) % TWO32
    {
      packetID := nextPacketID;
      nextPacketID := if nextPacketID == TWO32 - 1 then 0 else nextPacketID + 1;
    }

    method AddPending(packetID: u32, channel: nat)
      modifies this`pending
      ensures pending == old(pending)[packetID := channel]
    {
      pending := pending[packetID := channel];
    }

    /** At most one caller gets the channel: the entry goes with it. */
    method TakePending(packetID: u32) returns (channel: Option<nat>)
      modifies this`pending
      ensures channel == if packetID in old(pending) then Some(old(pending)[packetID]) else None
      ensures pending == old(pending) - {packetID}
    {
      channel := if packetID in pending then Some(pending[packetID]) else None;
      pending := pending - {packetID};
    }

    /** A call gets its packet id. In the window assumed, no call still open has the same one. */
    method Issue() returns (packetID: u32)
      requires Correlates() && C.WindowOpen(model)
      modifies this`nextPacketID, this`model
      ensures Correlates() && model == C.Do(old(model), C.Issue)
      ensures model.calls[|old(model).calls|].id == packetID
      ensures forall k :: 0 <= k < |old(model).calls| && C.Live(model.calls[k]) ==> model.calls[k].id != packetID
    {
      packetID := AllocateID();
      C.IssueKeeps(model);
      ghost var n := |model.calls|;
      model := C.Do(model, C.Issue);
      forall k | 0 <= k < n && C.Live(model.calls[k])
        ensures model.calls[k].id != packetID
      {
        C.DistinctIds(model, k, n);
      }
    }

    /** The call registers its channel, and takes over nobody's entry. */
    method Register(packetID: u32, channel: nat)
      requires Correlates() && C.Enabled(model, C.Register(channel)) && model.calls[channel].id == packetID
      modifies this`pending, this`model
      ensures Correlates() && model == C.Do(old(model), C.Register(channel))
      ensures packetID !in old(pending)
    {
      C.RegisterKeeps(model, channel);
      assert packetID !in pending by {
        if packetID in pending {
          C.DistinctIds(model, model.pending[packetID], channel);
        }
      }
      AddPending(packetID, channel);
      model := C.Do(model, C.Register(channel));
    }

    /** The deferred removal when a call returns: no other call loses its entry. */
    method Finish(packetID: u32, ghost channel: nat)
      requires Correlates() && C.Enabled(model, C.Finish(channel)) && model.calls[channel].id == packetID
      modifies this`pending, this`model
      ensures Correlates() && model == C.Do(old(model), C.Finish(channel))
      ensures forall id :: id in old(pending) && old(pending)[id] != channel ==>
                id in pending && pending[id] == old(pending)[id]
      ensures forall id :: id in pending ==> pending[id] != channel
    {
      C.FinishKeeps(model, channel);
      ghost var before := model;
      var taken := TakePending(packetID);
      model := C.Do(model, C.Finish(channel));
      forall id | id in before.pending && before.pending[id] != channel
        ensures id != packetID
      {
        C.DistinctIds(before, before.pending[id], channel);
      }
    }

    /** The dispatcher gets the channel of the one call that expects a response under this id, if any. */
    method Dispatch(packetID: u32) returns (channel: Option<nat>)
      requires Correlates() && C.Enabled(model, C.Arrive(packetID))
      modifies this`pending, this`model
      ensures Correlates() && model == C.Do(old(model), C.Arrive(packetID))
      ensures channel.None? <==> forall k: nat :: C.Expecting(old(model), k) ==> old(model).calls[k].id != packetID
      ensures channel.Some? ==>
                C.Expecting(old(model), channel.value) && old(model).calls[channel.value].id == packetID
                && old(model).calls[channel.value].slot.None?
    {
      C.ArriveKeeps(model, packetID);
      if packetID in model.pending {
        assert C.Expecting(model, model.pending[packetID]);
      }
      channel := TakePending(packetID);
      model := C.Do(model, C.Arrive(packetID));
    }

    method RegisterSession(s: Session)
      requires Valid()
      modifies this`sessions
      ensures Valid() && sessions == old(sessions)[s.sessionID := s]
    {
      sessions := sessions[s.sessionID := s];
    }

    method UnregisterSession(id: u32)
      requires Valid()
      modifies this`sessions
      ensures Valid() && sessions == old(sessions) - {id}
    {
      sessions := sessions - {id};
    }

    /**
     * A reopen that nothing interferes with. `order` is how the map happened to be iterated and
     * `answers` are the master agent's. A session that fails keeps none of the others from coming back.
     */
    method ReopenSessions(order: seq<Session>, answers: seq<Answer>) returns (reopened: nat)
      requires Valid() && NoDuplicates(order) && |answers| == |order|
      requires forall s :: s in order <==> s in sessions.Values
      modifies this`sessions, order
      ensures Valid()
      ensures var ids := old(NewIDs(order, answers));
              && sessions == TableAfter(order, ids, |order|)
              && reopened == CountReopened(ids, |order|)
              && (AllRouted(sessions, order, ids) <==> DistinctIDs(ids))
      ensures forall id :: id in sessions ==>
                exists i :: 0 <= i < |order| && sessions[id] == order[i] && answers[i].newID == Some(id)
                            && (order[i].registered ==> answers[i].accepted)
      ensures forall i :: 0 <= i < |order| ==> order[i].registered == old(order[i].registered)
      ensures forall i :: 0 <= i < |order| ==> order[i].sessionID == AssignedID(answers[i])
    {
      ghost var ids := NewIDs(order, answers);
      reopened := ReopenEach(order, answers);
      RoutedIffDistinct(order, ids);
    }

    /** The loop over the sessions taken off the table. */
    method ReopenEach(order: seq<Session>, answers: seq<Answer>) returns (reopened: nat)
      requires NoDuplicates(order) && |answers| == |order|
      modifies this`sessions, order
      ensures sessions == TableAfter(order, old(NewIDs(order, answers)), |order|)
      ensures reopened == CountReopened(old(NewIDs(order, answers)), |order|)
      ensures forall i :: 0 <= i < |order| ==> order[i].registered == old(order[i].registered)
      ensures forall i :: 0 <= i < |order| ==> order[i].sessionID == AssignedID(answers[i])
    {
      sessions := map[];
      reopened := 0;
      ghost var ids := NewIDs(order, answers);
      for i := 0 to |order|
        invariant forall j :: 0 <= j < |order| ==> order[j].registered == old(order[j].registered)
        invariant sessions == TableAfter(order, ids, i) && reopened == CountReopened(ids, i)
        invariant forall j :: 0 <= j < i ==> order[j].sessionID == AssignedID(answers[j])
      {
        var session := order[i];
        var ok := session.Reopen(answers[i]);
        if !ok {
          continue;
        }
        sessions := sessions[session.sessionID := session];
        reopened := reopened + 1;
      }
    }
  }
}
