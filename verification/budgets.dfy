/** Remote principals stay within their budgets, whatever else happens in the scope. */
module Budgets {
  import opened Model
  import opened Logs
  import opened Scopes
  import opened RemoteWork
  import opened Totals
  import opened Invariants
  import opened InboxSteps
  import opened RemoteSteps

  ghost predicate WithinBudget(s: Scope, limits: Limits) {
    && (forall principal :: |UnfinishedWork(s, principal)| <= limits.messages)
    && (forall principal :: Bytes(s.messages, UnfinishedWork(s, principal)) <= limits.bytes)
    && |RemoteBacklog(s)| <= REMOTE_BACKLOG
    && Bytes(s.messages, RemoteBacklog(s)) <= REMOTE_BYTES
  }

  /** The remote requests of a later scope are among the earlier ones, but for `added`. */
  ghost predicate NoWorkBut(s: Scope, t: Scope, added: set<Id>) {
    t.correlations.Keys <= s.correlations.Keys + added
  }

  lemma UnfinishedShrinks(s: Scope, t: Scope, added: set<Id>, principal: Id)
    requires Inv(s) && Inv(t) && Evolves(s, t) && NoWorkBut(s, t, added)
    ensures UnfinishedWork(t, principal) <= UnfinishedWork(s, principal) + added
  {
    hide Core, Threads;
    forall id | id in UnfinishedWork(t, principal) && id !in added ensures id in UnfinishedWork(s, principal) {
      assert CorrelationRow(s, id) && CorrelationRow(t, id);
      var task := s.correlations[id].task;
      assert RemoteEvolved(s.remoteTasks[task], t.remoteTasks[task]);
    }
  }

  lemma BacklogShrinks(s: Scope, t: Scope, added: set<Id>)
    requires Inv(s) && Inv(t) && Evolves(s, t) && NoWorkBut(s, t, added)
    ensures RemoteBacklog(t) <= RemoteBacklog(s) + added
  {
    hide Core, Threads;
    forall id | id in RemoteBacklog(t) && id !in added ensures id in RemoteBacklog(s) {
      assert id in t.correlations;
      assert CorrelationRow(s, id);
      assert MessageEvolved(s.messages[id], t.messages[id]);
    }
  }

  /** The total of a set with at most one element. */
  lemma AtMostOne(weight: Id -> nat, ids: set<Id>, added: set<Id>, size: nat)
    requires ids <= added && |added| <= 1 && forall id :: id in added ==> weight(id) == size
    ensures Total(weight, ids) <= if added == {} then 0 else size
  {
    if ids != {} {
      var id :| id in ids;
      assert added == {id} + (added - {id});
      assert |added - {id}| == 0;
      assert ids - {id} == {};
      TotalWithout(weight, ids, id);
    }
  }

  lemma BodiesStay(s: Scope, t: Scope, ids: set<Id>)
    requires Evolves(s, t) && ids <= s.messages.Keys && ids <= t.messages.Keys
    ensures forall id :: id in ids ==> BodySize(t.messages)(id) == BodySize(s.messages)(id)
  {
    forall id | id in ids ensures BodySize(t.messages)(id) == BodySize(s.messages)(id) {
      assert MessageEvolved(s.messages[id], t.messages[id]);
    }
  }

  /** Bodies never change, so what is left of a set of messages takes no more room. */
  lemma RoomFor(s: Scope, t: Scope, before: set<Id>, after: set<Id>, added: set<Id>, body: nat)
    requires Evolves(s, t) && after <= before + added && before <= s.messages.Keys && after <= t.messages.Keys
    requires |added| <= 1 && forall id :: id in added ==> id in t.messages && |t.messages[id].body| == body
    ensures |after| <= |before| + |added|
    ensures Bytes(t.messages, after) <= Bytes(s.messages, before) + (if added == {} then 0 else body)
  {
    hide Evolves, Total;
    var kept, extra := after * before, after - before;
    assert after == kept + extra && extra <= added;
    SizeGrows(kept, before);
    SizeGrows(extra, added);
    BodiesStay(s, t, kept);
    TotalAdds(BodySize(t.messages), kept, extra);
    TotalGrows(BodySize(t.messages), kept, BodySize(s.messages), before);
    AtMostOne(BodySize(t.messages), extra, added, body);
  }

  /** Without a new remote message, budgets hold on. */
  lemma BudgetKept(s: Scope, t: Scope, limits: Limits)
    requires Inv(s) && Keeps(s, t) && WithinBudget(s, limits)
    ensures WithinBudget(t, limits)
  {
    hide Inv, Evolves, Bytes, UnfinishedWork, RemoteBacklog;
    KeptIsInv(s, t);
    forall principal ensures |UnfinishedWork(t, principal)| <= limits.messages && Bytes(t.messages, UnfinishedWork(t, principal)) <= limits.bytes {
      UnfinishedShrinks(s, t, {}, principal);
      OnMessages(s, principal);
      OnMessages(t, principal);
      RoomFor(s, t, UnfinishedWork(s, principal), UnfinishedWork(t, principal), {}, 0);
    }
    BacklogShrinks(s, t, {});
    OnMessages(s, 0);
    OnMessages(t, 0);
    RoomFor(s, t, RemoteBacklog(s), RemoteBacklog(t), {}, 0);
  }

  lemma OnMessages(s: Scope, principal: Id)
    ensures UnfinishedWork(s, principal) <= s.messages.Keys && RemoteBacklog(s) <= s.messages.Keys
  {
  }

  /** Another principal's work does not grow when one principal's message is accepted. */
  lemma OthersShrink(s: Scope, t: Scope, caller: RemoteCaller, input: AcceptInput, id: Id, principal: Id)
    requires Inv(s) && Inv(t) && Evolves(s, t) && Accepts(s, t, caller, input, id) && principal != caller.principal
    ensures UnfinishedWork(t, principal) <= UnfinishedWork(s, principal)
  {
    hide Inv, Evolves;
    UnfinishedShrinks(s, t, {id}, principal);
  }

  /** An accepted remote message fits the budgets that were checked before it. */
  lemma BudgetWithOneMore(s: Scope, t: Scope, caller: RemoteCaller, input: AcceptInput, id: Id, limits: Limits)
    requires Inv(s) && Inv(t) && Evolves(s, t) && Accepts(s, t, caller, input, id) && WithinBudget(s, limits)
    requires !OverBudget(s, caller, limits, |input.body|)
    ensures WithinBudget(t, limits)
  {
    hide Inv, Evolves, Bytes, UnfinishedWork, RemoteBacklog;
    var size := |input.body|;
    forall principal ensures |UnfinishedWork(t, principal)| <= limits.messages && Bytes(t.messages, UnfinishedWork(t, principal)) <= limits.bytes {
      OnMessages(s, principal);
      OnMessages(t, principal);
      if principal == caller.principal {
        UnfinishedShrinks(s, t, {id}, principal);
        RoomFor(s, t, UnfinishedWork(s, principal), UnfinishedWork(t, principal), {id}, size);
      } else {
        OthersShrink(s, t, caller, input, id, principal);
        RoomFor(s, t, UnfinishedWork(s, principal), UnfinishedWork(t, principal), {}, 0);
      }
    }
    BacklogShrinks(s, t, {id});
    OnMessages(s, 0);
    OnMessages(t, 0);
    RoomFor(s, t, RemoteBacklog(s), RemoteBacklog(t), {id}, size);
  }

  /** Accepting remote work never takes a scope over its budgets. */
  lemma AcceptKeepsBudget(s: Scope, caller: RemoteCaller, limits: Limits, input: AcceptInput, world: World)
    requires Inv(s) && Fair(world, s.clock, s.issued) && WithinBudget(s, limits)
    ensures WithinBudget(AcceptMessage(s, caller, limits, input, world).scope, limits)
  {
    hide Inv, Evolves, AcceptMessage, Expire, WithinBudget, Keeps, OverBudget, Accepts;
    var t := AcceptMessage(s, caller, limits, input, world).scope;
    AcceptMessageKeeps(s, caller, limits, input, world);
    if Keeps(s, t) {
      BudgetKept(s, t, limits);
    } else {
      var s1 := Expire(s, world.tick(0), world);
      ExpireAlone(s, world.tick(0), world);
      KeptIsInv(s, s1);
      BudgetKept(s, s1, limits);
      BudgetWithOneMore(s1, t, caller, input, world.mint(2), limits);
    }
  }

  /** The half of the backlog that remote principals may use leaves the other half to the scope's own
      agents and humans: a send is refused for the backlog only when that half is full. */
  lemma LocalRefusalMeansLocalBacklog(s: Scope, limits: Limits)
    requires WithinBudget(s, limits) && |Backlog(s)| >= BACKLOG_CAP
    ensures |Backlog(s) - RemoteBacklog(s)| >= 5_000
  {
    assert Backlog(s) == (Backlog(s) - RemoteBacklog(s)) + RemoteBacklog(s);
  }
}
