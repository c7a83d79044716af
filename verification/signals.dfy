/** The in-process signals of long polls: bus/inbox_wait.go. A number stands for the identity of a channel. */
module Signals {
  import opened Model
  import opened Totals

  datatype Key = Key(scope: Id, consumer: Id)

  /** A mapped channel and how many wait on it. */
  datatype Signal = Signal(channel: nat, waiters: nat)

  /** What a subscriber holds: its key, its channel, and whether it has unsubscribed. */
  datatype Ticket = Ticket(key: Key, channel: nat, done: bool)

  datatype Signals = Signals(channels: map<Key, Signal>, closed: set<nat>, next: nat, tickets: seq<Ticket>)

  const NO_SIGNALS := Signals(map[], {}, 0, [])

  /** The subscriptions to a channel that have not ended. */
  function Waiting(s: Signals, channel: nat): set<nat> {
    set i | 0 <= i < |s.tickets| && !s.tickets[i].done && s.tickets[i].channel == channel
  }

  /** Every mapped channel is open, is mapped once, and counts exactly its live subscriptions. */
  ghost predicate Counted(s: Signals) {
    && (forall k :: k in s.channels ==> s.channels[k].channel < s.next && s.channels[k].channel !in s.closed)
    && (forall k :: k in s.channels ==> s.channels[k].waiters == |Waiting(s, s.channels[k].channel)| > 0)
    && (forall k, l :: k in s.channels && l in s.channels && s.channels[k].channel == s.channels[l].channel ==> k == l)
    && (forall c :: c in s.closed ==> c < s.next)
  }

  /** Whoever still waits on an open channel waits on the one that is mapped under its key. */
  ghost predicate Mapped(s: Signals) {
    && (forall i :: 0 <= i < |s.tickets| ==> s.tickets[i].channel < s.next)
    && (forall i, k :: 0 <= i < |s.tickets| && k in s.channels && s.tickets[i].channel == s.channels[k].channel ==> k == s.tickets[i].key)
    && (forall i :: 0 <= i < |s.tickets| && !s.tickets[i].done ==> Woken(s, s.tickets[i]) || Waits(s, s.tickets[i]))
  }

  predicate Woken(s: Signals, t: Ticket) {
    t.channel in s.closed
  }

  predicate Waits(s: Signals, t: Ticket) {
    t.key in s.channels && s.channels[t.key].channel == t.channel
  }

  ghost predicate Valid(s: Signals) {
    Counted(s) && Mapped(s)
  }

  // ---- the operations on values --------------------------------------------------------------

  /** The mapped signal of a key, or a new one that nobody waits on yet. */
  function SignalFor(s: Signals, key: Key): Signal {
    if key in s.channels then s.channels[key] else Signal(s.next, 0)
  }

  predicate Full(s: Signals, key: Key, limit: nat) {
    limit > 0 && SignalFor(s, key).waiters >= limit
  }

  /** The new ticket is the last one. */
  function Subscribed(s: Signals, key: Key): Signals {
    var signal := SignalFor(s, key);
    Signals(s.channels[key := signal.(waiters := signal.waiters + 1)], s.closed, if key in s.channels then s.next else s.next + 1,
            s.tickets + [Ticket(key, signal.channel, false)])
  }

  function Unsubscribed(s: Signals, i: nat): Signals
    requires i < |s.tickets|
  {
    var t := s.tickets[i];
    var s1 := s.(tickets := s.tickets[i := t.(done := true)]);
    if t.done || !Waits(s, t) then s1
    else if s.channels[t.key].waiters <= 1 then s1.(channels := s.channels - {t.key})
    else s1.(channels := s.channels[t.key := s.channels[t.key].(waiters := s.channels[t.key].waiters - 1)])
  }

  function Notified(s: Signals, key: Key): Signals {
    if key in s.channels then s.(channels := s.channels - {key}, closed := s.closed + {s.channels[key].channel}) else s
  }

  function InScope(s: Signals, scope: Id): set<Key> {
    set k | k in s.channels && k.scope == scope
  }

  function NotifiedScope(s: Signals, scope: Id): Signals {
    s.(channels := s.channels - InScope(s, scope), closed := s.closed + set k | k in InScope(s, scope) :: s.channels[k].channel)
  }

  // ---- they keep the counts ------------------------------------------------------------------

  lemma SubscribedIsValid(s: Signals, key: Key)
    requires Valid(s)
    ensures Valid(Subscribed(s, key))
  {
    MappedMore(s, key);
    CountedMore(s, key);
  }

  /** A new ticket waits on its own channel and on no other. */
  lemma WaitingMore(s: Signals, key: Key, channel: nat)
    ensures Waiting(Subscribed(s, key), channel) == Waiting(s, channel) + if channel == SignalFor(s, key).channel then {|s.tickets|} else {}
  {
  }

  lemma NobodyWaits(s: Signals)
    requires Valid(s)
    ensures Waiting(s, s.next) == {}
  {
  }

  lemma CountedMore(s: Signals, key: Key)
    requires Valid(s)
    ensures Counted(Subscribed(s, key))
  {
    hide Mapped, Waiting;
    var t, channel := Subscribed(s, key), SignalFor(s, key).channel;
    NobodyWaits(s);
    forall k | k in t.channels ensures t.channels[k].waiters == |Waiting(t, t.channels[k].channel)| > 0 {
      WaitingMore(s, key, t.channels[k].channel);
      NotYet(s, t.channels[k].channel);
    }
  }

  lemma NotYet(s: Signals, channel: nat)
    ensures |s.tickets| !in Waiting(s, channel)
  {
  }

  lemma MappedMore(s: Signals, key: Key)
    requires Valid(s)
    ensures Mapped(Subscribed(s, key))
  {
    var t := Subscribed(s, key);
    assert forall i :: 0 <= i < |s.tickets| ==> t.tickets[i] == s.tickets[i];
    forall i | 0 <= i < |t.tickets| && !t.tickets[i].done ensures Woken(t, t.tickets[i]) || Waits(t, t.tickets[i]) {
      if i < |s.tickets| {
        assert Woken(s, s.tickets[i]) || Waits(s, s.tickets[i]);
      }
    }
  }

  lemma UnsubscribedLive(s: Signals, i: nat, channel: nat)
    requires i < |s.tickets|
    ensures Waiting(s.(tickets := s.tickets[i := s.tickets[i].(done := true)]), channel) == Waiting(s, channel) - {i}
  {
  }

  /** A channel that the ticket does not wait on keeps its subscriptions. */
  lemma UnsubscribedOther(s: Signals, i: nat, k: Key)
    requires Valid(s) && i < |s.tickets| && k in s.channels
    requires s.tickets[i].done || !Waits(s, s.tickets[i]) || k != s.tickets[i].key
    ensures Waiting(Unsubscribed(s, i), s.channels[k].channel) == Waiting(s, s.channels[k].channel)
  {
    hide Counted;
    UnsubscribedLive(s, i, s.channels[k].channel);
    SameTickets(s, i);
    assert i !in Waiting(s, s.channels[k].channel);
    LiveByTickets(Unsubscribed(s, i), s.(tickets := s.tickets[i := s.tickets[i].(done := true)]), s.channels[k].channel);
  }

  lemma SameTickets(s: Signals, i: nat)
    requires i < |s.tickets|
    ensures Unsubscribed(s, i).tickets == s.tickets[i := s.tickets[i].(done := true)]
  {
  }

  lemma LiveByTickets(s: Signals, t: Signals, channel: nat)
    requires s.tickets == t.tickets
    ensures Waiting(s, channel) == Waiting(t, channel)
  {
  }

  lemma UnsubscribedOwn(s: Signals, i: nat)
    requires Valid(s) && i < |s.tickets| && !s.tickets[i].done && Waits(s, s.tickets[i])
    ensures var channel := s.tickets[i].channel;
            |Waiting(Unsubscribed(s, i), channel)| == |Waiting(s, channel)| - 1 && s.channels[s.tickets[i].key].waiters == |Waiting(s, channel)| > 0
  {
    hide Mapped;
    var channel := s.tickets[i].channel;
    UnsubscribedLive(s, i, channel);
    SameTickets(s, i);
    LiveByTickets(Unsubscribed(s, i), s.(tickets := s.tickets[i := s.tickets[i].(done := true)]), channel);
    assert i in Waiting(s, channel);
  }

  lemma UnsubscribedCounts(s: Signals, i: nat)
    requires Valid(s) && i < |s.tickets|
    ensures Counted(Unsubscribed(s, i))
  {
    hide Waiting, Mapped;
    var t, mine := Unsubscribed(s, i), s.tickets[i];
    forall k | k in t.channels ensures t.channels[k].waiters == |Waiting(t, t.channels[k].channel)| > 0 {
      if !mine.done && Waits(s, mine) && k == mine.key {
        UnsubscribedOwn(s, i);
      } else {
        UnsubscribedOther(s, i, k);
      }
    }
  }

  lemma UnsubscribedMaps(s: Signals, i: nat)
    requires Valid(s) && i < |s.tickets|
    ensures Mapped(Unsubscribed(s, i))
  {
    var t, mine := Unsubscribed(s, i), s.tickets[i];
    forall j | 0 <= j < |t.tickets| && !t.tickets[j].done ensures Woken(t, t.tickets[j]) || Waits(t, t.tickets[j]) {
      assert j != i && t.tickets[j] == s.tickets[j];
      assert Woken(s, s.tickets[j]) || Waits(s, s.tickets[j]);
      if !mine.done && Waits(s, mine) && s.channels[mine.key].waiters <= 1 && s.tickets[j].key == mine.key && !Woken(s, s.tickets[j]) {
        SizeOfTwo(Waiting(s, mine.channel), i, j);
      }
    }
  }

  lemma SizeOfTwo(ids: set<nat>, i: nat, j: nat)
    requires i in ids && j in ids && i != j
    ensures |ids| >= 2
  {
    assert ids == (ids - {i} - {j}) + {i} + {j};
  }

  lemma UnsubscribedIsValid(s: Signals, i: nat)
    requires Valid(s) && i < |s.tickets|
    ensures Valid(Unsubscribed(s, i))
  {
    UnsubscribedCounts(s, i);
    UnsubscribedMaps(s, i);
  }

  lemma NotifiedIsValid(s: Signals, key: Key)
    requires Valid(s)
    ensures Valid(Notified(s, key))
    ensures key in s.channels ==> s.channels[key].channel !in s.closed
    ensures forall i :: 0 <= i < |s.tickets| && !s.tickets[i].done && s.tickets[i].key == key ==> Woken(Notified(s, key), s.tickets[i])
  {
    var t := Notified(s, key);
    forall k | k in t.channels ensures Waiting(t, t.channels[k].channel) == Waiting(s, s.channels[k].channel) {
    }
    forall i | 0 <= i < |s.tickets| && !s.tickets[i].done ensures Woken(t, t.tickets[i]) || Waits(t, t.tickets[i]) {
      assert Woken(s, s.tickets[i]) || Waits(s, s.tickets[i]);
    }
  }

  /** Waking a whole scope wakes whoever waits in it, and leaves the rest as they were. */
  lemma NotifiedScopeIsValid(s: Signals, scope: Id)
    requires Valid(s)
    ensures Valid(NotifiedScope(s, scope))
    ensures NotifiedScope(s, scope).tickets == s.tickets && s.closed <= NotifiedScope(s, scope).closed
    ensures forall i :: 0 <= i < |s.tickets| && !s.tickets[i].done && s.tickets[i].key.scope == scope ==> Woken(NotifiedScope(s, scope), s.tickets[i])
  {
    hide Waiting;
    var t := NotifiedScope(s, scope);
    forall i | 0 <= i < |s.tickets| && !s.tickets[i].done ensures Woken(t, s.tickets[i]) || (s.tickets[i].key.scope != scope && Waits(t, s.tickets[i])) {
      assert Woken(s, s.tickets[i]) || Waits(s, s.tickets[i]);
      if Waits(s, s.tickets[i]) && s.tickets[i].key.scope == scope {
        assert s.tickets[i].key in InScope(s, scope);
      }
    }
    forall k | k in t.channels ensures t.channels[k].waiters == |Waiting(t, t.channels[k].channel)| > 0 {
      LiveByTickets(s, t, s.channels[k].channel);
    }
  }

  // ---- the registry --------------------------------------------------------------------------

  /** The mutex-guarded map. Each method is one critical section. */
  class Registry {
    var channels: map<Key, Signal>
    ghost var closed: set<nat>
    var next: nat
    ghost var tickets: seq<Ticket>

    ghost function State(): Signals
      reads this
    {
      Signals(channels, closed, next, tickets)
    }

    constructor ()
      ensures State() == NO_SIGNALS && Valid(State())
    {
      channels, next := map[], 0;
      closed, tickets := {}, [];
      new;
      assert forall c :: Waiting(NO_SIGNALS, c) == {};
    }

    /** Closing a channel twice is a run-time panic. */
    ghost method Close(channel: nat)
      requires channel !in closed
      modifies this`closed
      ensures closed == old(closed) + {channel}
    {
      closed := closed + {channel};
    }

    /** bus/inbox_wait.go subscribeLimited; a limit of zero means none. */
    method Subscribe(key: Key, limit: nat) returns (channel: nat, ghost ticket: nat, ok: bool)
      requires Valid(State())
      modifies this
      ensures Valid(State())
      ensures ok <==> !Full(old(State()), key, limit)
      ensures !ok ==> State() == old(State())
      ensures ok ==> State() == Subscribed(old(State()), key) && ticket == |old(tickets)| && channel == tickets[ticket].channel
    {
      hide Valid;
      SubscribedIsValid(State(), key);
      ticket := |tickets|;
      channel := 0;
      var signal := if key in channels then channels[key] else Signal(next, 0);
      if limit > 0 && signal.waiters >= limit {
        return 0, ticket, false;
      }
      if key !in channels {
        next := next + 1;
      }
      channels := channels[key := signal.(waiters := signal.waiters + 1)];
      tickets := tickets + [Ticket(key, signal.channel, false)];
      channel, ok := signal.channel, true;
    }

    /** The function a subscriber calls once it stops waiting; a second call changes nothing. */
    method Unsubscribe(key: Key, channel: nat, done: bool, ghost ticket: nat)
      requires Valid(State()) && ticket < |tickets| && tickets[ticket] == Ticket(key, channel, done)
      modifies this
      ensures Valid(State()) && State() == Unsubscribed(old(State()), ticket) && (done ==> State() == old(State()))
    {
      hide Valid;
      UnsubscribedIsValid(State(), ticket);
      tickets := tickets[ticket := Ticket(key, channel, true)];
      if done || key !in channels || channels[key].channel != channel {
        return;
      }
      if channels[key].waiters <= 1 {
        channels := channels - {key};
      } else {
        channels := channels[key := channels[key].(waiters := channels[key].waiters - 1)];
      }
    }

    /** Wakes everyone who waits under a key: the channel is closed, once, and forgotten. */
    method Notify(key: Key)
      requires Valid(State())
      modifies this
      ensures Valid(State()) && State() == Notified(old(State()), key)
      ensures forall i :: 0 <= i < |tickets| && !tickets[i].done && tickets[i].key == key ==> Woken(State(), tickets[i])
    {
      NotifiedIsValid(State(), key);
      if key in channels {
        Close(channels[key].channel);
        channels := channels - {key};
      }
    }

    /** Wakes everyone in a scope. */
    method NotifyAllScope(scope: Id)
      requires Valid(State())
      modifies this
      ensures Valid(State()) && State() == NotifiedScope(old(State()), scope)
      ensures forall i :: 0 <= i < |tickets| && !tickets[i].done && tickets[i].key.scope == scope ==> Woken(State(), tickets[i])
    {
      hide Valid, NotifiedAll, Notified, NotifiedScope, Woken;
      ghost var s := State();
      NotifiedScopeIsValid(s, scope);
      var rest := set k | k in channels && k.scope == scope;
      ghost var gone: set<Key> := {};
      NotifiedNone(s);
      while rest != {}
        invariant Valid(State()) && rest + gone == InScope(s, scope) && rest !! gone
        invariant State() == NotifiedAll(s, gone)
        decreases |rest|
      {
        var key :| key in rest;
        NotifiedOneMore(s, gone, key);
        Notify(key);
        rest, gone := rest - {key}, gone + {key};
      }
      assert gone == InScope(s, scope);
      NotifiedIsScope(s, scope);
    }
  }

  // ---- notifying several keys ----------------------------------------------------------------

  ghost function NotifiedAll(s: Signals, keys: set<Key>): Signals {
    s.(channels := s.channels - keys, closed := s.closed + set k | k in keys && k in s.channels :: s.channels[k].channel)
  }

  lemma NotifiedNone(s: Signals)
    ensures NotifiedAll(s, {}) == s
  {
    assert s.channels - {} == s.channels;
  }

  lemma NotifiedOneMore(s: Signals, gone: set<Key>, key: Key)
    requires key in s.channels && key !in gone
    ensures Notified(NotifiedAll(s, gone), key) == NotifiedAll(s, gone + {key})
  {
    assert s.channels - gone - {key} == s.channels - (gone + {key});
    var a := set k | k in gone && k in s.channels :: s.channels[k].channel;
    var b := set k | k in gone + {key} && k in s.channels :: s.channels[k].channel;
    assert b == a + {s.channels[key].channel};
    assert s.closed + a + {s.channels[key].channel} == s.closed + b;
  }

  lemma NotifiedIsScope(s: Signals, scope: Id)
    ensures NotifiedAll(s, InScope(s, scope)) == NotifiedScope(s, scope)
  {
    assert (set k | k in InScope(s, scope) && k in s.channels :: s.channels[k].channel) == (set k | k in InScope(s, scope) :: s.channels[k].channel);
  }
}
