/** Channel tables as the program updates them in place, beside the message store (bus/channels.go). */
module ChannelStores {
  import opened Model
  import opened Scopes
  import opened Sweeps
  import opened Stores
  import Channels

  /** A refused notice decides the whole fan-out. */
  lemma {:induction false} RefusedPrefix(s: Scope, author: Participant, name: string, rows: seq<Id>, n: nat, world: World)
    requires n <= |rows| && Channels.FanOut(s, author, name, rows[..n], world).result.Refused?
    ensures Channels.FanOut(s, author, name, rows, world).result == Channels.FanOut(s, author, name, rows[..n], world).result
    decreases |rows|
  {
    hide SendIn;
    if n == |rows| {
      assert rows[..n] == rows;
    } else {
      assert rows[..|rows| - 1][..n] == rows[..n];
      RefusedPrefix(s, author, name, rows[..|rows| - 1], n, world);
    }
  }

  /** One more notice. */
  lemma FanOutNext(s: Scope, author: Participant, name: string, rows: seq<Id>, i: nat, world: World)
    requires i < |rows| && Channels.FanOut(s, author, name, rows[..i], world).result.Ok?
    ensures var before := Channels.FanOut(s, author, name, rows[..i], world);
            var sent := SendIn(before.scope, author, Channels.Notice(rows[i], name), true, i + 2, i + 1, world);
            Channels.FanOut(s, author, name, rows[..i + 1], world)
            == if sent.result.Refused? then Outcome(s, Refused(sent.result.error)) else Outcome(sent.scope, Ok(i + 1))
  {
    hide SendIn, Channels.Notice;
    assert rows[..i + 1][..i] == rows[..i];
  }

  class ChannelStore {
    const store: Store
    var channels: map<Id, Channels.Channel>
    var subscriptions: map<Channels.Subscription, Time>
    var posts: map<Id, Channels.Post>
    var minted: set<Id>

    function State(): Channels.Hub
      reads this, store
    {
      Channels.Hub(store.Db(), channels, subscriptions, posts, minted)
    }

    constructor (store: Store)
      ensures this.store == store && State() == Channels.Hub(store.Db(), map[], map[], map[], {})
    {
      this.store := store;
      channels, subscriptions, posts, minted := map[], map[], map[], {};
    }

    method CreateChannel(author: Channels.Author, name: string, description: string, world: World) returns (result: Result<Id>)
      modifies this, store
      ensures (State(), result) == Channels.CreateChannel(old(State()), author, name, description, world)
    {
      hide Emit, Channels.MayAct, Channels.Named;
      if !Channels.MayAct(State(), author, world.tick(0)) {
        return Refused(Unauthenticated);
      }
      if Channels.Named(State(), name) != {} {
        return Refused(Conflict);
      }
      if |channels| >= Channels.CHANNEL_CAP {
        return Refused(Backpressure);
      }
      var id, now := world.mint(0), world.tick(1);
      channels := channels[id := Channels.Channel(name, description, now)];
      minted := minted + {id};
      store.AppendEvent(ChannelCreated, ChannelSubject(id), Unstated, now);
      result := Ok(id);
    }

    method SubscribeChannel(caller: Caller, channel: Id, wanted: bool, world: World) returns (result: Result<bool>)
      modifies this`subscriptions
      ensures (State(), result) == Channels.Subscribe(old(State()), caller, channel, wanted, world)
    {
      hide Current;
      var sub := Channels.Subscription(channel, caller.agent);
      if !Current(store.Db(), caller, world.tick(0)) {
        return Refused(Unauthenticated);
      }
      if channel !in channels {
        return Refused(NotFound);
      }
      if !wanted {
        subscriptions := subscriptions - {sub};
        return Ok(false);
      }
      if sub in subscriptions {
        return Ok(true);
      }
      if |Channels.Subscribers(subscriptions, channel)| >= Channels.SUBSCRIBER_CAP {
        return Refused(Backpressure);
      }
      subscriptions := subscriptions[sub := world.tick(1)];
      result := Ok(true);
    }

    /** The notices, one after another; the transaction is rolled back at the first that is refused. */
    method Notify(author: Participant, name: string, rows: seq<Id>, world: World) returns (result: Result<nat>)
      modifies store
      ensures Outcome(store.Db(), result) == Channels.FanOut(old(store.Db()), author, name, rows, world)
    {
      hide SendIn, Channels.FanOut, Channels.Notice;
      var saved := store.Db();
      assert rows[..0] == [];
      FanOutNothing(saved, author, name, world);
      for i := 0 to |rows|
        invariant Outcome(store.Db(), Ok(i)) == Channels.FanOut(saved, author, name, rows[..i], world)
      {
        FanOutNext(saved, author, name, rows, i, world);
        var sent := store.Send(author, Channels.Notice(rows[i], name), true, i + 2, i + 1, world);
        if sent.Refused? {
          RefusedPrefix(saved, author, name, rows, i + 1, world);
          Channels.FanOutStops(saved, author, name, rows, world);
          store.Rollback(saved);
          return Refused(sent.error);
        }
      }
      assert rows[..|rows|] == rows;
      result := Ok(|rows|);
    }

    /** bus/channels.go PostChannel. */
    method PostChannel(author: Channels.Author, input: Channels.PostInput, world: World) returns (result: Result<Id>)
      modifies this, store
      ensures (State(), result) == Channels.PostChannel(old(State()), author, input, world)
    {
      hide Emit, Channels.PostError, Channels.FanOut, Channels.Earlier, Channels.AudienceRows, Channels.PostOf, Channels.ContentOf, Channels.Signature;
      var sender := Channels.Signature(author);
      var error := Channels.PostError(State(), author, input, world);
      if error.Some? {
        return Refused(error.value);
      }
      var earlier := Channels.Earlier(State(), sender, input, world);
      if earlier.Some? {
        if earlier.value in posts && posts[earlier.value].hash == Channels.ContentOf(input) {
          return Ok(earlier.value);
        }
        return Refused(Conflict);
      }
      if |posts| >= Channels.POST_CAP {
        return Refused(Backpressure);
      }
      var id, now := world.mint(0), world.tick(1);
      var rows := Channels.AudienceRows(State(), input.channel, sender, world);
      var sent := Notify(sender, channels[input.channel].name, rows, world);
      if sent.Refused? {
        Channels.FanOutStops(old(store.Db()), sender, channels[input.channel].name, rows, world);
        return Refused(sent.error);
      }
      posts := posts[id := Channels.PostOf(sender, input, now)];
      minted := minted + {id};
      store.AppendEvent(ChannelPosted, PostSubject(id), Unstated, now);
      result := Ok(id);
    }
  }

  lemma FanOutNothing(s: Scope, author: Participant, name: string, world: World)
    ensures Channels.FanOut(s, author, name, [], world) == Outcome(s, Ok(0))
  {
  }
}
