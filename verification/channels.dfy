/** Channels beside the message store: posts with their notices, threads, keyed retries and retention
    (bus/channels.go, bus/channels_archive.go). */
module Channels {
  import opened Model
  import opened Logs
  import opened Scopes
  import opened RemoteWork
  import opened Invariants
  import opened Sweeps
  import opened InboxSteps
  import opened SendSteps
  import opened ExecutionSteps
  import opened Pruning
  import opened Runs

  const CHANNEL_CAP: nat := 100
  const SUBSCRIBER_CAP: nat := 128
  const POST_CAP: nat := 65536
  const WEEK: nat := 604_800_000

  datatype Channel = Channel(name: string, description: string, createdAt: Time)
  datatype Subscription = Subscription(channel: Id, agent: Id)

  /** The content that identifies a post; as with messages, the digest is the tuple it digests. */
  datatype Content = Content(channel: Id, body: string, thread: Option<Id>)
  datatype Post = Post(
    channel: Id, author: Participant, body: string, thread: Option<Id>, key: Option<Id>, hash: Content, createdAt: Time)

  /** A scope together with its channel tables. `minted` is a history variable: the identifiers of channels and posts. */
  datatype Hub = Hub(
    scope: Scope, channels: map<Id, Channel>, subscriptions: map<Subscription, Time>, posts: map<Id, Post>, minted: set<Id>)

  /** A post is signed by a current execution or by a member of the workspace. */
  datatype Author = Session(caller: Caller) | Member(human: Id)

  function Signature(author: Author): Participant {
    match author
    case Session(caller) => Address(caller.agent)
    case Member(human) => Participant(HumanKind, human)
  }

  predicate MayAct(h: Hub, author: Author, now: Time) {
    author.Session? ==> Current(h.scope, author.caller, now)
  }

  // ---- the operations ------------------------------------------------------------------------

  function Named(h: Hub, name: string): set<Id> {
    set id | id in h.channels && h.channels[id].name == name
  }

  /** bus/channels.go CreateChannel. */
  function CreateChannel(h: Hub, author: Author, name: string, description: string, world: World): (Hub, Result<Id>) {
    if !MayAct(h, author, world.tick(0)) then (h, Refused(Unauthenticated))
    else if Named(h, name) != {} then (h, Refused(Conflict))
    else if |h.channels| >= CHANNEL_CAP then (h, Refused(Backpressure))
    else
      var id, now := world.mint(0), world.tick(1);
      (h.(channels := h.channels[id := Channel(name, description, now)], minted := h.minted + {id},
          scope := Emit(h.scope, ChannelCreated, ChannelSubject(id), Unstated, now)), Ok(id))
  }

  function Subscribers(subscriptions: map<Subscription, Time>, channel: Id): set<Id> {
    set sub | sub in subscriptions && sub.channel == channel :: sub.agent
  }

  /** bus/channels.go SubscribeChannel. */
  function Subscribe(h: Hub, caller: Caller, channel: Id, wanted: bool, world: World): (Hub, Result<bool>) {
    var sub := Subscription(channel, caller.agent);
    if !Current(h.scope, caller, world.tick(0)) then (h, Refused(Unauthenticated))
    else if channel !in h.channels then (h, Refused(NotFound))
    else if !wanted then (h.(subscriptions := h.subscriptions - {sub}), Ok(false))
    else if sub in h.subscriptions then (h, Ok(true))
    else if |Subscribers(h.subscriptions, channel)| >= SUBSCRIBER_CAP then (h, Refused(Backpressure))
    else (h.(subscriptions := h.subscriptions[sub := world.tick(1)]), Ok(true))
  }

  datatype PostInput = PostInput(channel: Id, body: string, thread: Option<Id>, key: Option<Id>)

  function ContentOf(input: PostInput): Content {
    Content(input.channel, input.body, input.thread)
  }

  /** A reply goes to the root of a thread of the same channel. */
  function ThreadError(h: Hub, input: PostInput): Option<ErrorCode> {
    if input.thread.None? then None
    else if input.thread.value !in h.posts || h.posts[input.thread.value].channel != input.channel then Some(NotFound)
    else if h.posts[input.thread.value].thread.Some? then Some(InvalidArgument)
    else None
  }

  function KeyedPosts(h: Hub, author: Participant, key: Id): set<Id> {
    set id | id in h.posts && h.posts[id].author == author && h.posts[id].key == Some(key)
  }

  function Earlier(h: Hub, author: Participant, input: PostInput, world: World): Option<Id> {
    if input.key.None? || |world.order(KeyedPosts(h, author, input.key.value))| == 0 then None
    else Some(world.order(KeyedPosts(h, author, input.key.value))[0])
  }

  /** Everyone who follows the channel, but for the author. */
  function Audience(h: Hub, channel: Id, author: Participant): set<Id> {
    set agent | agent in Subscribers(h.subscriptions, channel) && Address(agent) != author
  }

  /** ORDER BY agent_id. */
  function AudienceRows(h: Hub, channel: Id, author: Participant, world: World): seq<Id> {
    SortBy(world.order(Audience(h, channel, author)), ById())
  }

  /** A notice names the channel; the rest of its text is the same for every post but for the identifiers. */
  function NoticeBody(name: string): string {
    "New post in #" + name
  }

  function Notice(target: Id, name: string): SendInput {
    SendInput(target, NoticeBody(name), Some(Notify), None, WEEK, "", None)
  }

  /** One notice to each row, in order; a refused notice refuses them all. */
  function FanOut(s: Scope, author: Participant, name: string, rows: seq<Id>, world: World): Outcome<nat> {
    if rows == [] then Outcome(s, Ok(0)) else
      var init := FanOut(s, author, name, rows[..|rows| - 1], world);
      if init.result.Refused? then Outcome(s, init.result) else
        var sent := SendIn(init.scope, author, Notice(rows[|rows| - 1], name), true, |rows| + 1, |rows|, world);
        if sent.result.Refused? then Outcome(s, Refused(sent.result.error)) else Outcome(sent.scope, Ok(|rows|))
  }

  function PostOf(author: Participant, input: PostInput, now: Time): Post {
    Post(input.channel, author, input.body, input.thread, input.key, ContentOf(input), now)
  }

  /** The checks that come before a keyed retry is answered. */
  function PostError(h: Hub, author: Author, input: PostInput, world: World): (error: Option<ErrorCode>)
    ensures error.None? ==> input.channel in h.channels
  {
    if !MayAct(h, author, world.tick(0)) then Some(Unauthenticated)
    else if input.channel !in h.channels then Some(NotFound)
    else ThreadError(h, input)
  }

  /** bus/channels.go PostChannel. */
  function PostChannel(h: Hub, author: Author, input: PostInput, world: World): (Hub, Result<Id>) {
    var sender := Signature(author);
    var error := PostError(h, author, input, world);
    if error.Some? then (h, Refused(error.value)) else
      var earlier := Earlier(h, sender, input, world);
      if earlier.Some? then
        (h, if earlier.value in h.posts && h.posts[earlier.value].hash == ContentOf(input) then Ok(earlier.value) else Refused(Conflict))
      else if |h.posts| >= POST_CAP then (h, Refused(Backpressure))
      else
        var id, now := world.mint(0), world.tick(1);
        var sent := FanOut(h.scope, sender, h.channels[input.channel].name, AudienceRows(h, input.channel, sender, world), world);
        if sent.result.Refused? then (h, Refused(sent.result.error))
        else (h.(posts := h.posts[id := PostOf(sender, input, now)], minted := h.minted + {id},
                 scope := Emit(sent.scope, ChannelPosted, PostSubject(id), Unstated, now)), Ok(id))
  }

  // ---- retention -----------------------------------------------------------------------------

  function ThreadOf(posts: map<Id, Post>, id: Id): Id
    requires id in posts
  {
    if posts[id].thread.Some? then posts[id].thread.value else id
  }

  function InThread(posts: map<Id, Post>, root: Id): set<Id> {
    set id | id in posts && ThreadOf(posts, id) == root
  }

  /** No post is removed within a week, whatever cutoff is asked for. */
  function PostCutoff(before: Time, now: Time): Time {
    if before <= now - WEEK then before else now - WEEK
  }

  /** GROUP BY thread HAVING MAX(created_at) < cutoff. */
  function OldThreads(posts: map<Id, Post>, cutoff: Time): set<Id> {
    set id | id in posts && (forall x :: x in InThread(posts, ThreadOf(posts, id)) ==> posts[x].createdAt < cutoff) :: ThreadOf(posts, id)
  }

  /** The replies of the old threads go first, then their roots. */
  function AfterReplies(posts: map<Id, Post>, roots: set<Id>): map<Id, Post> {
    map id | id in posts && !(posts[id].thread.Some? && posts[id].thread.value in roots) :: posts[id]
  }

  function AfterPruning(posts: map<Id, Post>, roots: set<Id>): map<Id, Post> {
    AfterReplies(posts, roots) - roots
  }

  /** The counts that the grouped query reports, thread by thread. */
  function CountThreads(posts: map<Id, Post>, roots: seq<Id>): nat {
    if roots == [] then 0 else CountThreads(posts, roots[..|roots| - 1]) + |InThread(posts, roots[|roots| - 1])|
  }

  /** bus/storage.go PruneScope with the channels of bus/channels_archive.go channelRetentionCandidates. */
  ghost function PruneHub(h: Hub, before: Time, execute: bool, world: World): (Hub, nat) {
    var roots := OldThreads(h.posts, PostCutoff(before, world.tick(2)));
    (h.(scope := Prune(h.scope, before, execute, world).0, posts := if execute then AfterPruning(h.posts, roots) else h.posts),
     CountThreads(h.posts, world.order(roots)))
  }

  // ---- the invariant -------------------------------------------------------------------------

  /** Threads are one level deep and stay within their channel. */
  ghost predicate Threaded(posts: map<Id, Post>) {
    forall id :: id in posts && posts[id].thread.Some? ==>
      posts[id].thread.value in posts && posts[posts[id].thread.value].channel == posts[id].channel && posts[posts[id].thread.value].thread.None?
  }

  ghost predicate KeysDiffer(posts: map<Id, Post>) {
    forall a, b :: a in posts && b in posts && posts[a].key.Some? && posts[a].key == posts[b].key && posts[a].author == posts[b].author ==> a == b
  }

  ghost predicate PostRows(posts: map<Id, Post>, channels: map<Id, Channel>, agents: map<Id, AgentRow>) {
    forall id :: id in posts ==>
      && posts[id].channel in channels && posts[id].hash == Content(posts[id].channel, posts[id].body, posts[id].thread)
      && match posts[id].author.kind
         case AgentKind => posts[id].author.id in agents
         case HumanKind => true
         case RemoteKind => false
  }

  ghost predicate ChannelRows(channels: map<Id, Channel>) {
    && |channels| <= CHANNEL_CAP
    && (forall a, b :: a in channels && b in channels && channels[a].name == channels[b].name ==> a == b)
  }

  ghost predicate SubscriptionRows(subscriptions: map<Subscription, Time>, channels: map<Id, Channel>, agents: map<Id, AgentRow>) {
    && (forall sub :: sub in subscriptions ==> sub.channel in channels && sub.agent in agents)
    && Uncrowded(subscriptions)
  }

  ghost predicate Uncrowded(subscriptions: map<Subscription, Time>) {
    forall channel :: |Subscribers(subscriptions, channel)| <= SUBSCRIBER_CAP
  }

  ghost predicate Sound(h: Hub) {
    && Inv(h.scope) && ChannelRows(h.channels) && SubscriptionRows(h.subscriptions, h.channels, h.scope.agents) && PostRows(h.posts, h.channels, h.scope.agents)
    && Threaded(h.posts) && KeysDiffer(h.posts) && |h.posts| <= POST_CAP
    && h.posts.Keys <= h.minted && h.channels.Keys <= h.minted
  }

  /** What a later hub owes to an earlier one: posts and channels are written once, and channels stay. */
  ghost predicate Grows(h: Hub, g: Hub) {
    && Evolves(h.scope, g.scope) && h.minted <= g.minted
    && (forall id :: id in g.posts ==> if id in h.posts then g.posts[id] == h.posts[id] else id !in h.minted)
    && (forall id :: id in h.channels ==> id in g.channels && g.channels[id] == h.channels[id])
  }

  // ---- the notices ---------------------------------------------------------------------------

  /** The notices that reached the first `n` of the audience. */
  function Minted(world: World, n: nat): set<Id> {
    set i | 1 <= i <= n :: world.mint(i)
  }

  ghost predicate SameOrExpired(m: Message, n: Message) {
    n == m || n == AsExpired(m)
  }

  ghost predicate NoticeAt(s: Scope, t: Scope, id: Id, m: Message) {
    id in t.messages && id !in s.messages && SameOrExpired(m, t.messages[id])
  }

  /** Exactly one new message for each row, and nothing else but what has expired meanwhile. */
  ghost predicate Delivered(s: Scope, t: Scope, author: Participant, name: string, rows: seq<Id>, world: World) {
    && t.messages.Keys == s.messages.Keys + Minted(world, |rows|) && t.agents == s.agents && t.reservations == s.reservations && t.tasks == s.tasks
    && (forall i :: 0 <= i < |rows| ==> NoticeAt(s, t, world.mint(i + 1), NewMessage(author, AgentKind, Notice(rows[i], name), world.tick(i + 2))))
    && (forall id :: id in s.messages ==> SameOrExpired(s.messages[id], t.messages[id]))
  }

  /** No identifier from `n` on is in use. */
  ghost predicate Unused(world: World, ids: set<Id>, n: nat) {
    && (forall i, j :: world.mint(i) == world.mint(j) ==> i == j)
    && (forall i :: i >= n ==> world.mint(i) !in ids)
  }

  /** What one notice does. */
  ghost predicate Notified(s: Scope, t: Scope, id: Id, m: Message) {
    && t.messages.Keys == s.messages.Keys + {id} && t.issued == s.issued + {id} && t.agents == s.agents && t.reservations == s.reservations && t.tasks == s.tasks
    && t.messages[id] == m && id !in s.messages
    && (forall x :: x in s.messages ==> SameOrExpired(s.messages[x], t.messages[x]))
  }

  lemma NoticeIsSent(s: Scope, author: Participant, target: Id, name: string, tick: nat, mint: nat, world: World)
    requires Inv(s) && world.mint(mint) !in s.issued
    ensures var sent := SendIn(s, author, Notice(target, name), true, tick, mint, world);
            && (sent.result.Refused? ==> sent.scope == s)
            && (sent.result.Ok? ==> target in s.agents
                                    && Notified(s, sent.scope, world.mint(mint), NewMessage(author, AgentKind, Notice(target, name), world.tick(tick))))
  {
    hide Between, Evolves, Expire, Backlog, NewMessage, HashOf, Append;
    var now := world.tick(tick);
    ExpireKeeps(s, now, world, {});
    FreshIsAbsent(s, world.mint(mint));
  }

  lemma FanOutStops(s: Scope, author: Participant, name: string, rows: seq<Id>, world: World)
    ensures FanOut(s, author, name, rows, world).result.Refused? ==> FanOut(s, author, name, rows, world).scope == s
  {
    hide SendIn;
  }

  /** The fan-out delivers one notice to each of the audience, or none at all. */
  lemma {:induction false} FanOutDelivers(s: Scope, author: Participant, name: string, rows: seq<Id>, world: World)
    requires Inv(s) && Unused(world, s.issued, 0) && !author.kind.RemoteKind? && (author.kind.AgentKind? ==> author.id in s.agents)
    ensures var sent := FanOut(s, author, name, rows, world);
            && Keeps(s, sent.scope) && sent.scope.issued <= s.issued + Minted(world, |rows|)
            && (sent.result.Ok? ==> Delivered(s, sent.scope, author, name, rows, world))
  {
    hide Inv, Keeps, SendIn, NewMessage, Notice;
    if rows == [] {
      KeepsNothing(s);
      assert Minted(world, 0) == {};
    } else {
      var init, n := rows[..|rows| - 1], |rows|;
      FanOutDelivers(s, author, name, init, world);
      var before := FanOut(s, author, name, init, world);
      FanOutStops(s, author, name, rows, world);
      if before.result.Ok? {
        var sent := SendIn(before.scope, author, Notice(rows[n - 1], name), true, n + 1, n, world);
        MintedMore(world, s.issued, n);
        KeptInv(s, before.scope);
        NoticeIsSent(before.scope, author, rows[n - 1], name, n + 1, n, world);
        SendInKeeps(before.scope, author, Notice(rows[n - 1], name), true, n + 1, n, world);
        KeepsThen(s, before.scope, sent.scope);
        if sent.result.Ok? {
          OneMore(s, before.scope, sent.scope, author, name, rows, world);
        } else {
          KeepsNothing(s);
        }
      } else {
        KeepsNothing(s);
        MintedMore(world, s.issued, n);
      }
    }
  }

  lemma KeptInv(s: Scope, t: Scope)
    requires Keeps(s, t)
    ensures Inv(t)
  {
  }

  lemma MintedMore(world: World, issued: set<Id>, n: nat)
    requires Unused(world, issued, 0) && n > 0
    ensures Minted(world, n) == Minted(world, n - 1) + {world.mint(n)} && world.mint(n) !in issued + Minted(world, n - 1)
  {
    forall id ensures id in Minted(world, n) <==> id in Minted(world, n - 1) || id == world.mint(n) {
      if id in Minted(world, n) {
        var i :| 1 <= i <= n && id == world.mint(i);
        assert i < n ==> id in Minted(world, n - 1);
      }
      if id in Minted(world, n - 1) {
        var i :| 1 <= i <= n - 1 && id == world.mint(i);
      }
    }
  }

  lemma OneMore(s: Scope, t: Scope, u: Scope, author: Participant, name: string, rows: seq<Id>, world: World)
    requires rows != [] && Delivered(s, t, author, name, rows[..|rows| - 1], world)
    requires world.mint(|rows|) !in s.messages
    requires Notified(t, u, world.mint(|rows|), NewMessage(author, AgentKind, Notice(rows[|rows| - 1], name), world.tick(|rows| + 1)))
    requires Minted(world, |rows|) == Minted(world, |rows| - 1) + {world.mint(|rows|)}
    ensures Delivered(s, u, author, name, rows, world)
  {
    hide NewMessage, Notice, Minted, SameOrExpired;
    ItsOwn(u.messages[world.mint(|rows|)]);
    var init, n := rows[..|rows| - 1], |rows|;
    forall i | 0 <= i < n ensures NoticeAt(s, u, world.mint(i + 1), NewMessage(author, AgentKind, Notice(rows[i], name), world.tick(i + 2))) {
      if i < n - 1 {
        assert rows[i] == init[i];
        NoticeStays(s, t, u, world.mint(i + 1), NewMessage(author, AgentKind, Notice(init[i], name), world.tick(i + 2)));
      }
    }
    assert |init| == n - 1;
    assert u.messages.Keys == s.messages.Keys + Minted(world, n);
    OthersStay(s, t, u);
  }

  lemma ItsOwn(m: Message)
    ensures SameOrExpired(m, m)
  {
  }

  lemma OthersStay(s: Scope, t: Scope, u: Scope)
    requires s.messages.Keys <= t.messages.Keys <= u.messages.Keys
    requires forall id :: id in s.messages ==> SameOrExpired(s.messages[id], t.messages[id])
    requires forall id :: id in t.messages ==> SameOrExpired(t.messages[id], u.messages[id])
    ensures forall id :: id in s.messages ==> SameOrExpired(s.messages[id], u.messages[id])
  {
    forall id | id in s.messages ensures SameOrExpired(s.messages[id], u.messages[id]) {
      assert id in t.messages && SameOrExpired(s.messages[id], t.messages[id]) && SameOrExpired(t.messages[id], u.messages[id]);
    }
  }

  lemma NoticeStays(s: Scope, t: Scope, u: Scope, id: Id, m: Message)
    requires NoticeAt(s, t, id, m) && id in u.messages && SameOrExpired(t.messages[id], u.messages[id])
    ensures NoticeAt(s, u, id, m)
  {
  }

  lemma AudienceRowsList(h: Hub, channel: Id, author: Participant, world: World)
    ensures Lists(AudienceRows(h, channel, author, world), Audience(h, channel, author))
  {
    var ids := Audience(h, channel, author);
    assert Lists(world.order(ids), ids);
    SortByLists(world.order(ids), ids, ById());
  }

  /** What is written when a post is accepted. */
  ghost predicate Posted(h: Hub, g: Hub, sender: Participant, input: PostInput, id: Id, world: World) {
    && input.channel in h.channels
    && var rows := AudienceRows(h, input.channel, sender, world);
    && Lists(rows, Audience(h, input.channel, sender))
    && Delivered(h.scope, g.scope, sender, h.channels[input.channel].name, rows, world)
    && g.posts == h.posts[id := PostOf(sender, input, world.tick(1))]
  }

  lemma DeliveredStays(s: Scope, t: Scope, u: Scope, author: Participant, name: string, rows: seq<Id>, world: World)
    requires Delivered(s, t, author, name, rows, world)
    requires u == t.(log := u.log)
    ensures Delivered(s, u, author, name, rows, world)
  {
    hide Minted, NewMessage, Notice;
    forall i | 0 <= i < |rows| ensures NoticeAt(s, u, world.mint(i + 1), NewMessage(author, AgentKind, Notice(rows[i], name), world.tick(i + 2))) {
      assert NoticeAt(s, t, world.mint(i + 1), NewMessage(author, AgentKind, Notice(rows[i], name), world.tick(i + 2)));
    }
  }

  lemma NewPost(h: Hub, sender: Participant, input: PostInput, world: World)
    requires Sound(h) && Unused(world, h.scope.issued, 0) && input.channel in h.channels
    requires !sender.kind.RemoteKind? && (sender.kind.AgentKind? ==> sender.id in h.scope.agents)
    ensures var sent := FanOut(h.scope, sender, h.channels[input.channel].name, AudienceRows(h, input.channel, sender, world), world);
            var g := h.(posts := h.posts[world.mint(0) := PostOf(sender, input, world.tick(1))], minted := h.minted + {world.mint(0)},
                        scope := Emit(sent.scope, ChannelPosted, PostSubject(world.mint(0)), Unstated, world.tick(1)));
            Keeps(h.scope, g.scope) && (sent.result.Ok? ==> Posted(h, g, sender, input, world.mint(0), world))
  {
    hide Inv, Keeps, Delivered, FanOut, AudienceRows, Audience, Append;
    var rows, name := AudienceRows(h, input.channel, sender, world), h.channels[input.channel].name;
    AudienceRowsList(h, input.channel, sender, world);
    FanOutDelivers(h.scope, sender, name, rows, world);
    var sent := FanOut(h.scope, sender, name, rows, world).scope;
    var after := Emit(sent, ChannelPosted, PostSubject(world.mint(0)), Unstated, world.tick(1));
    KeptInv(h.scope, sent);
    EmitKeepsBetween(sent, ChannelPosted, PostSubject(world.mint(0)), world.tick(1));
    KeepsThen(h.scope, sent, after);
    if FanOut(h.scope, sender, name, rows, world).result.Ok? {
      DeliveredStays(h.scope, sent, after, sender, name, rows, world);
    }
  }

  lemma FairIsUnused(world: World, since: Time, issued: set<Id>, minted: set<Id>)
    requires Fair(world, since, issued + minted)
    ensures Unused(world, issued, 0) && world.mint(0) !in minted && Fair(world, since, issued)
  {
  }

  /** A post and its notices are one: either nothing changes, or the post is there and everyone who follows the
      channel, but for its author, has exactly one new message about it. */
  lemma PostIsAtomic(h: Hub, author: Author, input: PostInput, world: World)
    requires Sound(h) && Fair(world, h.scope.clock, h.scope.issued + h.minted)
    ensures var (g, result) := PostChannel(h, author, input, world);
            && (result.Refused? ==> g == h)
            && (result.Ok? && result.value in h.posts ==> g == h && h.posts[result.value].hash == ContentOf(input))
            && (result.Ok? && result.value !in h.posts ==> Posted(h, g, Signature(author), input, result.value, world))
            && Keeps(h.scope, g.scope)
  {
    hide Inv, Keeps, Fair, FanOut, AudienceRows, ThreadError, Earlier, Posted, PostOf, Emit, ContentOf, MayAct, Signature, Sound;
    assert Inv(h.scope) by { SoundScope(h); }
    KeepsNothing(h.scope);
    FairIsUnused(world, h.scope.clock, h.scope.issued, h.minted);
    if input.channel in h.channels && MayAct(h, author, world.tick(0)) {
      SignedBy(h, author, world.tick(0));
      FreshPost(h, world.mint(0));
      NewPost(h, Signature(author), input, world);
    }
  }

  lemma SignedBy(h: Hub, author: Author, now: Time)
    requires MayAct(h, author, now)
    ensures !Signature(author).kind.RemoteKind? && (Signature(author).kind.AgentKind? ==> Signature(author).id in h.scope.agents)
  {
  }

  lemma FreshPost(h: Hub, id: Id)
    requires Sound(h) && id !in h.minted
    ensures id !in h.posts && id !in h.channels
  {
  }

  // ---- threads and retention -----------------------------------------------------------------

  /** In a sound hub a prune takes whole threads: a post stays exactly when its thread does. */
  lemma PrunesWholeThreads(posts: map<Id, Post>, cutoff: Time)
    requires Threaded(posts)
    ensures var roots := OldThreads(posts, cutoff); var after := AfterPruning(posts, roots);
            && Threaded(after)
            && (forall id :: id in after <==> id in posts && ThreadOf(posts, id) !in roots)
            && (forall id :: id in after ==> after[id] == posts[id])
            && (forall id :: id in posts ==> (ThreadOf(posts, id) in roots <==> forall x :: x in InThread(posts, ThreadOf(posts, id)) ==> posts[x].createdAt < cutoff))
  {
    var roots := OldThreads(posts, cutoff);
    var after := AfterPruning(posts, roots);
    forall id ensures id in after <==> id in posts && ThreadOf(posts, id) !in roots {
    }
  }

  /** The replies of the old threads are gone before any root is: no delete meets a reference. */
  lemma RepliesGoFirst(posts: map<Id, Post>, cutoff: Time)
    requires Threaded(posts)
    ensures var roots := OldThreads(posts, cutoff);
            Threaded(AfterReplies(posts, roots))
            && forall id :: id in AfterReplies(posts, roots) && AfterReplies(posts, roots)[id].thread.Some? ==> AfterReplies(posts, roots)[id].thread.value !in roots
  {
    var roots := OldThreads(posts, cutoff);
    forall root | root in roots ensures root in posts && posts[root].thread.None? {
      var id :| id in posts && ThreadOf(posts, id) == root;
    }
  }

  /** The posts of some threads. */
  function InThreads(posts: map<Id, Post>, roots: set<Id>): set<Id> {
    set id | id in posts && ThreadOf(posts, id) in roots
  }

  function Members(rows: seq<Id>): set<Id> {
    set id | id in rows
  }

  lemma {:induction false} CountsThreads(posts: map<Id, Post>, roots: seq<Id>)
    requires Distinct(roots)
    ensures CountThreads(posts, roots) == |InThreads(posts, Members(roots))|
  {
    if roots == [] {
      assert InThreads(posts, Members(roots)) == {};
    } else {
      var init, last := roots[..|roots| - 1], roots[|roots| - 1];
      CountsThreads(posts, init);
      var before, more := InThreads(posts, Members(init)), InThread(posts, last);
      assert before !! more;
      assert InThreads(posts, Members(roots)) == before + more by {
        forall id | id in posts ensures ThreadOf(posts, id) in roots <==> ThreadOf(posts, id) in init || ThreadOf(posts, id) == last {
          assert roots == init + [last];
        }
      }
    }
  }

  /** The reported count is the number of posts removed, roots and replies together, and none of them is younger than a week. */
  lemma PruneCounts(h: Hub, before: Time, world: World)
    requires Sound(h)
    ensures var (g, count) := PruneHub(h, before, true, world);
            && count == |h.posts| - |g.posts|
            && forall id :: id in h.posts && id !in g.posts ==> h.posts[id].createdAt < before && h.posts[id].createdAt < world.tick(2) - WEEK
  {
    hide Prune, Inv, OldThreads, AfterPruning, CountThreads, InThreads, PostCutoff;
    CutoffIsEarly(before, world.tick(2));
    var cutoff := PostCutoff(before, world.tick(2));
    var roots := OldThreads(h.posts, cutoff);
    var rows := world.order(roots);
    assert Lists(rows, roots);
    CountsThreads(h.posts, rows);
    assert Members(rows) == roots;
    PrunedPosts(h.posts, cutoff);
  }

  lemma CutoffIsEarly(before: Time, now: Time)
    ensures PostCutoff(before, now) <= before && PostCutoff(before, now) <= now - WEEK
  {
  }

  lemma PrunedPosts(posts: map<Id, Post>, cutoff: Time)
    requires Threaded(posts)
    ensures var roots := OldThreads(posts, cutoff); var after := AfterPruning(posts, roots);
            && |InThreads(posts, roots)| == |posts| - |after|
            && forall id :: id in posts && id !in after ==> posts[id].createdAt < cutoff
  {
    hide OldThreads, AfterPruning, Threaded;
    PrunesWholeThreads(posts, cutoff);
    var roots := OldThreads(posts, cutoff);
    var after, gone := AfterPruning(posts, roots), InThreads(posts, roots);
    assert posts.Keys == gone + after.Keys && gone !! after.Keys;
    forall id | id in gone ensures posts[id].createdAt < cutoff {
      assert id in InThread(posts, ThreadOf(posts, id));
    }
  }

  // ---- every step ----------------------------------------------------------------------------

  datatype HubOp =
    | Create(creator: Author, name: string, description: string) | Follow(caller: Caller, channel: Id, wanted: bool)
    | Say(author: Author, post: PostInput) | Scoped(op: Op)

  ghost function HubApply(h: Hub, op: HubOp, world: World): Hub {
    match op
    case Create(creator, name, description) => CreateChannel(h, creator, name, description, world).0
    case Follow(caller, channel, wanted) => Subscribe(h, caller, channel, wanted, world).0
    case Say(author, post) => PostChannel(h, author, post, world).0
    case Scoped(op) => if op.PruneOld? then PruneHub(h, op.before, op.execute, world).0 else h.(scope := Apply(h.scope, op, world))
  }

  datatype HubTurn = HubTurn(op: HubOp, world: World, until: Time)

  ghost predicate CanTurn(h: Hub, turn: HubTurn) {
    && (turn.op.Scoped? ==> Sensible(turn.op.op))
    && Fair(turn.world, h.scope.clock, h.scope.issued + h.minted) && turn.world.tick(0) <= turn.until
  }

  ghost function HubStep(h: Hub, turn: HubTurn): Hub {
    var g := HubApply(h, turn.op, turn.world);
    g.(scope := g.scope.(clock := turn.until))
  }

  ghost function HubRun(h: Hub, turns: seq<HubTurn>): Hub
    decreases |turns|
  {
    if turns == [] then h else HubStep(HubRun(h, turns[..|turns| - 1]), turns[|turns| - 1])
  }

  ghost predicate HubUnfolds(h: Hub, turns: seq<HubTurn>)
    decreases |turns|
  {
    turns == [] || (HubUnfolds(h, turns[..|turns| - 1]) && CanTurn(HubRun(h, turns[..|turns| - 1]), turns[|turns| - 1]))
  }

  /** What each operation keeps, and what it owes. */
  ghost predicate Carries(h: Hub, g: Hub) {
    Sound(g) && Grows(h, g) && g.scope.clock == h.scope.clock
  }

  lemma CarriesNothing(h: Hub)
    requires Sound(h)
    ensures Carries(h, h)
  {
    hide Inv, Evolves;
    EvolvesReflexive(h.scope);
  }

  /** References stay good when there are only more channels and agents to refer to. */
  lemma RowsWiden(h: Hub, channels: map<Id, Channel>, agents: map<Id, AgentRow>)
    requires SubscriptionRows(h.subscriptions, h.channels, h.scope.agents) && PostRows(h.posts, h.channels, h.scope.agents)
    requires h.channels.Keys <= channels.Keys && h.scope.agents.Keys <= agents.Keys
    ensures SubscriptionRows(h.subscriptions, channels, agents) && PostRows(h.posts, channels, agents)
  {
    hide Uncrowded;
  }

  lemma AgentsStay(s: Scope, t: Scope)
    requires Evolves(s, t)
    ensures s.agents.Keys <= t.agents.Keys
  {
  }

  /** Only the scope moves on. */
  lemma ScopeMoves(h: Hub, t: Scope)
    requires Sound(h) && Inv(t) && Evolves(h.scope, t)
    ensures Sound(h.(scope := t)) && Grows(h, h.(scope := t))
  {
    hide Inv, Evolves, SubscriptionRows, PostRows, ChannelRows, Threaded, KeysDiffer;
    AgentsStay(h.scope, t);
    RowsWiden(h, h.channels, t.agents);
  }

  lemma CreateCarries(h: Hub, author: Author, name: string, description: string, world: World)
    requires Sound(h) && Fair(world, h.scope.clock, h.scope.issued + h.minted)
    ensures Carries(h, CreateChannel(h, author, name, description, world).0)
  {
    hide Inv, Evolves, Emit, Keeps, Fair, Named, Sound, Grows, Carries;
    CarriesNothing(h);
    var id, now := world.mint(0), world.tick(1);
    FairIsUnused(world, h.scope.clock, h.scope.issued, h.minted);
    SoundScope(h);
    var t := Emit(h.scope, ChannelCreated, ChannelSubject(id), Unstated, now);
    EmitKeepsBetween(h.scope, ChannelCreated, ChannelSubject(id), now);
    KeptClock(h.scope, t);
    ScopeMoves(h, t);
    if MayAct(h, author, world.tick(0)) && Named(h, name) == {} && |h.channels| < CHANNEL_CAP {
      ChannelAdded(h, h.(scope := t), id, Channel(name, description, now));
    }
  }

  lemma ChannelAdded(h: Hub, k: Hub, id: Id, channel: Channel)
    requires Sound(h) && Sound(k) && Grows(h, k) && k == h.(scope := k.scope) && k.scope.clock == h.scope.clock && id !in h.minted
    requires Named(h, channel.name) == {} && |h.channels| < CHANNEL_CAP
    ensures Carries(h, k.(channels := h.channels[id := channel], minted := h.minted + {id}))
  {
    hide Inv, Evolves, SubscriptionRows, PostRows, Threaded, KeysDiffer, ChannelRows;
    var channels := h.channels[id := channel];
    ChannelRowsMore(h, id, channel);
    RowsWiden(k, channels, k.scope.agents);
  }

  lemma ChannelRowsMore(h: Hub, id: Id, channel: Channel)
    requires ChannelRows(h.channels) && id !in h.channels && Named(h, channel.name) == {} && |h.channels| < CHANNEL_CAP
    ensures ChannelRows(h.channels[id := channel])
  {
    var channels := h.channels[id := channel];
    assert |channels| == |h.channels| + 1;
    forall a | a in h.channels ensures h.channels[a].name != channel.name {
      assert a !in Named(h, channel.name);
    }
  }

  lemma FollowCarries(h: Hub, caller: Caller, channel: Id, wanted: bool, world: World)
    requires Sound(h)
    ensures Carries(h, Subscribe(h, caller, channel, wanted, world).0)
  {
    hide Sound, Carries, Subscribers;
    CarriesNothing(h);
    var sub := Subscription(channel, caller.agent);
    if Current(h.scope, caller, world.tick(0)) && channel in h.channels {
      SubscribedCarries(h, sub, world.tick(1));
    }
  }

  lemma SubscribedCarries(h: Hub, sub: Subscription, at: Time)
    requires Sound(h) && sub.channel in h.channels && sub.agent in h.scope.agents
    ensures Carries(h, h.(subscriptions := h.subscriptions - {sub}))
    ensures |Subscribers(h.subscriptions, sub.channel)| < SUBSCRIBER_CAP ==> Carries(h, h.(subscriptions := h.subscriptions[sub := at]))
  {
    hide Inv, Evolves, SubscriptionRows, PostRows, Threaded, KeysDiffer, ChannelRows, Subscribers;
    EvolvesReflexive(h.scope);
    SubscriptionChanges(h, sub, at);
  }

  lemma SubscriptionChanges(h: Hub, sub: Subscription, at: Time)
    requires SubscriptionRows(h.subscriptions, h.channels, h.scope.agents)
    ensures SubscriptionRows(h.subscriptions - {sub}, h.channels, h.scope.agents)
    ensures sub.channel in h.channels && sub.agent in h.scope.agents && |Subscribers(h.subscriptions, sub.channel)| < SUBSCRIBER_CAP ==>
              SubscriptionRows(h.subscriptions[sub := at], h.channels, h.scope.agents)
  {
    hide Uncrowded, Subscribers;
    FewerSubscribers(h.subscriptions, sub);
    if |Subscribers(h.subscriptions, sub.channel)| < SUBSCRIBER_CAP {
      MoreSubscribers(h.subscriptions, sub, at);
    }
  }

  lemma FewerSubscribers(subscriptions: map<Subscription, Time>, sub: Subscription)
    requires Uncrowded(subscriptions)
    ensures Uncrowded(subscriptions - {sub})
  {
    var less := subscriptions - {sub};
    forall c ensures |Subscribers(less, c)| <= SUBSCRIBER_CAP {
      Fewer(Subscribers(less, c), Subscribers(subscriptions, c));
    }
  }

  lemma MoreSubscribers(subscriptions: map<Subscription, Time>, sub: Subscription, at: Time)
    requires Uncrowded(subscriptions) && |Subscribers(subscriptions, sub.channel)| < SUBSCRIBER_CAP
    ensures Uncrowded(subscriptions[sub := at])
  {
    var more := subscriptions[sub := at];
    forall c ensures |Subscribers(more, c)| <= SUBSCRIBER_CAP {
      if c == sub.channel {
        Fewer(Subscribers(more, c), Subscribers(subscriptions, c) + {sub.agent});
      } else {
        Fewer(Subscribers(more, c), Subscribers(subscriptions, c));
      }
    }
  }

  lemma Fewer(a: set<Id>, b: set<Id>)
    requires a <= b
    ensures |a| <= |b|
  {
    assert b == a + (b - a);
  }

  lemma NoKeyedPost(h: Hub, author: Participant, key: Id, world: World)
    requires |world.order(KeyedPosts(h, author, key))| == 0
    ensures KeyedPosts(h, author, key) == {}
  {
    assert Lists(world.order(KeyedPosts(h, author, key)), KeyedPosts(h, author, key));
  }

  lemma PostRowCarries(h: Hub, g: Hub, author: Author, input: PostInput, id: Id, now: Time)
    requires Sound(h) && Carries(h, h.(scope := g.scope)) && id !in h.minted
    requires g == h.(scope := g.scope, minted := h.minted + {id}, posts := h.posts[id := PostOf(Signature(author), input, now)])
    requires input.channel in h.channels && ThreadError(h, input).None? && |h.posts| < POST_CAP
    requires !Signature(author).kind.RemoteKind? && (Signature(author).kind.AgentKind? ==> Signature(author).id in h.scope.agents)
    requires input.key.Some? ==> KeyedPosts(h, Signature(author), input.key.value) == {}
    ensures Carries(h, g)
  {
    hide Inv, Evolves, SubscriptionRows, PostRows, Threaded, KeysDiffer, ChannelRows, KeyedPosts, ThreadError;
    var sender := Signature(author);
    var row := PostOf(sender, input, now);
    FreshPost(h, id);
    assert |g.posts| == |h.posts| + 1;
    if input.key.Some? {
      NotKeyed(h, sender, input.key.value);
    }
    KeyAdded(h.posts, id, row);
    ThreadAdded(h, id, input, row);
    AgentsStay(h.scope, g.scope);
    PostAdded(h.channels, g.scope.agents, h.posts, id, row);
  }

  lemma PostAdded(channels: map<Id, Channel>, agents: map<Id, AgentRow>, posts: map<Id, Post>, id: Id, row: Post)
    requires PostRows(posts, channels, agents) && row.channel in channels && row.hash == Content(row.channel, row.body, row.thread)
    requires !row.author.kind.RemoteKind? && (row.author.kind.AgentKind? ==> row.author.id in agents)
    ensures PostRows(posts[id := row], channels, agents)
  {
  }

  lemma NotKeyed(h: Hub, author: Participant, key: Id)
    requires KeyedPosts(h, author, key) == {}
    ensures forall x :: x in h.posts ==> !(h.posts[x].key == Some(key) && h.posts[x].author == author)
  {
    forall x | x in h.posts ensures !(h.posts[x].key == Some(key) && h.posts[x].author == author) {
      assert x !in KeyedPosts(h, author, key);
    }
  }

  lemma KeyAdded(posts: map<Id, Post>, id: Id, row: Post)
    requires KeysDiffer(posts) && id !in posts
    requires row.key.Some? ==> forall x :: x in posts ==> !(posts[x].key == row.key && posts[x].author == row.author)
    ensures KeysDiffer(posts[id := row])
  {
  }

  lemma ThreadAdded(h: Hub, id: Id, input: PostInput, row: Post)
    requires Threaded(h.posts) && id !in h.posts && ThreadError(h, input).None? && row.channel == input.channel && row.thread == input.thread
    ensures Threaded(h.posts[id := row])
  {
  }

  lemma CarriesScope(h: Hub, t: Scope)
    requires Sound(h.(scope := t)) && Grows(h, h.(scope := t)) && t.clock == h.scope.clock
    ensures Carries(h, h.(scope := t))
  {
    hide Sound, Grows;
  }

  lemma SayCarries(h: Hub, author: Author, input: PostInput, world: World)
    requires Sound(h) && Fair(world, h.scope.clock, h.scope.issued + h.minted)
    ensures Carries(h, PostChannel(h, author, input, world).0)
  {
    hide Inv, Evolves, Keeps, Sound, Carries, FanOut, AudienceRows, Posted, PostOf, Emit, ThreadError, Fair, KeyedPosts, MayAct, Signature;
    assert Inv(h.scope) by { SoundScope(h); }
    CarriesNothing(h);
    FairIsUnused(world, h.scope.clock, h.scope.issued, h.minted);
    var sender, g := Signature(author), PostChannel(h, author, input, world).0;
    if PostError(h, author, input, world).None? && Earlier(h, sender, input, world).None? && |h.posts| < POST_CAP {
      SignedBy(h, author, world.tick(0));
      NewPost(h, sender, input, world);
      if FanOut(h.scope, sender, h.channels[input.channel].name, AudienceRows(h, input.channel, sender, world), world).result.Ok? {
        if input.key.Some? {
          NoKeyedPost(h, sender, input.key.value, world);
        }
        KeptClock(h.scope, g.scope);
        ScopeMoves(h, g.scope);
        assert Carries(h, h.(scope := g.scope)) by { CarriesScope(h, g.scope); }
        PostRowCarries(h, g, author, input, world.mint(0), world.tick(1));
      }
    }
  }

  lemma PruneCarries(h: Hub, before: Time, execute: bool, world: World)
    requires Sound(h)
    ensures Carries(h, PruneHub(h, before, execute, world).0)
  {
    hide Inv, Evolves, Keeps, Prune, OldThreads, AfterPruning;
    PruneKeeps(h.scope, before, execute, world);
    var t := Prune(h.scope, before, execute, world).0;
    KeptClock(h.scope, t);
    ScopeMoves(h, t);
    if execute {
      FewerPosts(h.(scope := t), AfterPruning(h.posts, OldThreads(h.posts, PostCutoff(before, world.tick(2)))), PostCutoff(before, world.tick(2)));
    }
  }

  lemma FewerPosts(h: Hub, posts: map<Id, Post>, cutoff: Time)
    requires Sound(h) && posts == AfterPruning(h.posts, OldThreads(h.posts, cutoff))
    ensures Sound(h.(posts := posts)) && forall id :: id in posts ==> id in h.posts && posts[id] == h.posts[id]
  {
    hide Inv, ChannelRows, SubscriptionRows, PostRows, KeysDiffer, OldThreads, AfterPruning, Threaded;
    PrunesWholeThreads(h.posts, cutoff);
    FewerRows(h, posts);
  }

  lemma FewerRows(h: Hub, posts: map<Id, Post>)
    requires forall id :: id in posts ==> id in h.posts && posts[id] == h.posts[id]
    requires PostRows(h.posts, h.channels, h.scope.agents) && KeysDiffer(h.posts)
    ensures PostRows(posts, h.channels, h.scope.agents) && KeysDiffer(posts) && |posts| <= |h.posts| && posts.Keys <= h.posts.Keys
  {
    assert posts.Keys <= h.posts.Keys;
    Fewer(posts.Keys, h.posts.Keys);
  }

  lemma SoundScope(h: Hub)
    requires Sound(h)
    ensures Inv(h.scope) && Handed(h.scope)
  {
    HandedInv(h.scope);
  }

  lemma GrowsTransitive(h: Hub, g: Hub, k: Hub)
    requires Sound(h) && Grows(h, g) && Grows(g, k)
    ensures Grows(h, k)
  {
    hide Inv, Evolves;
    SoundScope(h);
    EvolvesTransitive(h.scope, g.scope, k.scope);
  }

  lemma OpCarries(h: Hub, op: HubOp, world: World)
    requires Sound(h) && Fair(world, h.scope.clock, h.scope.issued + h.minted) && (op.Scoped? ==> Sensible(op.op))
    ensures Carries(h, HubApply(h, op, world))
  {
    hide Inv, Evolves, Sound, Grows, Apply, PruneHub, CreateChannel, Subscribe, PostChannel, Sensible, Fair;
    match op
    case Create(creator, name, description) => CreateCarries(h, creator, name, description, world);
    case Follow(caller, channel, wanted) => FollowCarries(h, caller, channel, wanted, world);
    case Say(author, post) => SayCarries(h, author, post, world);
    case Scoped(op) =>
      if op.PruneOld? {
        PruneCarries(h, op.before, op.execute, world);
      } else {
        SoundScope(h);
        FairIsUnused(world, h.scope.clock, h.scope.issued, h.minted);
        ApplyKeepsInv(h.scope, op, world);
        ScopeMoves(h, Apply(h.scope, op, world));
      }
  }

  /** Every turn, of the channels or of the rest of the scope, keeps the hub sound. */
  lemma StepCarries(h: Hub, turn: HubTurn)
    requires Sound(h) && CanTurn(h, turn)
    ensures Sound(HubStep(h, turn)) && Grows(h, HubStep(h, turn))
  {
    hide Inv, Evolves, Sound, Grows, HubApply, Sensible;
    OpCarries(h, turn.op, turn.world);
    var g := HubApply(h, turn.op, turn.world);
    SoundScope(g);
    LaterClock(g.scope, turn.until);
    ScopeMoves(g, g.scope.(clock := turn.until));
    GrowsTransitive(h, g, HubStep(h, turn));
  }

  lemma {:induction false} HubRunCarries(h: Hub, turns: seq<HubTurn>)
    requires Sound(h) && HubUnfolds(h, turns)
    ensures Sound(HubRun(h, turns)) && Grows(h, HubRun(h, turns))
    decreases |turns|
  {
    hide Sound, Grows, HubStep, CanTurn;
    if turns == [] {
      GrowsReflexive(h);
    } else {
      var init, last := turns[..|turns| - 1], turns[|turns| - 1];
      HubRunCarries(h, init);
      StepCarries(HubRun(h, init), last);
      GrowsTransitive(h, HubRun(h, init), HubRun(h, turns));
    }
  }

  lemma GrowsReflexive(h: Hub)
    ensures Grows(h, h)
  {
    EvolvesReflexive(h.scope);
  }

  lemma FreshHubIsSound(hosted: bool)
    ensures Sound(Hub(Fresh(hosted), map[], map[], map[], {}))
  {
    hide Inv;
    FreshIsGood(hosted, Limits(0, 0));
    assert Uncrowded(map[]) by {
      forall channel ensures Subscribers(map[], channel) == {} {
      }
    }
  }

  // ---- keyed retries -------------------------------------------------------------------------

  /** The post that a keyed input made. */
  ghost predicate Answers(h: Hub, sender: Participant, input: PostInput, id: Id) {
    id in h.posts && h.posts[id].author == sender && h.posts[id].key == input.key && h.posts[id].hash == ContentOf(input)
  }

  lemma OnlyEarlier(h: Hub, sender: Participant, input: PostInput, id: Id, world: World)
    requires KeysDiffer(h.posts) && input.key.Some? && id in KeyedPosts(h, sender, input.key.value)
    ensures Earlier(h, sender, input, world) == Some(id)
  {
    var ids := KeyedPosts(h, sender, input.key.value);
    assert ids == {id};
    assert Lists(world.order(ids), ids) && id in world.order(ids);
    ListedSize(world.order(ids), ids);
  }

  lemma EarlierIsKeyed(h: Hub, sender: Participant, input: PostInput, world: World)
    requires Earlier(h, sender, input, world).Some?
    ensures Earlier(h, sender, input, world).value in KeyedPosts(h, sender, input.key.value)
  {
    var ids := KeyedPosts(h, sender, input.key.value);
    assert Lists(world.order(ids), ids);
    assert world.order(ids)[0] in world.order(ids);
  }

  lemma SayAnswers(h: Hub, author: Author, input: PostInput, world: World)
    requires input.key.Some? && PostChannel(h, author, input, world).1.Ok?
    ensures var (g, result) := PostChannel(h, author, input, world); Answers(g, Signature(author), input, result.value)
  {
    hide FanOut, AudienceRows, Emit, ThreadError, Earlier;
    if Earlier(h, Signature(author), input, world).Some? {
      EarlierIsKeyed(h, Signature(author), input, world);
    }
  }

  lemma AnswersAgain(h: Hub, author: Author, input: PostInput, id: Id, world: World)
    requires Sound(h) && MayAct(h, author, world.tick(0)) && input.key.Some? && Answers(h, Signature(author), input, id)
    ensures PostChannel(h, author, input, world) == (h, Ok(id))
  {
    hide Inv, Earlier, FanOut, AudienceRows;
    OnlyEarlier(h, Signature(author), input, id, world);
  }

  lemma RefusesOther(h: Hub, author: Author, input: PostInput, other: PostInput, id: Id, world: World)
    requires Sound(h) && input.key.Some? && Answers(h, Signature(author), input, id)
    requires other.key == input.key && ContentOf(other) != ContentOf(input)
    ensures PostChannel(h, author, other, world).0 == h && PostChannel(h, author, other, world).1.Refused?
  {
    hide Inv, Earlier, FanOut, AudienceRows;
    OnlyEarlier(h, Signature(author), other, id, world);
  }

  /** A keyed post is made once. Whatever happened since, as long as the post is retained, its author's retry gets
      the same post back and changes nothing, and another content under its key is refused. */
  lemma RetriesFindThePost(h: Hub, author: Author, input: PostInput, world: World, turns: seq<HubTurn>, again: Author, world': World, other: PostInput)
    requires Sound(h) && Fair(world, h.scope.clock, h.scope.issued + h.minted) && input.key.Some?
    requires PostChannel(h, author, input, world).1.Ok? && HubUnfolds(PostChannel(h, author, input, world).0, turns)
    requires var (g, made) := PostChannel(h, author, input, world); made.value in HubRun(g, turns).posts
    requires Signature(again) == Signature(author) && other.key == input.key && ContentOf(other) != ContentOf(input)
    ensures var (g, made) := PostChannel(h, author, input, world); var k := HubRun(g, turns);
            && (MayAct(k, again, world'.tick(0)) ==> PostChannel(k, again, input, world') == (k, made))
            && PostChannel(k, again, other, world').0 == k && PostChannel(k, again, other, world').1.Refused?
  {
    hide PostChannel, HubRun, HubUnfolds, Inv, Evolves, ContentOf, MayAct;
    var g, made := PostChannel(h, author, input, world).0, PostChannel(h, author, input, world).1;
    SayCarries(h, author, input, world);
    SayAnswers(h, author, input, world);
    HubRunCarries(g, turns);
    var k := HubRun(g, turns);
    assert Answers(k, Signature(again), input, made.value);
    RefusesOther(k, again, input, other, made.value, world');
    if MayAct(k, again, world'.tick(0)) {
      AnswersAgain(k, again, input, made.value, world');
    }
  }
}
