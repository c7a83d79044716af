/** Channels in an archive: export, validation, and the import that writes roots before replies
    (bus/channels_archive.go). */
module ChannelArchives {
  import opened Model
  import opened Scopes
  import opened Invariants
  import opened Sweeps
  import opened InboxSteps
  import opened Tables
  import opened ArchiveChecks
  import opened Channels

  const FOLLOWER_CAP: nat := 12800

  /** A post without its digest, which the import computes again. */
  datatype ArchivedPost = ArchivedPost(channel: Id, author: Participant, body: string, thread: Option<Id>, key: Option<Id>, createdAt: Time)
  datatype Follower = Follower(subscription: Subscription, since: Time)
  datatype ChannelArchive = ChannelArchive(channels: seq<Entry<Channel>>, followers: seq<Follower>, posts: seq<Entry<ArchivedPost>>)

  function AsArchived(p: Post): ArchivedPost {
    ArchivedPost(p.channel, p.author, p.body, p.thread, p.key, p.createdAt)
  }

  function AsPost(p: ArchivedPost): Post {
    Post(p.channel, p.author, p.body, p.thread, p.key, Content(p.channel, p.body, p.thread), p.createdAt)
  }

  // ---- what an import accepts ----------------------------------------------------------------

  predicate ValidChannels(entries: seq<Entry<Channel>>) {
    && |entries| <= CHANNEL_CAP && UniqueIds(entries)
    && (forall i, j :: 0 <= i < j < |entries| ==> entries[i].row.name != entries[j].row.name)
  }

  function CountFor(followers: seq<Follower>, channel: Id): nat {
    if followers == [] then 0 else
      CountFor(followers[..|followers| - 1], channel) + if followers[|followers| - 1].subscription.channel == channel then 1 else 0
  }

  predicate ValidFollowers(followers: seq<Follower>, channels: set<Id>, agents: set<Id>) {
    && |followers| <= FOLLOWER_CAP
    && (forall i :: 0 <= i < |followers| ==>
          followers[i].subscription.channel in channels && followers[i].subscription.agent in agents
          && CountFor(followers, followers[i].subscription.channel) <= SUBSCRIBER_CAP)
    && (forall i, j :: 0 <= i < j < |followers| ==> followers[i].subscription != followers[j].subscription)
  }

  predicate KnownPost(p: ArchivedPost, channels: set<Id>, agents: set<Id>) {
    && p.channel in channels
    && match p.author.kind
       case AgentKind => p.author.id in agents
       case HumanKind => true
       case RemoteKind => false
  }

  predicate SamePostKey(p: ArchivedPost, q: ArchivedPost) {
    p.key.Some? && p.key == q.key && p.author == q.author
  }

  predicate ValidPosts(posts: seq<Entry<ArchivedPost>>, channels: set<Id>, agents: set<Id>) {
    && |posts| <= POST_CAP && UniqueIds(posts)
    && (forall i :: 0 <= i < |posts| ==> KnownPost(posts[i].row, channels, agents))
    && (forall i, j :: 0 <= i < j < |posts| ==> !SamePostKey(posts[i].row, posts[j].row))
  }

  /** The thread of a reply is a root of the same channel. */
  predicate ValidThread(table: map<Id, ArchivedPost>, p: ArchivedPost) {
    p.thread.Some? ==> p.thread.value in table && table[p.thread.value].channel == p.channel && table[p.thread.value].thread.None?
  }

  predicate ValidThreads(posts: seq<Entry<ArchivedPost>>) {
    forall i :: 0 <= i < |posts| ==> ValidThread(TableOf(posts), posts[i].row)
  }

  predicate ValidChannelArchive(a: ChannelArchive, agents: set<Id>) {
    && ValidChannels(a.channels) && ValidFollowers(a.followers, IdsOf(a.channels), agents)
    && ValidPosts(a.posts, IdsOf(a.channels), agents) && ValidThreads(a.posts)
  }

  // ---- the validator -------------------------------------------------------------------------

  function NamesOf(entries: seq<Entry<Channel>>): set<string> {
    set i | 0 <= i < |entries| :: entries[i].row.name
  }

  method CheckChannels(entries: seq<Entry<Channel>>) returns (ok: bool, ids: set<Id>)
    ensures ok <==> ValidChannels(entries)
    ensures ok ==> ids == IdsOf(entries)
  {
    var unique, seen := CheckIds(entries);
    ids := seen;
    if !unique || |entries| > CHANNEL_CAP {
      return false, ids;
    }
    var names := {};
    for i := 0 to |entries|
      invariant forall j, k :: 0 <= j < k < i ==> entries[j].row.name != entries[k].row.name
      invariant names == NamesOf(entries[..i])
    {
      assert NamesOf(entries[..i + 1]) == NamesOf(entries[..i]) + {entries[i].row.name};
      assert forall j :: 0 <= j < i ==> entries[..i][j].row.name in NamesOf(entries[..i]);
      if entries[i].row.name in names {
        var j :| 0 <= j < i && entries[j].row.name == entries[i].row.name;
        return false, ids;
      }
      names := names + {entries[i].row.name};
    }
    ok := true;
  }

  lemma {:induction false} CountGrows(followers: seq<Follower>, n: nat, channel: Id)
    requires n <= |followers|
    ensures CountFor(followers[..n], channel) <= CountFor(followers, channel)
    decreases |followers|
  {
    if n < |followers| {
      assert followers[..|followers| - 1][..n] == followers[..n];
      CountGrows(followers[..|followers| - 1], n, channel);
    } else {
      assert followers[..n] == followers;
    }
  }

  /** A subscription that crowds its channel, or repeats, or refers to nothing, spoils the whole list. */
  lemma SpoilsFollowers(followers: seq<Follower>, channels: set<Id>, agents: set<Id>, i: nat)
    requires i < |followers|
    requires var sub := followers[i].subscription;
             || sub.channel !in channels || sub.agent !in agents || CountFor(followers[..i + 1], sub.channel) > SUBSCRIBER_CAP
             || exists j :: 0 <= j < i && followers[j].subscription == sub
    ensures !ValidFollowers(followers, channels, agents)
  {
    CountGrows(followers, i + 1, followers[i].subscription.channel);
  }

  function SubscriptionsOf(followers: seq<Follower>): set<Subscription> {
    set i | 0 <= i < |followers| :: followers[i].subscription
  }

  /** One more subscription that is known, new and within the limit of its channel. */
  lemma FollowersMore(followers: seq<Follower>, channels: set<Id>, agents: set<Id>, i: nat)
    requires i < |followers| <= FOLLOWER_CAP && ValidFollowers(followers[..i], channels, agents)
    requires followers[i].subscription.channel in channels && followers[i].subscription.agent in agents
    requires followers[i].subscription !in SubscriptionsOf(followers[..i])
    requires CountFor(followers[..i + 1], followers[i].subscription.channel) <= SUBSCRIBER_CAP
    ensures ValidFollowers(followers[..i + 1], channels, agents)
  {
    var less, more, last := followers[..i], followers[..i + 1], followers[i];
    assert more[..i] == less && more[i] == last;
    assert forall j :: 0 <= j < i ==> more[j] == less[j];
    forall j | 0 <= j < i ensures less[j].subscription != last.subscription && CountFor(more, less[j].subscription.channel) <= SUBSCRIBER_CAP {
      assert less[j].subscription in SubscriptionsOf(less);
      if less[j].subscription.channel != last.subscription.channel {
        assert CountFor(more, less[j].subscription.channel) == CountFor(less, less[j].subscription.channel);
      }
    }
  }

  /** A channel that is not in the map has been seen no times. */
  function CountAt(counts: map<Id, nat>, channel: Id): nat {
    if channel in counts then counts[channel] else 0
  }

  ghost predicate Counts(counts: map<Id, nat>, followers: seq<Follower>) {
    forall channel :: CountAt(counts, channel) == CountFor(followers, channel)
  }

  lemma CountsMore(counts: map<Id, nat>, followers: seq<Follower>, i: nat)
    requires i < |followers| && Counts(counts, followers[..i])
    ensures var channel := followers[i].subscription.channel;
            Counts(counts[channel := CountAt(counts, channel) + 1], followers[..i + 1])
  {
    hide CountFor;
    var last := followers[i];
    var after := counts[last.subscription.channel := CountAt(counts, last.subscription.channel) + 1];
    assert followers[..i + 1] == followers[..i] + [last];
    forall c ensures CountAt(after, c) == CountFor(followers[..i + 1], c) {
      CountAppend(followers[..i], last, c);
      assert CountAt(counts, c) == CountFor(followers[..i], c);
    }
  }

  lemma CountAppend(followers: seq<Follower>, last: Follower, channel: Id)
    ensures CountFor(followers + [last], channel) == CountFor(followers, channel) + if last.subscription.channel == channel then 1 else 0
  {
    assert (followers + [last])[..|followers|] == followers;
  }

  lemma SubscriptionsMore(followers: seq<Follower>, i: nat)
    requires i < |followers|
    ensures SubscriptionsOf(followers[..i + 1]) == SubscriptionsOf(followers[..i]) + {followers[i].subscription}
    ensures followers[i].subscription in SubscriptionsOf(followers[..i]) ==> exists j :: 0 <= j < i && followers[j].subscription == followers[i].subscription
  {
    var less, more := followers[..i], followers[..i + 1];
    assert more[..i] == less && more[i] == followers[i];
    assert forall j :: 0 <= j < i ==> more[j] == less[j] == followers[j];
    forall sub ensures sub in SubscriptionsOf(more) <==> sub in SubscriptionsOf(less) || sub == followers[i].subscription {
      if sub in SubscriptionsOf(less) {
        var j :| 0 <= j < |less| && less[j].subscription == sub;
        assert more[j].subscription == sub;
      }
    }
  }

  method CheckFollowers(followers: seq<Follower>, channels: set<Id>, agents: set<Id>) returns (ok: bool)
    ensures ok <==> ValidFollowers(followers, channels, agents)
  {
    if |followers| > FOLLOWER_CAP {
      return false;
    }
    hide ValidFollowers, CountFor, SubscriptionsOf;
    var seen: set<Subscription>, counts: map<Id, nat> := {}, map[];
    NoFollowers(followers, channels, agents);
    for i := 0 to |followers|
      invariant ValidFollowers(followers[..i], channels, agents)
      invariant seen == SubscriptionsOf(followers[..i]) && Counts(counts, followers[..i])
    {
      var sub := followers[i].subscription;
      CountsMore(counts, followers, i);
      SubscriptionsMore(followers, i);
      counts := counts[sub.channel := CountAt(counts, sub.channel) + 1];
      assert CountAt(counts, sub.channel) == CountFor(followers[..i + 1], sub.channel);
      if sub.channel !in channels || sub.agent !in agents || sub in seen || counts[sub.channel] > SUBSCRIBER_CAP {
        SpoilsFollowers(followers, channels, agents, i);
        return false;
      }
      FollowersMore(followers, channels, agents, i);
      seen := seen + {sub};
    }
    assert followers[..|followers|] == followers;
    ok := true;
  }

  lemma NoFollowers(followers: seq<Follower>, channels: set<Id>, agents: set<Id>)
    ensures ValidFollowers(followers[..0], channels, agents) && SubscriptionsOf(followers[..0]) == {} && Counts(map[], followers[..0])
  {
  }

  function PostKeysOf(posts: seq<Entry<ArchivedPost>>): set<(Participant, Id)> {
    set i | 0 <= i < |posts| && posts[i].row.key.Some? :: (posts[i].row.author, posts[i].row.key.value)
  }

  lemma PostKeysMore(posts: seq<Entry<ArchivedPost>>, i: nat)
    requires i < |posts|
    ensures PostKeysOf(posts[..i + 1]) == PostKeysOf(posts[..i]) + if posts[i].row.key.Some? then {(posts[i].row.author, posts[i].row.key.value)} else {}
    ensures posts[i].row.key.Some? ==>
              ((posts[i].row.author, posts[i].row.key.value) in PostKeysOf(posts[..i]) <==> exists j :: 0 <= j < i && SamePostKey(posts[j].row, posts[i].row))
  {
    var more, less := posts[..i + 1], posts[..i];
    assert more[..i] == less && more[i] == posts[i];
    assert forall j :: 0 <= j < i ==> more[j] == less[j] == posts[j];
    forall key ensures key in PostKeysOf(more) <==> key in PostKeysOf(less) || (posts[i].row.key.Some? && key == (posts[i].row.author, posts[i].row.key.value)) {
      if key in PostKeysOf(less) {
        var j :| 0 <= j < |less| && less[j].row.key.Some? && (less[j].row.author, less[j].row.key.value) == key;
        assert more[j].row.key.Some?;
      }
    }
    if posts[i].row.key.Some? {
      var key := (posts[i].row.author, posts[i].row.key.value);
      if key in PostKeysOf(less) {
        var j :| 0 <= j < |less| && less[j].row.key.Some? && (less[j].row.author, less[j].row.key.value) == key;
        assert SamePostKey(posts[j].row, posts[i].row);
      }
      if j :| 0 <= j < i && SamePostKey(posts[j].row, posts[i].row) {
        assert less[j].row.key.Some? && (less[j].row.author, less[j].row.key.value) == key;
      }
    }
  }

  method CheckPosts(posts: seq<Entry<ArchivedPost>>, channels: set<Id>, agents: set<Id>) returns (ok: bool)
    ensures ok <==> ValidPosts(posts, channels, agents)
  {
    var unique, _ := CheckIds(posts);
    if !unique || |posts| > POST_CAP {
      return false;
    }
    var keys := {};
    for i := 0 to |posts|
      invariant forall j :: 0 <= j < i ==> KnownPost(posts[j].row, channels, agents)
      invariant forall j, k :: 0 <= j < k < i ==> !SamePostKey(posts[j].row, posts[k].row)
      invariant keys == PostKeysOf(posts[..i])
    {
      var p := posts[i].row;
      PostKeysMore(posts, i);
      if !KnownPost(p, channels, agents) {
        return false;
      }
      if p.key.Some? {
        if (p.author, p.key.value) in keys {
          var j :| 0 <= j < i && SamePostKey(posts[j].row, posts[i].row);
          return false;
        }
        keys := keys + {(p.author, p.key.value)};
      }
    }
    ok := true;
  }

  /** bus/channels_archive.go validateArchivedChannels. */
  method Validate(a: ChannelArchive, agents: set<Id>) returns (ok: bool)
    ensures ok <==> ValidChannelArchive(a, agents)
  {
    hide ValidChannels, ValidFollowers, ValidPosts, ValidThread, TableOf, IdsOf;
    var channelsOk, channels := CheckChannels(a.channels);
    if !channelsOk {
      return false;
    }
    var followersOk := CheckFollowers(a.followers, channels, agents);
    if !followersOk {
      return false;
    }
    var postsOk := CheckPosts(a.posts, channels, agents);
    if !postsOk {
      return false;
    }
    var table := TableOf(a.posts);
    for i := 0 to |a.posts|
      invariant forall j :: 0 <= j < i ==> ValidThread(table, a.posts[j].row)
    {
      if !ValidThread(table, a.posts[i].row) {
        return false;
      }
    }
    ok := true;
  }

  // ---- the import ----------------------------------------------------------------------------

  function FollowersTable(followers: seq<Follower>): map<Subscription, Time> {
    if followers == [] then map[] else
      FollowersTable(followers[..|followers| - 1])[followers[|followers| - 1].subscription := followers[|followers| - 1].since]
  }

  function PostTable(posts: seq<Entry<ArchivedPost>>): map<Id, Post> {
    map id | id in TableOf(posts) :: AsPost(TableOf(posts)[id])
  }

  /** The foreign key from a reply to its thread. */
  predicate MayInsert(table: map<Id, Post>, id: Id, p: ArchivedPost) {
    id !in table && (p.thread.Some? ==> p.thread.value in table)
  }

  /** The roots among the first posts of an archive, and the replies. */
  ghost predicate HoldsExactly(table: map<Id, Post>, posts: seq<Entry<ArchivedPost>>, roots: nat, replies: nat)
    requires roots <= |posts| && replies <= |posts|
  {
    && (forall i :: 0 <= i < |posts| ==> (posts[i].id in table <==> if posts[i].row.thread.None? then i < roots else i < replies))
    && (forall i :: 0 <= i < |posts| && posts[i].id in table ==> table[posts[i].id] == AsPost(posts[i].row))
    && (forall id :: id in table ==> id in IdsOf(posts))
  }

  lemma RootIsListed(posts: seq<Entry<ArchivedPost>>, i: nat) returns (j: nat)
    requires UniqueIds(posts) && ValidThreads(posts) && i < |posts| && posts[i].row.thread.Some?
    ensures j < |posts| && posts[j].id == posts[i].row.thread.value && posts[j].row.thread.None?
  {
    assert ValidThread(TableOf(posts), posts[i].row);
    j := TableRow(posts, posts[i].row.thread.value);
  }

  lemma InsertExact(table: map<Id, Post>, posts: seq<Entry<ArchivedPost>>, i: nat, roots: nat, replies: nat)
    requires UniqueIds(posts) && i < |posts| && roots <= |posts| && replies <= |posts| && HoldsExactly(table, posts, roots, replies)
    requires if posts[i].row.thread.None? then roots == i else replies == i
    ensures posts[i].id !in table
    ensures posts[i].row.thread.None? ==> HoldsExactly(table[posts[i].id := AsPost(posts[i].row)], posts, i + 1, replies)
    ensures posts[i].row.thread.Some? ==> HoldsExactly(table[posts[i].id := AsPost(posts[i].row)], posts, roots, i + 1)
  {
    forall j | 0 <= j < |posts| && j != i ensures posts[j].id != posts[i].id {
      assert if j < i then posts[j].id != posts[i].id else posts[i].id != posts[j].id;
    }
  }

  /** bus/channels_archive.go importChannels, its two passes over the posts. Whatever the order of a valid archive,
      no reply is written before its root. */
  method ImportPosts(posts: seq<Entry<ArchivedPost>>) returns (table: map<Id, Post>, ok: bool)
    requires UniqueIds(posts)
    ensures ValidThreads(posts) ==> ok && table == PostTable(posts)
  {
    table := map[];
    for i := 0 to |posts|
      invariant HoldsExactly(table, posts, i, 0)
    {
      if posts[i].row.thread.None? {
        InsertExact(table, posts, i, i, 0);
        if !MayInsert(table, posts[i].id, posts[i].row) {
          return table, false;
        }
        table := table[posts[i].id := AsPost(posts[i].row)];
      }
    }
    for i := 0 to |posts|
      invariant HoldsExactly(table, posts, |posts|, i)
    {
      if posts[i].row.thread.Some? {
        InsertExact(table, posts, i, |posts|, i);
        if !MayInsert(table, posts[i].id, posts[i].row) {
          if ValidThreads(posts) {
            ghost var j := RootIsListed(posts, i);
            assert false;
          }
          return table, false;
        }
        table := table[posts[i].id := AsPost(posts[i].row)];
      }
    }
    ok := true;
    TableIsWhole(table, posts);
  }

  lemma TableIsWhole(table: map<Id, Post>, posts: seq<Entry<ArchivedPost>>)
    requires UniqueIds(posts) && HoldsExactly(table, posts, |posts|, |posts|)
    ensures table == PostTable(posts)
  {
    TableIds(posts);
    forall id ensures id in table <==> id in TableOf(posts) {
      if id in TableOf(posts) {
        var i := TableRow(posts, id);
      }
    }
    forall id | id in table ensures table[id] == PostTable(posts)[id] {
      var i := TableRow(posts, id);
    }
  }

  // ---- the export ----------------------------------------------------------------------------

  function ArchivedPosts(posts: map<Id, Post>): map<Id, ArchivedPost> {
    map id | id in posts :: AsArchived(posts[id])
  }

  function PostTime(posts: map<Id, Post>): Id -> Time {
    (id: Id) => if id in posts then posts[id].createdAt else 0
  }

  /** The rows of a table that lists every subscription once. */
  ghost predicate ListsFollowers(followers: seq<Follower>, subscriptions: map<Subscription, Time>) {
    && (forall i :: 0 <= i < |followers| ==> followers[i].subscription in subscriptions && subscriptions[followers[i].subscription] == followers[i].since)
    && (forall sub :: sub in subscriptions ==> exists i :: 0 <= i < |followers| && followers[i].subscription == sub)
    && (forall i, j :: 0 <= i < j < |followers| ==> followers[i].subscription != followers[j].subscription)
  }

  /** bus/channels_archive.go exportChannels: channels by identifier, posts by time and identifier. */
  ghost predicate IsExport(h: Hub, a: ChannelArchive, world: World) {
    var channelRows := SortBy(world.order(h.channels.Keys), ById());
    var postRows := Listed(h.posts.Keys, PostTime(h.posts), world);
    && Lists(channelRows, h.channels.Keys) && Lists(postRows, h.posts.Keys)
    && (forall i :: 0 <= i < |channelRows| ==> channelRows[i] in h.channels)
    && (forall i :: 0 <= i < |postRows| ==> postRows[i] in ArchivedPosts(h.posts))
    && a.channels == Entries(h.channels, channelRows) && a.posts == Entries(ArchivedPosts(h.posts), postRows)
    && ListsFollowers(a.followers, h.subscriptions)
  }

  lemma ReadBackChannels(h: Hub, a: ChannelArchive, world: World)
    requires IsExport(h, a, world)
    ensures UniqueIds(a.channels) && TableOf(a.channels) == h.channels && IdsOf(a.channels) == h.channels.Keys
    ensures UniqueIds(a.posts) && TableOf(a.posts) == ArchivedPosts(h.posts)
  {
    ReadBack(h.channels, SortBy(world.order(h.channels.Keys), ById()));
    assert ArchivedPosts(h.posts).Keys == h.posts.Keys;
    ReadBack(ArchivedPosts(h.posts), Listed(h.posts.Keys, PostTime(h.posts), world));
    TableIds(a.channels);
  }

  lemma {:induction false} FollowersReadBack(followers: seq<Follower>, i: nat)
    requires forall j, k :: 0 <= j < k < |followers| ==> followers[j].subscription != followers[k].subscription
    requires i < |followers|
    ensures followers[i].subscription in FollowersTable(followers) && FollowersTable(followers)[followers[i].subscription] == followers[i].since
  {
    if i < |followers| - 1 {
      FollowersReadBack(followers[..|followers| - 1], i);
    }
  }

  lemma {:induction false} FollowersKeys(followers: seq<Follower>)
    ensures FollowersTable(followers).Keys == SubscriptionsOf(followers)
  {
    if followers != [] {
      var init, last := followers[..|followers| - 1], followers[|followers| - 1];
      FollowersKeys(init);
      assert SubscriptionsOf(followers) == SubscriptionsOf(init) + {last.subscription};
    }
  }

  lemma FollowersAreBack(followers: seq<Follower>, subscriptions: map<Subscription, Time>)
    requires ListsFollowers(followers, subscriptions)
    ensures FollowersTable(followers) == subscriptions
  {
    FollowersKeys(followers);
    forall sub ensures sub in SubscriptionsOf(followers) <==> sub in subscriptions {
    }
    forall sub | sub in subscriptions ensures FollowersTable(followers)[sub] == subscriptions[sub] {
      var i :| 0 <= i < |followers| && followers[i].subscription == sub;
      FollowersReadBack(followers, i);
    }
  }

  /** The subscribers of one channel among a list without repeats. */
  function AgentsFor(followers: seq<Follower>, channel: Id): set<Id> {
    set i | 0 <= i < |followers| && followers[i].subscription.channel == channel :: followers[i].subscription.agent
  }

  lemma {:induction false} CountIsSize(followers: seq<Follower>, channel: Id)
    requires forall j, k :: 0 <= j < k < |followers| ==> followers[j].subscription != followers[k].subscription
    ensures CountFor(followers, channel) == |AgentsFor(followers, channel)|
  {
    if followers == [] {
      assert AgentsFor(followers, channel) == {};
    } else {
      CountIsSize(followers[..|followers| - 1], channel);
      AgentsMore(followers, channel);
    }
  }

  lemma AgentsMore(followers: seq<Follower>, channel: Id)
    requires followers != [] && forall j, k :: 0 <= j < k < |followers| ==> followers[j].subscription != followers[k].subscription
    ensures var init, last := followers[..|followers| - 1], followers[|followers| - 1].subscription;
            |AgentsFor(followers, channel)| == |AgentsFor(init, channel)| + if last.channel == channel then 1 else 0
  {
    var init, last := followers[..|followers| - 1], followers[|followers| - 1].subscription;
    forall agent ensures agent in AgentsFor(followers, channel) <==> agent in AgentsFor(init, channel) || last == Subscription(channel, agent) {
    }
    if last.channel == channel {
      assert AgentsFor(followers, channel) == AgentsFor(init, channel) + {last.agent};
      assert last.agent !in AgentsFor(init, channel);
    } else {
      assert AgentsFor(followers, channel) == AgentsFor(init, channel);
    }
  }

  lemma AgentsForAreSubscribers(followers: seq<Follower>, subscriptions: map<Subscription, Time>, channel: Id)
    requires ListsFollowers(followers, subscriptions)
    ensures AgentsFor(followers, channel) == Subscribers(subscriptions, channel)
  {
    forall agent | agent in Subscribers(subscriptions, channel) ensures agent in AgentsFor(followers, channel) {
      var i :| 0 <= i < |followers| && followers[i].subscription == Subscription(channel, agent);
    }
  }

  function ChannelsOf(followers: seq<Follower>): set<Id> {
    set i | 0 <= i < |followers| :: followers[i].subscription.channel
  }

  /** Rows grouped by channel: no more than the channels times the most that one may have. */
  lemma {:induction false} FollowersFit(followers: seq<Follower>, channels: set<Id>)
    requires ChannelsOf(followers) <= channels
    requires forall c :: c in channels ==> CountFor(followers, c) <= SUBSCRIBER_CAP
    ensures |followers| <= SUBSCRIBER_CAP * |channels|
    decreases |channels|
  {
    assert |followers| > 0 ==> followers[0].subscription.channel in ChannelsOf(followers);
    if channels != {} {
      var c :| c in channels;
      var others := Without(followers, c);
      WithoutCounts(followers, c);
      FollowersFit(others, channels - {c});
    }
  }

  function Without(followers: seq<Follower>, channel: Id): seq<Follower> {
    if followers == [] then [] else
      Without(followers[..|followers| - 1], channel)
      + if followers[|followers| - 1].subscription.channel == channel then [] else [followers[|followers| - 1]]
  }

  lemma {:induction false} WithoutCounts(followers: seq<Follower>, channel: Id)
    ensures |Without(followers, channel)| + CountFor(followers, channel) == |followers|
    ensures forall i :: 0 <= i < |Without(followers, channel)| ==> Without(followers, channel)[i].subscription.channel != channel && Without(followers, channel)[i] in followers
    ensures forall c :: c != channel ==> CountFor(Without(followers, channel), c) == CountFor(followers, c)
  {
    hide CountFor;
    if followers == [] {
      assert forall c :: CountFor(followers, c) == 0 by { NoCount(followers); }
    } else {
      var init, last := followers[..|followers| - 1], followers[|followers| - 1];
      WithoutCounts(init, channel);
      assert followers == init + [last];
      forall c ensures CountFor(followers, c) == CountFor(init, c) + if last.subscription.channel == c then 1 else 0 {
        CountAppend(init, last, c);
      }
      if last.subscription.channel != channel {
        forall c ensures CountFor(Without(followers, channel), c) == CountFor(Without(init, channel), c) + if last.subscription.channel == c then 1 else 0 {
          CountAppend(Without(init, channel), last, c);
        }
      } else {
        assert Without(followers, channel) == Without(init, channel);
      }
    }
  }

  lemma NoCount(followers: seq<Follower>)
    requires followers == []
    ensures forall c :: CountFor(followers, c) == 0
  {
  }

  lemma ExportedFollowers(h: Hub, a: ChannelArchive, world: World)
    requires Sound(h) && IsExport(h, a, world)
    ensures ValidFollowers(a.followers, h.channels.Keys, h.scope.agents.Keys)
  {
    hide Inv, Threaded, KeysDiffer, PostRows, Subscribers, CountFor, IsExport;
    ExportLists(h, a, world);
    forall channel ensures CountFor(a.followers, channel) <= SUBSCRIBER_CAP {
      CountIsSize(a.followers, channel);
      AgentsForAreSubscribers(a.followers, h.subscriptions, channel);
    }
    assert |h.channels.Keys| == |h.channels|;
    FollowersFit(a.followers, h.channels.Keys);
  }

  lemma ExportedPosts(h: Hub, a: ChannelArchive, world: World)
    requires Sound(h) && IsExport(h, a, world)
    ensures ValidPosts(a.posts, h.channels.Keys, h.scope.agents.Keys) && ValidThreads(a.posts)
  {
    hide Inv, ChannelRows, SubscriptionRows, PostRows, Threaded, KeysDiffer, TableOf, Listed, UniqueIds;
    ReadBackChannels(h, a, world);
    ListedSize(Listed(h.posts.Keys, PostTime(h.posts), world), h.posts.Keys);
    assert |h.posts.Keys| == |h.posts|;
    forall i | 0 <= i < |a.posts| ensures a.posts[i].id in h.posts && a.posts[i].row == AsArchived(h.posts[a.posts[i].id]) {
    }
    PostRowsAreValid(h, a.posts);
  }

  lemma PostRowsAreValid(h: Hub, posts: seq<Entry<ArchivedPost>>)
    requires PostRows(h.posts, h.channels, h.scope.agents) && Threaded(h.posts) && KeysDiffer(h.posts)
    requires UniqueIds(posts) && TableOf(posts) == ArchivedPosts(h.posts)
    requires forall i :: 0 <= i < |posts| ==> posts[i].id in h.posts && posts[i].row == AsArchived(h.posts[posts[i].id])
    ensures ValidThreads(posts)
    ensures forall i :: 0 <= i < |posts| ==> KnownPost(posts[i].row, h.channels.Keys, h.scope.agents.Keys)
    ensures forall i, j :: 0 <= i < j < |posts| ==> !SamePostKey(posts[i].row, posts[j].row)
  {
    hide TableOf;
    assert ValidThreads(posts) by {
      hide PostRows, KeysDiffer, UniqueIds;
    }
    assert forall i :: 0 <= i < |posts| ==> KnownPost(posts[i].row, h.channels.Keys, h.scope.agents.Keys) by {
      hide Threaded, KeysDiffer, UniqueIds;
    }
    forall i, j | 0 <= i < j < |posts| ensures !SamePostKey(posts[i].row, posts[j].row) {
      hide Threaded, PostRows;
      assert posts[i].id != posts[j].id;
    }
  }

  lemma ExportedChannels(h: Hub, a: ChannelArchive, world: World)
    requires Sound(h) && IsExport(h, a, world)
    ensures ValidChannels(a.channels)
  {
    hide Inv, PostRows, Threaded, KeysDiffer, SubscriptionRows, TableOf, SortBy;
    ReadBackChannels(h, a, world);
    ListedSize(SortBy(world.order(h.channels.Keys), ById()), h.channels.Keys);
    assert |h.channels.Keys| == |h.channels|;
  }

  /** What a sound hub exports is valid, and importing it gives back every channel, subscription and post,
      digests included. */
  lemma ChannelsRoundTrip(h: Hub, a: ChannelArchive, world: World)
    requires Sound(h) && IsExport(h, a, world)
    ensures ValidChannelArchive(a, h.scope.agents.Keys)
    ensures TableOf(a.channels) == h.channels && FollowersTable(a.followers) == h.subscriptions && PostTable(a.posts) == h.posts
  {
    hide Sound, IsExport, ValidChannels, ValidFollowers, ValidPosts, ValidThreads, TableOf, FollowersTable;
    ReadBackChannels(h, a, world);
    ExportedChannels(h, a, world);
    ExportedFollowers(h, a, world);
    ExportedPosts(h, a, world);
    FollowersAreBack(a.followers, h.subscriptions) by { ExportLists(h, a, world); }
    DigestsAreBack(h);
  }

  lemma ExportLists(h: Hub, a: ChannelArchive, world: World)
    requires IsExport(h, a, world)
    ensures ListsFollowers(a.followers, h.subscriptions)
  {
  }

  lemma DigestsAreBack(h: Hub)
    requires Sound(h)
    ensures (map id | id in ArchivedPosts(h.posts) :: AsPost(ArchivedPosts(h.posts)[id])) == h.posts
  {
    hide Inv, ChannelRows, SubscriptionRows, Threaded, KeysDiffer;
  }

  // ---- any valid archive ---------------------------------------------------------------------

  lemma {:induction false} TableFits<T>(entries: seq<Entry<T>>)
    ensures |TableOf(entries)| <= |entries|
  {
    if entries != [] {
      TableFits(entries[..|entries| - 1]);
    }
  }

  lemma ImportedChannelRows(entries: seq<Entry<Channel>>)
    requires ValidChannels(entries)
    ensures ChannelRows(TableOf(entries))
  {
    hide TableOf;
    TableFits(entries);
    forall x, y | x in TableOf(entries) && y in TableOf(entries) && TableOf(entries)[x].name == TableOf(entries)[y].name ensures x == y {
      var i, j := TwoRows(entries, x, y);
    }
  }

  lemma TwoRows<T>(entries: seq<Entry<T>>, x: Id, y: Id) returns (i: nat, j: nat)
    requires UniqueIds(entries) && x in TableOf(entries) && y in TableOf(entries)
    ensures i < |entries| && j < |entries| && entries[i] == Entry(x, TableOf(entries)[x]) && entries[j] == Entry(y, TableOf(entries)[y])
  {
    i := TableRow(entries, x);
    j := TableRow(entries, y);
  }

  lemma ImportedFollowers(followers: seq<Follower>, channels: map<Id, Channel>, agents: map<Id, AgentRow>)
    requires ValidFollowers(followers, channels.Keys, agents.Keys)
    ensures SubscriptionRows(FollowersTable(followers), channels, agents)
  {
    hide FollowersTable, CountFor, Subscribers;
    var table := FollowersTable(followers);
    FollowersKeys(followers);
    forall i | 0 <= i < |followers| ensures followers[i].subscription in table && table[followers[i].subscription] == followers[i].since {
      FollowersReadBack(followers, i);
    }
    assert ListsFollowers(followers, table);
    forall channel ensures |Subscribers(table, channel)| <= SUBSCRIBER_CAP {
      AgentsForAreSubscribers(followers, table, channel);
      CountIsSize(followers, channel);
      if CountFor(followers, channel) > 0 {
        CountedRow(followers, channel);
      }
    }
  }

  lemma {:induction false} CountedRow(followers: seq<Follower>, channel: Id)
    requires CountFor(followers, channel) > 0
    ensures exists i :: 0 <= i < |followers| && followers[i].subscription.channel == channel
  {
    if followers[|followers| - 1].subscription.channel != channel {
      CountedRow(followers[..|followers| - 1], channel);
      var i :| 0 <= i < |followers| - 1 && followers[..|followers| - 1][i].subscription.channel == channel;
      assert followers[i].subscription.channel == channel;
    }
  }

  lemma PostsFit(posts: seq<Entry<ArchivedPost>>)
    requires |posts| <= POST_CAP
    ensures |PostTable(posts)| <= POST_CAP
  {
    hide TableOf;
    TableFits(posts);
    assert PostTable(posts).Keys == TableOf(posts).Keys;
    assert |PostTable(posts).Keys| == |PostTable(posts)| && |TableOf(posts).Keys| == |TableOf(posts)|;
  }

  lemma ImportedPosts(posts: seq<Entry<ArchivedPost>>, channels: map<Id, Channel>, agents: map<Id, AgentRow>)
    requires ValidPosts(posts, channels.Keys, agents.Keys) && ValidThreads(posts)
    ensures PostRows(PostTable(posts), channels, agents) && Threaded(PostTable(posts)) && KeysDiffer(PostTable(posts)) && |PostTable(posts)| <= POST_CAP
  {
    hide TableOf;
    var table := PostTable(posts);
    PostsFit(posts);
    forall id | id in table ensures KnownPost(TableOf(posts)[id], channels.Keys, agents.Keys) && ValidThread(TableOf(posts), TableOf(posts)[id]) {
      var i, j := TwoRows(posts, id, id);
    }
    assert forall i, j :: 0 <= i < |posts| && 0 <= j < |posts| && SamePostKey(posts[i].row, posts[j].row) ==> i == j by {
      assert forall i, j :: 0 <= i < |posts| && 0 <= j < |posts| && SamePostKey(posts[i].row, posts[j].row) ==> SamePostKey(posts[j].row, posts[i].row);
    }
    forall x, y | x in table && y in table && table[x].key.Some? && table[x].key == table[y].key && table[x].author == table[y].author ensures x == y {
      var i, j := TwoRows(posts, x, y);
    }
  }

  /** Whatever the validator accepts, written by an export or by hand, is imported into a sound set of channels. */
  lemma ValidImportsSound(a: ChannelArchive, scope: Scope, minted: set<Id>)
    requires ValidChannelArchive(a, scope.agents.Keys) && Inv(scope)
    requires IdsOf(a.channels) + IdsOf(a.posts) <= minted
    ensures Sound(Hub(scope, TableOf(a.channels), FollowersTable(a.followers), PostTable(a.posts), minted))
  {
    hide Inv, TableOf, FollowersTable, ValidChannels, ValidFollowers, ValidPosts, ValidThreads, ChannelRows, SubscriptionRows, PostRows, Threaded, KeysDiffer;
    TableIds(a.channels);
    TableIds(a.posts);
    ImportedChannelRows(a.channels);
    ImportedFollowers(a.followers, TableOf(a.channels), scope.agents);
    ImportedPosts(a.posts, TableOf(a.channels), scope.agents);
  }
}
