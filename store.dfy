/** The whole schema as one value: a table (id to row) per entity, the four
    many-to-many relationships, and the id counter. `Consistent` is the
    conjunction of every constraint the schema declares; each transition
    below either refuses a change and returns the tables untouched, or makes
    it and keeps `Consistent`. */
module Store {
  import opened Schema
  import opened Relationships

  datatype Tables = Tables(
    users: map<Id, User>,
    collections: map<Id, Collection>,
    feeds: map<Id, Feed>,
    feedLinks: map<Id, FeedLink>,
    subscriptions: map<Id, Subscription>,
    items: map<Id, Item>,
    subscriptionItems: map<Id, SubscriptionItem>,
    itemLinks: map<Id, ItemLink>,
    channels: map<Id, Channel>,
    tags: map<Id, Tag>,
    // Subscription.items (left) and Item.subscription (right)
    itemMembership: Relationship,
    // Subscription.unread (left) and Item.unread (right)
    unreadMembership: Relationship,
    // Collection.items (left) and Item.collections (right)
    collectionMembership: Relationship,
    // Channel.subscriptions (left) and Subscription.channels (right)
    channelMembership: Relationship,
    // the next surrogate key to hand out
    nextId: Id)

  /** The tables after a change, and what the change returned. */
  datatype Step<T> = Step(after: Tables, result: Result<T>)

  // ---------------------------------------------------------------------
  // Constraints

  ghost predicate Below<V>(m: map<Id, V>, n: Id)
  {
    forall id :: id in m ==> id < n
  }

  /** Every id in use is smaller than the counter, so the counter is fresh. */
  ghost predicate IdsFresh(t: Tables)
  {
    && Below(t.users, t.nextId) && Below(t.collections, t.nextId)
    && Below(t.feeds, t.nextId) && Below(t.feedLinks, t.nextId)
    && Below(t.subscriptions, t.nextId) && Below(t.items, t.nextId)
    && Below(t.subscriptionItems, t.nextId) && Below(t.itemLinks, t.nextId)
    && Below(t.channels, t.nextId) && Below(t.tags, t.nextId)
  }

  /** Every row has its side of each relationship its entity takes part
      in, no other side exists, and the two attributes of every pair agree. */
  ghost predicate RelationshipsSpan(t: Tables)
  {
    && t.itemMembership.Spans(t.subscriptions.Keys, t.items.Keys)
    && t.unreadMembership.Spans(t.subscriptions.Keys, t.items.Keys)
    && t.collectionMembership.Spans(t.collections.Keys, t.items.Keys)
    && t.channelMembership.Spans(t.channels.Keys, t.subscriptions.Keys)
  }

  // Required references (and an Item's optional feed) name existing rows.

  ghost predicate CollectionRefs(collections: map<Id, Collection>, users: map<Id, User>)
  {
    forall c :: c in collections ==> collections[c].user in users
  }

  ghost predicate FeedLinkRefs(feedLinks: map<Id, FeedLink>, feeds: map<Id, Feed>)
  {
    forall l :: l in feedLinks ==> feedLinks[l].feed in feeds
  }

  ghost predicate SubscriptionRefs(subscriptions: map<Id, Subscription>, users: map<Id, User>, feeds: map<Id, Feed>)
  {
    forall s :: s in subscriptions ==> subscriptions[s].user in users && subscriptions[s].feed in feeds
  }

  /** An item's feed is optional, but when set it names an existing feed. */
  ghost predicate ItemRefs(items: map<Id, Item>, feeds: map<Id, Feed>)
  {
    forall i :: i in items && items[i].feed.Some? ==> items[i].feed.value in feeds
  }

  ghost predicate SubscriptionItemRefs(rows: map<Id, SubscriptionItem>, subscriptions: map<Id, Subscription>, items: map<Id, Item>)
  {
    forall x :: x in rows ==> rows[x].subscription in subscriptions && rows[x].item in items
  }

  ghost predicate ItemLinkRefs(itemLinks: map<Id, ItemLink>, items: map<Id, Item>)
  {
    forall l :: l in itemLinks ==> itemLinks[l].item in items
  }

  ghost predicate ChannelRefs(channels: map<Id, Channel>, users: map<Id, User>)
  {
    forall c :: c in channels ==> channels[c].user in users
  }

  ghost predicate TagRefs(tags: map<Id, Tag>, subscriptions: map<Id, Subscription>)
  {
    forall g :: g in tags ==> tags[g].subscription in subscriptions
  }

  ghost predicate ReferencesExist(t: Tables)
  {
    && CollectionRefs(t.collections, t.users)
    && FeedLinkRefs(t.feedLinks, t.feeds)
    && SubscriptionRefs(t.subscriptions, t.users, t.feeds)
    && ItemRefs(t.items, t.feeds)
    && SubscriptionItemRefs(t.subscriptionItems, t.subscriptions, t.items)
    && ItemLinkRefs(t.itemLinks, t.items)
    && ChannelRefs(t.channels, t.users)
    && TagRefs(t.tags, t.subscriptions)
  }

  /** Some feed already has this `feed_url`. */
  predicate FeedUrlTaken(feeds: map<Id, Feed>, url: string)
  {
    exists f :: f in feeds && feeds[f].feedUrl == url
  }

  /** `feed_url` is unique. */
  ghost predicate FeedUrlUnique(feeds: map<Id, Feed>)
  {
    forall f, g :: f in feeds && g in feeds && feeds[f].feedUrl == feeds[g].feedUrl ==> f == g
  }

  /** Some subscription already binds this user to this feed. */
  predicate SubscriptionTaken(subscriptions: map<Id, Subscription>, user: Id, feed: Id)
  {
    exists s :: s in subscriptions && subscriptions[s].user == user && subscriptions[s].feed == feed
  }

  /** (user, feed) is a key of Subscription. */
  ghost predicate SubscriptionPairUnique(subscriptions: map<Id, Subscription>)
  {
    forall a, b ::
      a in subscriptions && b in subscriptions
      && subscriptions[a].user == subscriptions[b].user
      && subscriptions[a].feed == subscriptions[b].feed
      ==> a == b
  }

  /** Some SubscriptionItem already joins this subscription and this item. */
  predicate SubscriptionItemTaken(rows: map<Id, SubscriptionItem>, subscription: Id, item: Id)
  {
    exists x :: x in rows && rows[x].subscription == subscription && rows[x].item == item
  }

  /** (subscription, item) is a key of SubscriptionItem. */
  ghost predicate SubscriptionItemPairUnique(rows: map<Id, SubscriptionItem>)
  {
    forall a, b ::
      a in rows && b in rows
      && rows[a].subscription == rows[b].subscription
      && rows[a].item == rows[b].item
      ==> a == b
  }

  /** Some tag of this subscription already has this term. */
  predicate TagTaken(tags: map<Id, Tag>, subscription: Id, term: string)
  {
    exists g :: g in tags && tags[g].subscription == subscription && tags[g].term == term
  }

  /** (subscription, term) is a key of Tag. */
  ghost predicate TagTermUnique(tags: map<Id, Tag>)
  {
    forall a, b ::
      a in tags && b in tags
      && tags[a].subscription == tags[b].subscription
      && tags[a].term == tags[b].term
      ==> a == b
  }

  /** An item of subscription `s` other than `i` already carries `guid`. */
  predicate GuidTaken(items: map<Id, Item>, m: Relationship, s: Id, guid: string, i: Id)
  {
    exists j :: j in items && m.Has(s, j) && j != i && items[j].guid == guid
  }

  /** (subscription, guid) is a key of Item: no two items held by the same
      subscription share a guid. */
  ghost predicate GuidUniquePerSubscription(items: map<Id, Item>, m: Relationship)
  {
    forall s, i, j ::
      i in items && j in items && m.Has(s, i) && m.Has(s, j) && items[i].guid == items[j].guid
      ==> i == j
  }

  ghost predicate KeysUnique(t: Tables)
  {
    && FeedUrlUnique(t.feeds)
    && SubscriptionPairUnique(t.subscriptions)
    && SubscriptionItemPairUnique(t.subscriptionItems)
    && TagTermUnique(t.tags)
    && GuidUniquePerSubscription(t.items, t.itemMembership)
  }

  // No Required(str) attribute holds the empty string.

  ghost predicate UsersFilled(users: map<Id, User>) { forall u :: u in users ==> users[u].HasRequired() }
  ghost predicate CollectionsFilled(collections: map<Id, Collection>) { forall c :: c in collections ==> collections[c].HasRequired() }
  ghost predicate FeedsFilled(feeds: map<Id, Feed>) { forall f :: f in feeds ==> feeds[f].HasRequired() }
  ghost predicate FeedLinksFilled(feedLinks: map<Id, FeedLink>) { forall l :: l in feedLinks ==> feedLinks[l].HasRequired() }
  ghost predicate ItemsFilled(items: map<Id, Item>) { forall i :: i in items ==> items[i].HasRequired() }
  ghost predicate ItemLinksFilled(itemLinks: map<Id, ItemLink>) { forall l :: l in itemLinks ==> itemLinks[l].HasRequired() }
  ghost predicate ChannelsFilled(channels: map<Id, Channel>) { forall c :: c in channels ==> channels[c].HasRequired() }
  ghost predicate TagsFilled(tags: map<Id, Tag>) { forall g :: g in tags ==> tags[g].HasRequired() }

  ghost predicate RequiredFilled(t: Tables)
  {
    && UsersFilled(t.users) && CollectionsFilled(t.collections)
    && FeedsFilled(t.feeds) && FeedLinksFilled(t.feedLinks)
    && ItemsFilled(t.items) && ItemLinksFilled(t.itemLinks)
    && ChannelsFilled(t.channels) && TagsFilled(t.tags)
  }

  /** Every constraint the schema declares. */
  ghost predicate Consistent(t: Tables)
  {
    && IdsFresh(t)
    && RelationshipsSpan(t)
    && ReferencesExist(t)
    && KeysUnique(t)
    && RequiredFilled(t)
  }

  /** `after` is `before` with one more row, under an id `before` did not use. */
  ghost predicate Added<V>(before: map<Id, V>, after: map<Id, V>, id: Id, row: V)
  {
    id !in before && after == before[id := row]
  }

  /** A database with no rows. */
  function Empty(): (t: Tables)
    ensures Consistent(t)
    ensures t.users == map[] && t.collections == map[] && t.feeds == map[] && t.feedLinks == map[]
    ensures t.subscriptions == map[] && t.items == map[] && t.subscriptionItems == map[]
    ensures t.itemLinks == map[] && t.channels == map[] && t.tags == map[]
    ensures t.itemMembership == Relationship(map[], map[]) && t.unreadMembership == Relationship(map[], map[])
    ensures t.collectionMembership == Relationship(map[], map[]) && t.channelMembership == Relationship(map[], map[])
  {
    var none := Relationship(map[], map[]);
    Tables(map[], map[], map[], map[], map[], map[], map[], map[], map[], map[],
           none, none, none, none, 0)
  }

  // ---------------------------------------------------------------------
  // Inserting rows. A row is created with no relationship members.

  // The state after a row that takes part in relationships is stored under
  // the next id, with an empty set on each relationship it belongs to.

  function WithCollection(t: Tables, c: Collection): Tables
    requires IdsFresh(t) && RelationshipsSpan(t)
  {
    var id := t.nextId;
    t.(collections := t.collections[id := c],
       collectionMembership := t.collectionMembership.AddLeft(id),
       nextId := id + 1)
  }

  function WithSubscription(t: Tables, r: Subscription): Tables
    requires IdsFresh(t) && RelationshipsSpan(t)
  {
    var id := t.nextId;
    t.(subscriptions := t.subscriptions[id := r],
       itemMembership := t.itemMembership.AddLeft(id),
       unreadMembership := t.unreadMembership.AddLeft(id),
       channelMembership := t.channelMembership.AddRight(id),
       nextId := id + 1)
  }

  function WithItem(t: Tables, i: Item): Tables
    requires IdsFresh(t) && RelationshipsSpan(t)
  {
    var id := t.nextId;
    t.(items := t.items[id := i],
       itemMembership := t.itemMembership.AddRight(id),
       unreadMembership := t.unreadMembership.AddRight(id),
       collectionMembership := t.collectionMembership.AddRight(id),
       nextId := id + 1)
  }

  function WithChannel(t: Tables, c: Channel): Tables
    requires IdsFresh(t) && RelationshipsSpan(t)
  {
    var id := t.nextId;
    t.(channels := t.channels[id := c],
       channelMembership := t.channelMembership.AddLeft(id),
       nextId := id + 1)
  }

  function InsertUser(t: Tables, u: User): (s: Step<Id>)
    requires IdsFresh(t)
    ensures s.result == Err(MissingRequired) <==> !u.HasRequired()
    ensures s.result.Ok? <==> u.HasRequired()
    ensures s.result.Err? ==> s.after == t
    ensures s.result.Ok? ==>
              && Added(t.users, s.after.users, s.result.value, u)
              && s.after == t.(users := s.after.users, nextId := s.after.nextId)
  {
    if !u.HasRequired() then Step(t, Err(MissingRequired))
    else Step(t.(users := t.users[t.nextId := u], nextId := t.nextId + 1), Ok(t.nextId))
  }

  function InsertCollection(t: Tables, c: Collection): (s: Step<Id>)
    requires IdsFresh(t) && RelationshipsSpan(t)
    ensures s.result == Err(NotFound) <==> c.user !in t.users
    ensures s.result == Err(MissingRequired) <==> c.user in t.users && !c.HasRequired()
    ensures s.result.Ok? <==> c.user in t.users && c.HasRequired()
    ensures s.result.Err? ==> s.after == t
    ensures s.result.Ok? ==>
              && Added(t.collections, s.after.collections, s.result.value, c)
              && SamePairs(s.after.collectionMembership, t.collectionMembership)
              && s.after == t.(collections := s.after.collections,
                               collectionMembership := s.after.collectionMembership,
                               nextId := s.after.nextId)
  {
    if c.user !in t.users then Step(t, Err(NotFound))
    else if !c.HasRequired() then Step(t, Err(MissingRequired))
    else Step(WithCollection(t, c), Ok(t.nextId))
  }

  function InsertFeed(t: Tables, f: Feed): (s: Step<Id>)
    requires IdsFresh(t)
    ensures s.result == Err(MissingRequired) <==> !f.HasRequired()
    ensures s.result == Err(DuplicateKey) <==> f.HasRequired() && FeedUrlTaken(t.feeds, f.feedUrl)
    ensures s.result.Ok? <==> f.HasRequired() && !FeedUrlTaken(t.feeds, f.feedUrl)
    ensures s.result.Err? ==> s.after == t
    ensures s.result.Ok? ==>
              && Added(t.feeds, s.after.feeds, s.result.value, f)
              && s.after == t.(feeds := s.after.feeds, nextId := s.after.nextId)
  {
    if !f.HasRequired() then Step(t, Err(MissingRequired))
    else if FeedUrlTaken(t.feeds, f.feedUrl) then Step(t, Err(DuplicateKey))
    else Step(t.(feeds := t.feeds[t.nextId := f], nextId := t.nextId + 1), Ok(t.nextId))
  }

  /** (feed, rel) is only an index: links sharing a rel are all accepted. */
  function InsertFeedLink(t: Tables, l: FeedLink): (s: Step<Id>)
    requires IdsFresh(t)
    ensures s.result == Err(NotFound) <==> l.feed !in t.feeds
    ensures s.result == Err(MissingRequired) <==> l.feed in t.feeds && !l.HasRequired()
    ensures s.result.Ok? <==> l.feed in t.feeds && l.HasRequired()
    ensures s.result.Err? ==> s.after == t
    ensures s.result.Ok? ==>
              && Added(t.feedLinks, s.after.feedLinks, s.result.value, l)
              && s.after == t.(feedLinks := s.after.feedLinks, nextId := s.after.nextId)
  {
    if l.feed !in t.feeds then Step(t, Err(NotFound))
    else if !l.HasRequired() then Step(t, Err(MissingRequired))
    else Step(t.(feedLinks := t.feedLinks[t.nextId := l], nextId := t.nextId + 1), Ok(t.nextId))
  }

  function InsertSubscription(t: Tables, r: Subscription): (s: Step<Id>)
    requires IdsFresh(t) && RelationshipsSpan(t)
    ensures s.result == Err(NotFound) <==> r.user !in t.users || r.feed !in t.feeds
    ensures s.result == Err(DuplicateKey) <==>
              r.user in t.users && r.feed in t.feeds && SubscriptionTaken(t.subscriptions, r.user, r.feed)
    ensures s.result.Ok? <==>
              r.user in t.users && r.feed in t.feeds && !SubscriptionTaken(t.subscriptions, r.user, r.feed)
    ensures s.result.Err? ==> s.after == t
    ensures s.result.Ok? ==>
              && Added(t.subscriptions, s.after.subscriptions, s.result.value, r)
              && SamePairs(s.after.itemMembership, t.itemMembership)
              && SamePairs(s.after.unreadMembership, t.unreadMembership)
              && SamePairs(s.after.channelMembership, t.channelMembership)
              && s.after == t.(subscriptions := s.after.subscriptions,
                               itemMembership := s.after.itemMembership,
                               unreadMembership := s.after.unreadMembership,
                               channelMembership := s.after.channelMembership,
                               nextId := s.after.nextId)
  {
    if r.user !in t.users || r.feed !in t.feeds then Step(t, Err(NotFound))
    else if SubscriptionTaken(t.subscriptions, r.user, r.feed) then Step(t, Err(DuplicateKey))
    else Step(WithSubscription(t, r), Ok(t.nextId))
  }

  /** A new item belongs to no subscription yet, so the (subscription, guid)
      key cannot refuse it here; it is checked when the item is added to one. */
  function InsertItem(t: Tables, i: Item): (s: Step<Id>)
    requires IdsFresh(t) && RelationshipsSpan(t)
    ensures s.result == Err(NotFound) <==> i.feed.Some? && i.feed.value !in t.feeds
    ensures s.result == Err(MissingRequired) <==>
              (i.feed.None? || i.feed.value in t.feeds) && !i.HasRequired()
    ensures s.result.Ok? <==> (i.feed.None? || i.feed.value in t.feeds) && i.HasRequired()
    ensures s.result.Err? ==> s.after == t
    ensures s.result.Ok? ==>
              && Added(t.items, s.after.items, s.result.value, i)
              && SamePairs(s.after.itemMembership, t.itemMembership)
              && SamePairs(s.after.unreadMembership, t.unreadMembership)
              && SamePairs(s.after.collectionMembership, t.collectionMembership)
              && s.after == t.(items := s.after.items,
                               itemMembership := s.after.itemMembership,
                               unreadMembership := s.after.unreadMembership,
                               collectionMembership := s.after.collectionMembership,
                               nextId := s.after.nextId)
  {
    if i.feed.Some? && i.feed.value !in t.feeds then Step(t, Err(NotFound))
    else if !i.HasRequired() then Step(t, Err(MissingRequired))
    else Step(WithItem(t, i), Ok(t.nextId))
  }

  /** `unread` is the value supplied, if any; the declared default is true. */
  function InsertSubscriptionItem(t: Tables, subscription: Id, item: Id, unread: Option<bool>): (s: Step<Id>)
    requires IdsFresh(t)
    ensures s.result == Err(NotFound) <==> subscription !in t.subscriptions || item !in t.items
    ensures s.result == Err(DuplicateKey) <==>
              subscription in t.subscriptions && item in t.items
              && SubscriptionItemTaken(t.subscriptionItems, subscription, item)
    ensures s.result.Ok? <==>
              subscription in t.subscriptions && item in t.items
              && !SubscriptionItemTaken(t.subscriptionItems, subscription, item)
    ensures s.result.Err? ==> s.after == t
    ensures s.result.Ok? ==>
              // the row is unread unless the caller explicitly said otherwise
              && Added(t.subscriptionItems, s.after.subscriptionItems, s.result.value,
                       SubscriptionItem(subscription, item, unread != Some(false)))
              && s.after == t.(subscriptionItems := s.after.subscriptionItems, nextId := s.after.nextId)
  {
    if subscription !in t.subscriptions || item !in t.items then Step(t, Err(NotFound))
    else if SubscriptionItemTaken(t.subscriptionItems, subscription, item) then Step(t, Err(DuplicateKey))
    else
      var flag := if unread.Some? then unread.value else true;
      var row := SubscriptionItem(subscription, item, flag);
      Step(t.(subscriptionItems := t.subscriptionItems[t.nextId := row], nextId := t.nextId + 1),
           Ok(t.nextId))
  }

  /** (item, rel) is only an index: links sharing a rel are all accepted. */
  function InsertItemLink(t: Tables, l: ItemLink): (s: Step<Id>)
    requires IdsFresh(t)
    ensures s.result == Err(NotFound) <==> l.item !in t.items
    ensures s.result == Err(MissingRequired) <==> l.item in t.items && !l.HasRequired()
    ensures s.result.Ok? <==> l.item in t.items && l.HasRequired()
    ensures s.result.Err? ==> s.after == t
    ensures s.result.Ok? ==>
              && Added(t.itemLinks, s.after.itemLinks, s.result.value, l)
              && s.after == t.(itemLinks := s.after.itemLinks, nextId := s.after.nextId)
  {
    if l.item !in t.items then Step(t, Err(NotFound))
    else if !l.HasRequired() then Step(t, Err(MissingRequired))
    else Step(t.(itemLinks := t.itemLinks[t.nextId := l], nextId := t.nextId + 1), Ok(t.nextId))
  }

  /** The sort order and the expiration policy are stored as given: the
      columns are plain integers and nothing range-checks them. */
  function InsertChannel(t: Tables, c: Channel): (s: Step<Id>)
    requires IdsFresh(t) && RelationshipsSpan(t)
    ensures s.result == Err(NotFound) <==> c.user !in t.users
    ensures s.result == Err(MissingRequired) <==> c.user in t.users && !c.HasRequired()
    ensures s.result.Ok? <==> c.user in t.users && c.HasRequired()
    ensures s.result.Err? ==> s.after == t
    ensures s.result.Ok? ==>
              && Added(t.channels, s.after.channels, s.result.value, c)
              && SamePairs(s.after.channelMembership, t.channelMembership)
              && s.after == t.(channels := s.after.channels,
                               channelMembership := s.after.channelMembership,
                               nextId := s.after.nextId)
  {
    if c.user !in t.users then Step(t, Err(NotFound))
    else if !c.HasRequired() then Step(t, Err(MissingRequired))
    else Step(WithChannel(t, c), Ok(t.nextId))
  }

  function InsertTag(t: Tables, g: Tag): (s: Step<Id>)
    requires IdsFresh(t)
    ensures s.result == Err(NotFound) <==> g.subscription !in t.subscriptions
    ensures s.result == Err(MissingRequired) <==> g.subscription in t.subscriptions && !g.HasRequired()
    ensures s.result == Err(DuplicateKey) <==>
              g.subscription in t.subscriptions && g.HasRequired() && TagTaken(t.tags, g.subscription, g.term)
    ensures s.result.Ok? <==>
              g.subscription in t.subscriptions && g.HasRequired() && !TagTaken(t.tags, g.subscription, g.term)
    ensures s.result.Err? ==> s.after == t
    ensures s.result.Ok? ==>
              && Added(t.tags, s.after.tags, s.result.value, g)
              && s.after == t.(tags := s.after.tags, nextId := s.after.nextId)
  {
    if g.subscription !in t.subscriptions then Step(t, Err(NotFound))
    else if !g.HasRequired() then Step(t, Err(MissingRequired))
    else if TagTaken(t.tags, g.subscription, g.term) then Step(t, Err(DuplicateKey))
    else Step(t.(tags := t.tags[t.nextId := g], nextId := t.nextId + 1), Ok(t.nextId))
  }

  // ---------------------------------------------------------------------
  // Adding to and removing from relationship sets. Adding a member that is
  // already there, or removing one that is not, changes nothing.

  /** `subscription.items.add(item)`, mirrored in `item.subscription`; refused
      when another item of the subscription already has the same guid. */
  function AddItem(t: Tables, sub: Id, item: Id): (s: Step<()>)
    requires RelationshipsSpan(t)
    ensures s.result == Err(NotFound) <==> sub !in t.subscriptions || item !in t.items
    ensures s.result == Err(DuplicateKey) <==>
              sub in t.subscriptions && item in t.items
              && GuidTaken(t.items, t.itemMembership, sub, t.items[item].guid, item)
    ensures s.result.Ok? <==>
              sub in t.subscriptions && item in t.items
              && !GuidTaken(t.items, t.itemMembership, sub, t.items[item].guid, item)
    ensures s.result.Err? ==> s.after == t
    ensures s.result.Ok? ==>
              && s.after.itemMembership.Has(sub, item)
              && (forall x, y :: x != sub || y != item ==>
                    (s.after.itemMembership.Has(x, y) <==> t.itemMembership.Has(x, y)))
              && s.after == t.(itemMembership := s.after.itemMembership)
  {
    if sub !in t.subscriptions || item !in t.items then Step(t, Err(NotFound))
    else if GuidTaken(t.items, t.itemMembership, sub, t.items[item].guid, item) then Step(t, Err(DuplicateKey))
    else Step(t.(itemMembership := t.itemMembership.Link(sub, item)), Ok(()))
  }

  /** `subscription.items.remove(item)`, mirrored in `item.subscription`. */
  function RemoveItem(t: Tables, sub: Id, item: Id): (s: Step<()>)
    requires RelationshipsSpan(t)
    ensures s.result == Err(NotFound) <==> sub !in t.subscriptions || item !in t.items
    ensures s.result.Ok? <==> sub in t.subscriptions && item in t.items
    ensures s.result.Err? ==> s.after == t
    ensures s.result.Ok? ==>
              && !s.after.itemMembership.Has(sub, item)
              && (forall x, y :: x != sub || y != item ==>
                    (s.after.itemMembership.Has(x, y) <==> t.itemMembership.Has(x, y)))
              && s.after == t.(itemMembership := s.after.itemMembership)
  {
    if sub !in t.subscriptions || item !in t.items then Step(t, Err(NotFound))
    else Step(t.(itemMembership := t.itemMembership.Unlink(sub, item)), Ok(()))
  }

  /** `subscription.unread.add(item)`, mirrored in `item.unread`. */
  function AddUnread(t: Tables, sub: Id, item: Id): (s: Step<()>)
    requires RelationshipsSpan(t)
    ensures s.result == Err(NotFound) <==> sub !in t.subscriptions || item !in t.items
    ensures s.result.Ok? <==> sub in t.subscriptions && item in t.items
    ensures s.result.Err? ==> s.after == t
    ensures s.result.Ok? ==>
              && s.after.unreadMembership.Has(sub, item)
              && (forall x, y :: x != sub || y != item ==>
                    (s.after.unreadMembership.Has(x, y) <==> t.unreadMembership.Has(x, y)))
              && s.after == t.(unreadMembership := s.after.unreadMembership)
  {
    if sub !in t.subscriptions || item !in t.items then Step(t, Err(NotFound))
    else Step(t.(unreadMembership := t.unreadMembership.Link(sub, item)), Ok(()))
  }

  /** `subscription.unread.remove(item)`, mirrored in `item.unread`. */
  function RemoveUnread(t: Tables, sub: Id, item: Id): (s: Step<()>)
    requires RelationshipsSpan(t)
    ensures s.result == Err(NotFound) <==> sub !in t.subscriptions || item !in t.items
    ensures s.result.Ok? <==> sub in t.subscriptions && item in t.items
    ensures s.result.Err? ==> s.after == t
    ensures s.result.Ok? ==>
              && !s.after.unreadMembership.Has(sub, item)
              && (forall x, y :: x != sub || y != item ==>
                    (s.after.unreadMembership.Has(x, y) <==> t.unreadMembership.Has(x, y)))
              && s.after == t.(unreadMembership := s.after.unreadMembership)
  {
    if sub !in t.subscriptions || item !in t.items then Step(t, Err(NotFound))
    else Step(t.(unreadMembership := t.unreadMembership.Unlink(sub, item)), Ok(()))
  }

  /** `collection.items.add(item)`, mirrored in `item.collections`. */
  function AddCollectionItem(t: Tables, coll: Id, item: Id): (s: Step<()>)
    requires RelationshipsSpan(t)
    ensures s.result == Err(NotFound) <==> coll !in t.collections || item !in t.items
    ensures s.result.Ok? <==> coll in t.collections && item in t.items
    ensures s.result.Err? ==> s.after == t
    ensures s.result.Ok? ==>
              && s.after.collectionMembership.Has(coll, item)
              && (forall x, y :: x != coll || y != item ==>
                    (s.after.collectionMembership.Has(x, y) <==> t.collectionMembership.Has(x, y)))
              && s.after == t.(collectionMembership := s.after.collectionMembership)
  {
    if coll !in t.collections || item !in t.items then Step(t, Err(NotFound))
    else Step(t.(collectionMembership := t.collectionMembership.Link(coll, item)), Ok(()))
  }

  /** `collection.items.remove(item)`, mirrored in `item.collections`. */
  function RemoveCollectionItem(t: Tables, coll: Id, item: Id): (s: Step<()>)
    requires RelationshipsSpan(t)
    ensures s.result == Err(NotFound) <==> coll !in t.collections || item !in t.items
    ensures s.result.Ok? <==> coll in t.collections && item in t.items
    ensures s.result.Err? ==> s.after == t
    ensures s.result.Ok? ==>
              && !s.after.collectionMembership.Has(coll, item)
              && (forall x, y :: x != coll || y != item ==>
                    (s.after.collectionMembership.Has(x, y) <==> t.collectionMembership.Has(x, y)))
              && s.after == t.(collectionMembership := s.after.collectionMembership)
  {
    if coll !in t.collections || item !in t.items then Step(t, Err(NotFound))
    else Step(t.(collectionMembership := t.collectionMembership.Unlink(coll, item)), Ok(()))
  }

  /** `channel.subscriptions.add(sub)`, mirrored in `sub.channels`. */
  function AddChannelSubscription(t: Tables, chan: Id, sub: Id): (s: Step<()>)
    requires RelationshipsSpan(t)
    ensures s.result == Err(NotFound) <==> chan !in t.channels || sub !in t.subscriptions
    ensures s.result.Ok? <==> chan in t.channels && sub in t.subscriptions
    ensures s.result.Err? ==> s.after == t
    ensures s.result.Ok? ==>
              && s.after.channelMembership.Has(chan, sub)
              && (forall x, y :: x != chan || y != sub ==>
                    (s.after.channelMembership.Has(x, y) <==> t.channelMembership.Has(x, y)))
              && s.after == t.(channelMembership := s.after.channelMembership)
  {
    if chan !in t.channels || sub !in t.subscriptions then Step(t, Err(NotFound))
    else Step(t.(channelMembership := t.channelMembership.Link(chan, sub)), Ok(()))
  }

  /** `channel.subscriptions.remove(sub)`, mirrored in `sub.channels`. */
  function RemoveChannelSubscription(t: Tables, chan: Id, sub: Id): (s: Step<()>)
    requires RelationshipsSpan(t)
    ensures s.result == Err(NotFound) <==> chan !in t.channels || sub !in t.subscriptions
    ensures s.result.Ok? <==> chan in t.channels && sub in t.subscriptions
    ensures s.result.Err? ==> s.after == t
    ensures s.result.Ok? ==>
              && !s.after.channelMembership.Has(chan, sub)
              && (forall x, y :: x != chan || y != sub ==>
                    (s.after.channelMembership.Has(x, y) <==> t.channelMembership.Has(x, y)))
              && s.after == t.(channelMembership := s.after.channelMembership)
  {
    if chan !in t.channels || sub !in t.subscriptions then Step(t, Err(NotFound))
    else Step(t.(channelMembership := t.channelMembership.Unlink(chan, sub)), Ok(()))
  }

  // ---------------------------------------------------------------------
  // Updating an attribute

  /** `row.unread = unread` on one SubscriptionItem; no other row changes. */
  function SetUnread(t: Tables, x: Id, unread: bool): (s: Step<()>)
    ensures s.result == Err(NotFound) <==> x !in t.subscriptionItems
    ensures s.result.Ok? <==> x in t.subscriptionItems
    ensures s.result.Err? ==> s.after == t
    ensures s.result.Ok? ==>
              && s.after.subscriptionItems.Keys == t.subscriptionItems.Keys
              && s.after.subscriptionItems[x] == t.subscriptionItems[x].(unread := unread)
              && (forall y :: y in t.subscriptionItems && y != x ==>
                    s.after.subscriptionItems[y] == t.subscriptionItems[y])
              && s.after == t.(subscriptionItems := s.after.subscriptionItems)
  {
    if x !in t.subscriptionItems then Step(t, Err(NotFound))
    else Step(t.(subscriptionItems := t.subscriptionItems[x := t.subscriptionItems[x].(unread := unread)]), Ok(()))
  }

  // ---------------------------------------------------------------------
  // Looking rows up by their keys

  /** `Feed.get(feed_url=url)`. */
  function FeedByUrl(t: Tables, url: string): (r: Option<Id>)
    requires FeedUrlUnique(t.feeds)
    ensures r.Some? <==> FeedUrlTaken(t.feeds, url)
    ensures r.Some? ==> r.value in t.feeds && t.feeds[r.value].feedUrl == url
    ensures forall f :: f in t.feeds && t.feeds[f].feedUrl == url ==> r == Some(f)
  {
    if FeedUrlTaken(t.feeds, url) then
      var f :| f in t.feeds && t.feeds[f].feedUrl == url;
      Some(f)
    else None
  }

  /** `Subscription.get(user=user, feed=feed)`. */
  function SubscriptionOf(t: Tables, user: Id, feed: Id): (r: Option<Id>)
    requires SubscriptionPairUnique(t.subscriptions)
    ensures r.Some? <==> SubscriptionTaken(t.subscriptions, user, feed)
    ensures r.Some? ==>
              r.value in t.subscriptions
              && t.subscriptions[r.value].user == user && t.subscriptions[r.value].feed == feed
    ensures forall s ::
              s in t.subscriptions && t.subscriptions[s].user == user && t.subscriptions[s].feed == feed
              ==> r == Some(s)
  {
    if SubscriptionTaken(t.subscriptions, user, feed) then
      var s :| s in t.subscriptions && t.subscriptions[s].user == user && t.subscriptions[s].feed == feed;
      Some(s)
    else None
  }

  /** `SubscriptionItem.get(subscription=subscription, item=item)`. */
  function SubscriptionItemOf(t: Tables, subscription: Id, item: Id): (r: Option<Id>)
    requires SubscriptionItemPairUnique(t.subscriptionItems)
    ensures r.Some? <==> SubscriptionItemTaken(t.subscriptionItems, subscription, item)
    ensures r.Some? ==>
              r.value in t.subscriptionItems
              && t.subscriptionItems[r.value].subscription == subscription
              && t.subscriptionItems[r.value].item == item
    ensures forall x ::
              x in t.subscriptionItems && t.subscriptionItems[x].subscription == subscription
              && t.subscriptionItems[x].item == item
              ==> r == Some(x)
  {
    if SubscriptionItemTaken(t.subscriptionItems, subscription, item) then
      var x :| x in t.subscriptionItems && t.subscriptionItems[x].subscription == subscription
               && t.subscriptionItems[x].item == item;
      Some(x)
    else None
  }

  /** `Tag.get(subscription=subscription, term=term)`. */
  function TagOf(t: Tables, subscription: Id, term: string): (r: Option<Id>)
    requires TagTermUnique(t.tags)
    ensures r.Some? <==> TagTaken(t.tags, subscription, term)
    ensures r.Some? ==>
              r.value in t.tags && t.tags[r.value].subscription == subscription && t.tags[r.value].term == term
    ensures forall g ::
              g in t.tags && t.tags[g].subscription == subscription && t.tags[g].term == term
              ==> r == Some(g)
  {
    if TagTaken(t.tags, subscription, term) then
      var g :| g in t.tags && t.tags[g].subscription == subscription && t.tags[g].term == term;
      Some(g)
    else None
  }

  // ---------------------------------------------------------------------
  // The reverse sides of the one-to-many relationships. The ORM derives
  // them from the referencing row's column, so they are computed here.

  /** `user.subscriptions` */
  function UserSubscriptions(t: Tables, user: Id): (r: set<Id>)
    ensures r <= t.subscriptions.Keys
    ensures forall s :: s in t.subscriptions ==> (s in r <==> t.subscriptions[s].user == user)
  {
    set s | s in t.subscriptions && t.subscriptions[s].user == user
  }

  /** `user.channels` */
  function UserChannels(t: Tables, user: Id): (r: set<Id>)
    ensures r <= t.channels.Keys
    ensures forall c :: c in t.channels ==> (c in r <==> t.channels[c].user == user)
  {
    set c | c in t.channels && t.channels[c].user == user
  }

  /** `user.collections` */
  function UserCollections(t: Tables, user: Id): (r: set<Id>)
    ensures r <= t.collections.Keys
    ensures forall c :: c in t.collections ==> (c in r <==> t.collections[c].user == user)
  {
    set c | c in t.collections && t.collections[c].user == user
  }

  /** `feed.links` */
  function FeedLinks(t: Tables, feed: Id): (r: set<Id>)
    ensures r <= t.feedLinks.Keys
    ensures forall l :: l in t.feedLinks ==> (l in r <==> t.feedLinks[l].feed == feed)
  {
    set l | l in t.feedLinks && t.feedLinks[l].feed == feed
  }

  /** `feed.subscriptions` */
  function FeedSubscriptions(t: Tables, feed: Id): (r: set<Id>)
    ensures r <= t.subscriptions.Keys
    ensures forall s :: s in t.subscriptions ==> (s in r <==> t.subscriptions[s].feed == feed)
  {
    set s | s in t.subscriptions && t.subscriptions[s].feed == feed
  }

  /** `feed.items`: the items fetched without authentication. */
  function FeedItems(t: Tables, feed: Id): (r: set<Id>)
    ensures r <= t.items.Keys
    ensures forall i :: i in t.items ==> (i in r <==> t.items[i].feed == Some(feed))
  {
    set i | i in t.items && t.items[i].feed == Some(feed)
  }

  /** `item.links` */
  function ItemLinks(t: Tables, item: Id): (r: set<Id>)
    ensures r <= t.itemLinks.Keys
    ensures forall l :: l in t.itemLinks ==> (l in r <==> t.itemLinks[l].item == item)
  {
    set l | l in t.itemLinks && t.itemLinks[l].item == item
  }

  /** `subscription.tags` */
  function SubscriptionTags(t: Tables, sub: Id): (r: set<Id>)
    ensures r <= t.tags.Keys
    ensures forall g :: g in t.tags ==> (g in r <==> t.tags[g].subscription == sub)
  {
    set g | g in t.tags && t.tags[g].subscription == sub
  }

  // ---------------------------------------------------------------------
  // Reading the enum columns of a channel

  function ChannelPolicy(t: Tables, c: Id): (r: Option<ExpirationPolicy>)
    requires c in t.channels
    ensures r.Some? <==> 1 <= t.channels[c].expirationPolicy <= 3
  {
    ExpirationPolicy.FromInt(t.channels[c].expirationPolicy)
  }

  function ChannelSortOrder(t: Tables, c: Id): (r: Option<SortOrder>)
    requires c in t.channels
    ensures r.Some? <==> 1 <= t.channels[c].sortOrder <= 2
  {
    SortOrder.FromInt(t.channels[c].sortOrder)
  }
}
