/** Every transition of module Store keeps every declared constraint: one
    lemma per transition, each built from small lemmas about the one or two
    tables the transition touches. */
module Invariants {
  import opened Schema
  import opened Relationships
  import opened Store

  // ---------------------------------------------------------------------
  // Small facts about one table at a time

  /** A step that adds at most the counter's id to each table and then
      advances the counter keeps the counter fresh. */
  lemma FreshAfterInsert(t: Tables, a: Tables)
    requires IdsFresh(t)
    requires a.nextId == t.nextId + 1
    requires a.users.Keys <= t.users.Keys + {t.nextId}
    requires a.collections.Keys <= t.collections.Keys + {t.nextId}
    requires a.feeds.Keys <= t.feeds.Keys + {t.nextId}
    requires a.feedLinks.Keys <= t.feedLinks.Keys + {t.nextId}
    requires a.subscriptions.Keys <= t.subscriptions.Keys + {t.nextId}
    requires a.items.Keys <= t.items.Keys + {t.nextId}
    requires a.subscriptionItems.Keys <= t.subscriptionItems.Keys + {t.nextId}
    requires a.itemLinks.Keys <= t.itemLinks.Keys + {t.nextId}
    requires a.channels.Keys <= t.channels.Keys + {t.nextId}
    requires a.tags.Keys <= t.tags.Keys + {t.nextId}
    ensures IdsFresh(a)
  {
  }

  /** Re-pairing a relationship without changing its pairs keeps the
      (subscription, guid) key. */
  lemma SamePairsKeepGuidKey(items: map<Id, Item>, m: Relationship, m': Relationship)
    requires GuidUniquePerSubscription(items, m) && SamePairs(m, m')
    ensures GuidUniquePerSubscription(items, m')
  {
  }

  /** A new item that no subscription holds cannot clash on a guid. */
  lemma UnheldItemKeepsGuidKey(items: map<Id, Item>, m: Relationship, n: Id, i: Item)
    requires GuidUniquePerSubscription(items, m) && n !in m.right && m.Symmetric()
    ensures GuidUniquePerSubscription(items[n := i], m)
  {
    forall s, x, y | x in items[n := i] && y in items[n := i] && m.Has(s, x) && m.Has(s, y)
                     && items[n := i][x].guid == items[n := i][y].guid
      ensures x == y
    {
      assert x != n && y != n;
    }
  }

  /** Adding `item` to subscription `sub` when no other item of `sub` has
      its guid keeps the (subscription, guid) key. */
  lemma LinkKeepsGuidKey(items: map<Id, Item>, m: Relationship, sub: Id, item: Id)
    requires GuidUniquePerSubscription(items, m)
    requires sub in m.left && item in m.right && item in items
    requires !GuidTaken(items, m, sub, items[item].guid, item)
    ensures GuidUniquePerSubscription(items, m.Link(sub, item))
  {
    var l := m.Link(sub, item);
    var guid := items[item].guid;
    assert forall y :: y in items && m.Has(sub, y) && y != item ==> items[y].guid != guid;
    forall s, x, y | x in items && y in items && l.Has(s, x) && l.Has(s, y) && items[x].guid == items[y].guid
      ensures x == y
    {
    }
  }

  /** Removing a pair never creates a guid clash. */
  lemma UnlinkKeepsGuidKey(items: map<Id, Item>, m: Relationship, sub: Id, item: Id)
    requires GuidUniquePerSubscription(items, m)
    requires sub in m.left && item in m.right
    ensures GuidUniquePerSubscription(items, m.Unlink(sub, item))
  {
  }

  /** A new left row keeps a relationship spanning its entities' rows. */
  lemma SpansAddLeft(r: Relationship, rows: set<Id>, others: set<Id>, n: Id, rows': set<Id>)
    requires r.Spans(rows, others) && n !in rows && rows' == rows + {n}
    ensures r.AddLeft(n).Spans(rows', others)
  {
  }

  /** A new right row keeps a relationship spanning its entities' rows. */
  lemma SpansAddRight(r: Relationship, others: set<Id>, rows: set<Id>, n: Id, rows': set<Id>)
    requires r.Spans(others, rows) && n !in rows && rows' == rows + {n}
    ensures r.AddRight(n).Spans(others, rows')
  {
  }

  lemma UserAdded(users: map<Id, User>, n: Id, u: User)
    requires UsersFilled(users) && u.HasRequired()
    ensures UsersFilled(users[n := u])
  {
  }

  lemma CollectionAdded(collections: map<Id, Collection>, users: map<Id, User>, n: Id, c: Collection)
    requires CollectionRefs(collections, users) && CollectionsFilled(collections)
    requires c.user in users && c.HasRequired()
    ensures CollectionRefs(collections[n := c], users) && CollectionsFilled(collections[n := c])
  {
  }

  lemma FeedAdded(feeds: map<Id, Feed>, n: Id, f: Feed)
    requires n !in feeds && FeedUrlUnique(feeds) && FeedsFilled(feeds)
    requires f.HasRequired() && !FeedUrlTaken(feeds, f.feedUrl)
    ensures FeedUrlUnique(feeds[n := f]) && FeedsFilled(feeds[n := f])
  {
  }

  lemma FeedLinkAdded(feedLinks: map<Id, FeedLink>, feeds: map<Id, Feed>, n: Id, l: FeedLink)
    requires FeedLinkRefs(feedLinks, feeds) && FeedLinksFilled(feedLinks)
    requires l.feed in feeds && l.HasRequired()
    ensures FeedLinkRefs(feedLinks[n := l], feeds) && FeedLinksFilled(feedLinks[n := l])
  {
  }

  lemma SubscriptionAdded(subs: map<Id, Subscription>, users: map<Id, User>, feeds: map<Id, Feed>,
                          n: Id, r: Subscription)
    requires n !in subs && SubscriptionRefs(subs, users, feeds) && SubscriptionPairUnique(subs)
    requires r.user in users && r.feed in feeds && !SubscriptionTaken(subs, r.user, r.feed)
    ensures SubscriptionRefs(subs[n := r], users, feeds) && SubscriptionPairUnique(subs[n := r])
  {
  }

  lemma ItemAdded(items: map<Id, Item>, feeds: map<Id, Feed>, n: Id, i: Item)
    requires ItemRefs(items, feeds) && ItemsFilled(items)
    requires (i.feed.Some? ==> i.feed.value in feeds) && i.HasRequired()
    ensures ItemRefs(items[n := i], feeds) && ItemsFilled(items[n := i])
  {
  }

  lemma SubscriptionItemAdded(rows: map<Id, SubscriptionItem>, subs: map<Id, Subscription>,
                              items: map<Id, Item>, n: Id, x: SubscriptionItem)
    requires n !in rows && SubscriptionItemRefs(rows, subs, items) && SubscriptionItemPairUnique(rows)
    requires x.subscription in subs && x.item in items
    requires !SubscriptionItemTaken(rows, x.subscription, x.item)
    ensures SubscriptionItemRefs(rows[n := x], subs, items) && SubscriptionItemPairUnique(rows[n := x])
  {
  }

  lemma ItemLinkAdded(itemLinks: map<Id, ItemLink>, items: map<Id, Item>, n: Id, l: ItemLink)
    requires ItemLinkRefs(itemLinks, items) && ItemLinksFilled(itemLinks)
    requires l.item in items && l.HasRequired()
    ensures ItemLinkRefs(itemLinks[n := l], items) && ItemLinksFilled(itemLinks[n := l])
  {
  }

  lemma ChannelAdded(channels: map<Id, Channel>, users: map<Id, User>, n: Id, c: Channel)
    requires ChannelRefs(channels, users) && ChannelsFilled(channels)
    requires c.user in users && c.HasRequired()
    ensures ChannelRefs(channels[n := c], users) && ChannelsFilled(channels[n := c])
  {
  }

  lemma TagAdded(tags: map<Id, Tag>, subs: map<Id, Subscription>, n: Id, g: Tag)
    requires n !in tags && TagRefs(tags, subs) && TagsFilled(tags) && TagTermUnique(tags)
    requires g.subscription in subs && g.HasRequired() && !TagTaken(tags, g.subscription, g.term)
    ensures TagRefs(tags[n := g], subs) && TagsFilled(tags[n := g]) && TagTermUnique(tags[n := g])
  {
  }

  /** Changing only the unread flag of a row keeps its references and the
      (subscription, item) key. */
  lemma UnreadFlagChanged(rows: map<Id, SubscriptionItem>, subs: map<Id, Subscription>,
                          items: map<Id, Item>, x: Id, unread: bool)
    requires x in rows && SubscriptionItemRefs(rows, subs, items) && SubscriptionItemPairUnique(rows)
    ensures SubscriptionItemRefs(rows[x := rows[x].(unread := unread)], subs, items)
    ensures SubscriptionItemPairUnique(rows[x := rows[x].(unread := unread)])
  {
  }

  // A table that gains a row keeps every reference into it valid.

  lemma UsersGrow(t: Tables, n: Id, u: User)
    requires ReferencesExist(t)
    ensures CollectionRefs(t.collections, t.users[n := u])
    ensures SubscriptionRefs(t.subscriptions, t.users[n := u], t.feeds)
    ensures ChannelRefs(t.channels, t.users[n := u])
  {
  }

  lemma FeedsGrow(t: Tables, n: Id, f: Feed)
    requires ReferencesExist(t)
    ensures FeedLinkRefs(t.feedLinks, t.feeds[n := f])
    ensures SubscriptionRefs(t.subscriptions, t.users, t.feeds[n := f])
    ensures ItemRefs(t.items, t.feeds[n := f])
  {
  }

  lemma SubscriptionsGrow(t: Tables, n: Id, r: Subscription)
    requires ReferencesExist(t)
    ensures SubscriptionItemRefs(t.subscriptionItems, t.subscriptions[n := r], t.items)
    ensures TagRefs(t.tags, t.subscriptions[n := r])
  {
  }

  lemma ItemsGrow(t: Tables, n: Id, i: Item)
    requires ReferencesExist(t)
    ensures SubscriptionItemRefs(t.subscriptionItems, t.subscriptions, t.items[n := i])
    ensures ItemLinkRefs(t.itemLinks, t.items[n := i])
  {
  }

  // ---------------------------------------------------------------------
  // The state each insertion produces is consistent

  lemma UserStateConsistent(t: Tables, u: User)
    requires Consistent(t) && u.HasRequired()
    ensures Consistent(t.(users := t.users[t.nextId := u], nextId := t.nextId + 1))
  {
    var a := t.(users := t.users[t.nextId := u], nextId := t.nextId + 1);
    FreshAfterInsert(t, a);
    UserAdded(t.users, t.nextId, u);
    UsersGrow(t, t.nextId, u);
  }

  /** Counter, references and required strings after adding the row. */
  lemma CollectionStateRows(t: Tables, c: Collection)
    requires Consistent(t) && c.user in t.users && c.HasRequired()
    ensures var a := WithCollection(t, c);
              IdsFresh(a) && ReferencesExist(a) && RequiredFilled(a)
  {
    var n := t.nextId;
    var a := WithCollection(t, c);
    FreshAfterInsert(t, a);
    CollectionAdded(t.collections, t.users, n, c);
  }

  /** Relationship sides after adding the row. */
  lemma CollectionStateSpans(t: Tables, c: Collection)
    requires IdsFresh(t) && RelationshipsSpan(t)
    ensures RelationshipsSpan(WithCollection(t, c))
  {
    var n := t.nextId;
    var a := WithCollection(t, c);
    SpansAddLeft(t.collectionMembership, t.collections.Keys, t.items.Keys, n, a.collections.Keys);
  }

  /** Keys after adding the row. */
  lemma CollectionStateKeys(t: Tables, c: Collection)
    requires Consistent(t) && c.user in t.users && c.HasRequired()
    ensures KeysUnique(WithCollection(t, c))
  {
    var n := t.nextId;
    var a := WithCollection(t, c);
    CollectionAdded(t.collections, t.users, n, c);
  }

  lemma CollectionStateConsistent(t: Tables, c: Collection)
    requires Consistent(t) && c.user in t.users && c.HasRequired()
    ensures Consistent(WithCollection(t, c))
  {
    CollectionStateRows(t, c);
    CollectionStateSpans(t, c);
    CollectionStateKeys(t, c);
  }

  lemma FeedStateConsistent(t: Tables, f: Feed)
    requires Consistent(t) && f.HasRequired() && !FeedUrlTaken(t.feeds, f.feedUrl)
    ensures Consistent(t.(feeds := t.feeds[t.nextId := f], nextId := t.nextId + 1))
  {
    var a := t.(feeds := t.feeds[t.nextId := f], nextId := t.nextId + 1);
    FreshAfterInsert(t, a);
    FeedAdded(t.feeds, t.nextId, f);
    FeedsGrow(t, t.nextId, f);
  }

  lemma FeedLinkStateConsistent(t: Tables, l: FeedLink)
    requires Consistent(t) && l.feed in t.feeds && l.HasRequired()
    ensures Consistent(t.(feedLinks := t.feedLinks[t.nextId := l], nextId := t.nextId + 1))
  {
    var a := t.(feedLinks := t.feedLinks[t.nextId := l], nextId := t.nextId + 1);
    FreshAfterInsert(t, a);
    FeedLinkAdded(t.feedLinks, t.feeds, t.nextId, l);
  }

  /** Counter, references and required strings after adding the row. */
  lemma SubscriptionStateRows(t: Tables, r: Subscription)
    requires Consistent(t)
    requires r.user in t.users && r.feed in t.feeds && !SubscriptionTaken(t.subscriptions, r.user, r.feed)
    ensures var a := WithSubscription(t, r);
              IdsFresh(a) && ReferencesExist(a) && RequiredFilled(a)
  {
    var n := t.nextId;
    var a := WithSubscription(t, r);
    FreshAfterInsert(t, a);
    SubscriptionAdded(t.subscriptions, t.users, t.feeds, n, r);
    SubscriptionsGrow(t, n, r);
  }

  /** Relationship sides after adding the row. */
  lemma SubscriptionStateSpans(t: Tables, r: Subscription)
    requires IdsFresh(t) && RelationshipsSpan(t)
    ensures RelationshipsSpan(WithSubscription(t, r))
  {
    var n := t.nextId;
    var a := WithSubscription(t, r);
    SpansAddLeft(t.itemMembership, t.subscriptions.Keys, t.items.Keys, n, a.subscriptions.Keys);
    SpansAddLeft(t.unreadMembership, t.subscriptions.Keys, t.items.Keys, n, a.subscriptions.Keys);
    SpansAddRight(t.channelMembership, t.channels.Keys, t.subscriptions.Keys, n, a.subscriptions.Keys);
  }

  /** Keys after adding the row. */
  lemma SubscriptionStateKeys(t: Tables, r: Subscription)
    requires Consistent(t)
    requires r.user in t.users && r.feed in t.feeds && !SubscriptionTaken(t.subscriptions, r.user, r.feed)
    ensures KeysUnique(WithSubscription(t, r))
  {
    var n := t.nextId;
    var a := WithSubscription(t, r);
    SubscriptionAdded(t.subscriptions, t.users, t.feeds, n, r);
    SamePairsKeepGuidKey(t.items, t.itemMembership, a.itemMembership);
  }

  lemma SubscriptionStateConsistent(t: Tables, r: Subscription)
    requires Consistent(t)
    requires r.user in t.users && r.feed in t.feeds && !SubscriptionTaken(t.subscriptions, r.user, r.feed)
    ensures Consistent(WithSubscription(t, r))
  {
    SubscriptionStateRows(t, r);
    SubscriptionStateSpans(t, r);
    SubscriptionStateKeys(t, r);
  }

  /** Counter, references and required strings after adding the row. */
  lemma ItemStateRows(t: Tables, i: Item)
    requires Consistent(t) && (i.feed.Some? ==> i.feed.value in t.feeds) && i.HasRequired()
    ensures var a := WithItem(t, i);
              IdsFresh(a) && ReferencesExist(a) && RequiredFilled(a)
  {
    var n := t.nextId;
    var a := WithItem(t, i);
    FreshAfterInsert(t, a);
    ItemAdded(t.items, t.feeds, n, i);
    ItemsGrow(t, n, i);
  }

  /** Relationship sides after adding the row. */
  lemma ItemStateSpans(t: Tables, i: Item)
    requires IdsFresh(t) && RelationshipsSpan(t)
    ensures RelationshipsSpan(WithItem(t, i))
  {
    var n := t.nextId;
    var a := WithItem(t, i);
    SpansAddRight(t.itemMembership, t.subscriptions.Keys, t.items.Keys, n, a.items.Keys);
    SpansAddRight(t.unreadMembership, t.subscriptions.Keys, t.items.Keys, n, a.items.Keys);
    SpansAddRight(t.collectionMembership, t.collections.Keys, t.items.Keys, n, a.items.Keys);
  }

  /** Keys after adding the row. */
  lemma ItemStateKeys(t: Tables, i: Item)
    requires Consistent(t) && (i.feed.Some? ==> i.feed.value in t.feeds) && i.HasRequired()
    ensures KeysUnique(WithItem(t, i))
  {
    var n := t.nextId;
    var a := WithItem(t, i);
    ItemAdded(t.items, t.feeds, n, i);
    UnheldItemKeepsGuidKey(t.items, t.itemMembership, n, i);
    SamePairsKeepGuidKey(t.items[n := i], t.itemMembership, a.itemMembership);
  }

  lemma ItemStateConsistent(t: Tables, i: Item)
    requires Consistent(t) && (i.feed.Some? ==> i.feed.value in t.feeds) && i.HasRequired()
    ensures Consistent(WithItem(t, i))
  {
    ItemStateRows(t, i);
    ItemStateSpans(t, i);
    ItemStateKeys(t, i);
  }

  lemma SubscriptionItemStateConsistent(t: Tables, x: SubscriptionItem)
    requires Consistent(t) && x.subscription in t.subscriptions && x.item in t.items
    requires !SubscriptionItemTaken(t.subscriptionItems, x.subscription, x.item)
    ensures Consistent(t.(subscriptionItems := t.subscriptionItems[t.nextId := x], nextId := t.nextId + 1))
  {
    var a := t.(subscriptionItems := t.subscriptionItems[t.nextId := x], nextId := t.nextId + 1);
    FreshAfterInsert(t, a);
    SubscriptionItemAdded(t.subscriptionItems, t.subscriptions, t.items, t.nextId, x);
  }

  lemma ItemLinkStateConsistent(t: Tables, l: ItemLink)
    requires Consistent(t) && l.item in t.items && l.HasRequired()
    ensures Consistent(t.(itemLinks := t.itemLinks[t.nextId := l], nextId := t.nextId + 1))
  {
    var a := t.(itemLinks := t.itemLinks[t.nextId := l], nextId := t.nextId + 1);
    FreshAfterInsert(t, a);
    ItemLinkAdded(t.itemLinks, t.items, t.nextId, l);
  }

  /** Counter, references and required strings after adding the row. */
  lemma ChannelStateRows(t: Tables, c: Channel)
    requires Consistent(t) && c.user in t.users && c.HasRequired()
    ensures var a := WithChannel(t, c);
              IdsFresh(a) && ReferencesExist(a) && RequiredFilled(a)
  {
    var n := t.nextId;
    var a := WithChannel(t, c);
    FreshAfterInsert(t, a);
    ChannelAdded(t.channels, t.users, n, c);
  }

  /** Relationship sides after adding the row. */
  lemma ChannelStateSpans(t: Tables, c: Channel)
    requires IdsFresh(t) && RelationshipsSpan(t)
    ensures RelationshipsSpan(WithChannel(t, c))
  {
    var n := t.nextId;
    var a := WithChannel(t, c);
    SpansAddLeft(t.channelMembership, t.channels.Keys, t.subscriptions.Keys, n, a.channels.Keys);
  }

  /** Keys after adding the row. */
  lemma ChannelStateKeys(t: Tables, c: Channel)
    requires Consistent(t) && c.user in t.users && c.HasRequired()
    ensures KeysUnique(WithChannel(t, c))
  {
    var n := t.nextId;
    var a := WithChannel(t, c);
    ChannelAdded(t.channels, t.users, n, c);
  }

  lemma ChannelStateConsistent(t: Tables, c: Channel)
    requires Consistent(t) && c.user in t.users && c.HasRequired()
    ensures Consistent(WithChannel(t, c))
  {
    ChannelStateRows(t, c);
    ChannelStateSpans(t, c);
    ChannelStateKeys(t, c);
  }

  lemma TagStateConsistent(t: Tables, g: Tag)
    requires Consistent(t)
    requires g.subscription in t.subscriptions && g.HasRequired() && !TagTaken(t.tags, g.subscription, g.term)
    ensures Consistent(t.(tags := t.tags[t.nextId := g], nextId := t.nextId + 1))
  {
    var a := t.(tags := t.tags[t.nextId := g], nextId := t.nextId + 1);
    FreshAfterInsert(t, a);
    TagAdded(t.tags, t.subscriptions, t.nextId, g);
  }

  // ---------------------------------------------------------------------
  // One lemma per transition: the constraints hold after it

  lemma InsertUserKeepsConsistent(t: Tables, u: User)
    requires Consistent(t)
    ensures Consistent(InsertUser(t, u).after)
  {
    if InsertUser(t, u).result.Ok? { UserStateConsistent(t, u); }
  }

  lemma InsertCollectionKeepsConsistent(t: Tables, c: Collection)
    requires Consistent(t)
    ensures Consistent(InsertCollection(t, c).after)
  {
    if InsertCollection(t, c).result.Ok? { CollectionStateConsistent(t, c); }
  }

  lemma InsertFeedKeepsConsistent(t: Tables, f: Feed)
    requires Consistent(t)
    ensures Consistent(InsertFeed(t, f).after)
  {
    if InsertFeed(t, f).result.Ok? { FeedStateConsistent(t, f); }
  }

  lemma InsertFeedLinkKeepsConsistent(t: Tables, l: FeedLink)
    requires Consistent(t)
    ensures Consistent(InsertFeedLink(t, l).after)
  {
    if InsertFeedLink(t, l).result.Ok? { FeedLinkStateConsistent(t, l); }
  }

  lemma InsertSubscriptionKeepsConsistent(t: Tables, r: Subscription)
    requires Consistent(t)
    ensures Consistent(InsertSubscription(t, r).after)
  {
    if InsertSubscription(t, r).result.Ok? { SubscriptionStateConsistent(t, r); }
  }

  lemma InsertItemKeepsConsistent(t: Tables, i: Item)
    requires Consistent(t)
    ensures Consistent(InsertItem(t, i).after)
  {
    if InsertItem(t, i).result.Ok? { ItemStateConsistent(t, i); }
  }

  lemma InsertSubscriptionItemKeepsConsistent(t: Tables, subscription: Id, item: Id, unread: Option<bool>)
    requires Consistent(t)
    ensures Consistent(InsertSubscriptionItem(t, subscription, item, unread).after)
  {
    if InsertSubscriptionItem(t, subscription, item, unread).result.Ok? {
      SubscriptionItemStateConsistent(t, SubscriptionItem(subscription, item, unread != Some(false)));
    }
  }

  lemma InsertItemLinkKeepsConsistent(t: Tables, l: ItemLink)
    requires Consistent(t)
    ensures Consistent(InsertItemLink(t, l).after)
  {
    if InsertItemLink(t, l).result.Ok? { ItemLinkStateConsistent(t, l); }
  }

  lemma InsertChannelKeepsConsistent(t: Tables, c: Channel)
    requires Consistent(t)
    ensures Consistent(InsertChannel(t, c).after)
  {
    if InsertChannel(t, c).result.Ok? { ChannelStateConsistent(t, c); }
  }

  lemma InsertTagKeepsConsistent(t: Tables, g: Tag)
    requires Consistent(t)
    ensures Consistent(InsertTag(t, g).after)
  {
    if InsertTag(t, g).result.Ok? { TagStateConsistent(t, g); }
  }

  lemma AddItemKeepsConsistent(t: Tables, sub: Id, item: Id)
    requires Consistent(t)
    ensures Consistent(AddItem(t, sub, item).after)
  {
    if AddItem(t, sub, item).result.Ok? {
      LinkKeepsGuidKey(t.items, t.itemMembership, sub, item);
    }
  }

  lemma RemoveItemKeepsConsistent(t: Tables, sub: Id, item: Id)
    requires Consistent(t)
    ensures Consistent(RemoveItem(t, sub, item).after)
  {
    if RemoveItem(t, sub, item).result.Ok? {
      UnlinkKeepsGuidKey(t.items, t.itemMembership, sub, item);
    }
  }

  lemma AddUnreadKeepsConsistent(t: Tables, sub: Id, item: Id)
    requires Consistent(t)
    ensures Consistent(AddUnread(t, sub, item).after)
  {
  }

  lemma RemoveUnreadKeepsConsistent(t: Tables, sub: Id, item: Id)
    requires Consistent(t)
    ensures Consistent(RemoveUnread(t, sub, item).after)
  {
  }

  lemma AddCollectionItemKeepsConsistent(t: Tables, coll: Id, item: Id)
    requires Consistent(t)
    ensures Consistent(AddCollectionItem(t, coll, item).after)
  {
  }

  lemma RemoveCollectionItemKeepsConsistent(t: Tables, coll: Id, item: Id)
    requires Consistent(t)
    ensures Consistent(RemoveCollectionItem(t, coll, item).after)
  {
  }

  lemma AddChannelSubscriptionKeepsConsistent(t: Tables, chan: Id, sub: Id)
    requires Consistent(t)
    ensures Consistent(AddChannelSubscription(t, chan, sub).after)
  {
  }

  lemma RemoveChannelSubscriptionKeepsConsistent(t: Tables, chan: Id, sub: Id)
    requires Consistent(t)
    ensures Consistent(RemoveChannelSubscription(t, chan, sub).after)
  {
  }

  lemma SetUnreadKeepsConsistent(t: Tables, x: Id, unread: bool)
    requires Consistent(t)
    ensures Consistent(SetUnread(t, x, unread).after)
  {
    if SetUnread(t, x, unread).result.Ok? {
      UnreadFlagChanged(t.subscriptionItems, t.subscriptions, t.items, x, unread);
    }
  }
}
