/** What the declared keys, indexes, defaults and relationship sets mean
    across more than one operation: a row just inserted is the one its key
    finds, a second row with the same key is refused, an index admits
    duplicates, and adding a member to a set and removing it again gives
    back the tables it started from. */
module Properties {
  import opened Schema
  import opened Relationships
  import opened Store
  import Invariants

  // ---------------------------------------------------------------------
  // Keys: the row a key finds, and the duplicate it refuses

  /** A feed just inserted is the one `Feed.get(feed_url=...)` finds. */
  lemma InsertedFeedIsFound(t: Tables, f: Feed)
    requires Consistent(t) && InsertFeed(t, f).result.Ok?
    ensures var s := InsertFeed(t, f);
            FeedUrlUnique(s.after.feeds) && FeedByUrl(s.after, f.feedUrl) == Some(s.result.value)
  {
    Invariants.InsertFeedKeepsConsistent(t, f);
  }

  /** `feed_url` is unique: once a feed holds a url, any other feed with
      that url is refused and the tables stay as they are. */
  lemma FeedUrlIsKey(t: Tables, f: Feed, g: Feed)
    requires Consistent(t) && InsertFeed(t, f).result.Ok? && g.feedUrl == f.feedUrl
    ensures var a := InsertFeed(t, f).after;
            IdsFresh(a)
            && InsertFeed(a, g).after == a
            && InsertFeed(a, g).result == (if g.HasRequired() then Err(DuplicateKey) else Err(MissingRequired))
  {
    var s := InsertFeed(t, f);
    Invariants.InsertFeedKeepsConsistent(t, f);
    assert s.after.feeds[s.result.value].feedUrl == g.feedUrl;
  }

  /** A subscription just inserted is the one `Subscription.get(user=...,
      feed=...)` finds, and it joins `user.subscriptions` and
      `feed.subscriptions`. */
  lemma InsertedSubscriptionIsFound(t: Tables, r: Subscription)
    requires Consistent(t) && InsertSubscription(t, r).result.Ok?
    ensures var s := InsertSubscription(t, r);
            && SubscriptionPairUnique(s.after.subscriptions)
            && SubscriptionOf(s.after, r.user, r.feed) == Some(s.result.value)
            && UserSubscriptions(s.after, r.user) == UserSubscriptions(t, r.user) + {s.result.value}
            && FeedSubscriptions(s.after, r.feed) == FeedSubscriptions(t, r.feed) + {s.result.value}
  {
    var s := InsertSubscription(t, r);
    Invariants.InsertSubscriptionKeepsConsistent(t, r);
    SubscriptionAddedIsFound(t, s.after, s.result.value, r);
  }

  /** Adding one subscription row: the key finds it and both reverse sets gain it. */
  lemma SubscriptionAddedIsFound(t: Tables, a: Tables, id: Id, r: Subscription)
    requires Added(t.subscriptions, a.subscriptions, id, r) && SubscriptionPairUnique(a.subscriptions)
    ensures SubscriptionOf(a, r.user, r.feed) == Some(id)
    ensures UserSubscriptions(a, r.user) == UserSubscriptions(t, r.user) + {id}
    ensures FeedSubscriptions(a, r.feed) == FeedSubscriptions(t, r.feed) + {id}
  {
    assert a.subscriptions[id] == r;
  }

  /** (user, feed) is a key of Subscription: a second subscription of the
      same user to the same feed is refused and changes nothing. */
  lemma SubscriptionPairIsKey(t: Tables, r: Subscription, q: Subscription)
    requires Consistent(t) && InsertSubscription(t, r).result.Ok?
    requires q.user == r.user && q.feed == r.feed
    ensures var a := InsertSubscription(t, r).after;
            IdsFresh(a) && RelationshipsSpan(a)
            && InsertSubscription(a, q) == Step(a, Err(DuplicateKey))
  {
    var s := InsertSubscription(t, r);
    Invariants.InsertSubscriptionKeepsConsistent(t, r);
    assert s.after.subscriptions[s.result.value] == r;
  }

  /** A SubscriptionItem just inserted is the one its (subscription, item)
      key finds, and it is unread unless the caller said otherwise. */
  lemma InsertedSubscriptionItemIsFound(t: Tables, subscription: Id, item: Id, unread: Option<bool>)
    requires Consistent(t) && InsertSubscriptionItem(t, subscription, item, unread).result.Ok?
    ensures var s := InsertSubscriptionItem(t, subscription, item, unread);
            && SubscriptionItemPairUnique(s.after.subscriptionItems)
            && SubscriptionItemOf(s.after, subscription, item) == Some(s.result.value)
            && s.after.subscriptionItems[s.result.value].unread == (unread != Some(false))
  {
    var s := InsertSubscriptionItem(t, subscription, item, unread);
    Invariants.InsertSubscriptionItemKeepsConsistent(t, subscription, item, unread);
    var row := s.after.subscriptionItems[s.result.value];
    assert row.subscription == subscription && row.item == item;
  }

  /** An item is joined to a subscription at most once. */
  lemma SubscriptionItemPairIsKey(t: Tables, subscription: Id, item: Id, unread: Option<bool>, again: Option<bool>)
    requires Consistent(t) && InsertSubscriptionItem(t, subscription, item, unread).result.Ok?
    ensures var a := InsertSubscriptionItem(t, subscription, item, unread).after;
            IdsFresh(a) && InsertSubscriptionItem(a, subscription, item, again) == Step(a, Err(DuplicateKey))
  {
    var s := InsertSubscriptionItem(t, subscription, item, unread);
    Invariants.InsertSubscriptionItemKeepsConsistent(t, subscription, item, unread);
    assert s.after.subscriptionItems[s.result.value].subscription == subscription;
  }

  /** A tag just inserted is the one its (subscription, term) key finds,
      and it joins `subscription.tags`. */
  lemma InsertedTagIsFound(t: Tables, g: Tag)
    requires Consistent(t) && InsertTag(t, g).result.Ok?
    ensures var s := InsertTag(t, g);
            && TagTermUnique(s.after.tags)
            && TagOf(s.after, g.subscription, g.term) == Some(s.result.value)
            && SubscriptionTags(s.after, g.subscription) == SubscriptionTags(t, g.subscription) + {s.result.value}
  {
    var s := InsertTag(t, g);
    Invariants.InsertTagKeepsConsistent(t, g);
    TagAddedIsFound(t, s.after, s.result.value, g);
  }

  /** Adding one tag row: the key finds it and `subscription.tags` gains it. */
  lemma TagAddedIsFound(t: Tables, a: Tables, id: Id, g: Tag)
    requires Added(t.tags, a.tags, id, g) && TagTermUnique(a.tags)
    ensures TagOf(a, g.subscription, g.term) == Some(id)
    ensures SubscriptionTags(a, g.subscription) == SubscriptionTags(t, g.subscription) + {id}
  {
    assert a.tags[id] == g;
  }

  /** (subscription, term) is a key of Tag, whatever the label. */
  lemma TagTermIsKey(t: Tables, g: Tag, newLabel: string)
    requires Consistent(t) && InsertTag(t, g).result.Ok?
    ensures var a := InsertTag(t, g).after;
            IdsFresh(a) && InsertTag(a, g.(tagLabel := newLabel)) == Step(a, Err(DuplicateKey))
  {
    var s := InsertTag(t, g);
    Invariants.InsertTagKeepsConsistent(t, g);
    assert s.after.tags[s.result.value].term == g.term;
  }

  /** (subscription, guid) is a key of Item: once an item is in a
      subscription, another item with the same guid cannot join it. */
  lemma GuidIsKeyPerSubscription(t: Tables, sub: Id, i: Id, j: Id)
    requires Consistent(t) && AddItem(t, sub, i).result.Ok?
    requires j in t.items && j != i && t.items[j].guid == t.items[i].guid
    ensures var a := AddItem(t, sub, i).after;
            RelationshipsSpan(a) && AddItem(a, sub, j) == Step(a, Err(DuplicateKey))
  {
    var a := AddItem(t, sub, i).after;
    Invariants.AddItemKeepsConsistent(t, sub, i);
    assert a.itemMembership.Has(sub, i);
  }

  // ---------------------------------------------------------------------
  // The reverse sides of the one-to-many relationships

  /** A collection just inserted joins `user.collections` of its owner and
      of no other user. */
  lemma InsertedCollectionJoinsUser(t: Tables, c: Collection, user: Id)
    requires IdsFresh(t) && RelationshipsSpan(t) && InsertCollection(t, c).result.Ok?
    ensures var s := InsertCollection(t, c);
            UserCollections(s.after, user)
            == if user == c.user then UserCollections(t, user) + {s.result.value} else UserCollections(t, user)
  {
    var s := InsertCollection(t, c);
    CollectionAddedJoinsUser(t, s.after, s.result.value, c, user);
  }

  /** Adding one collection row changes only its owner's collections. */
  lemma CollectionAddedJoinsUser(t: Tables, a: Tables, id: Id, c: Collection, user: Id)
    requires Added(t.collections, a.collections, id, c)
    ensures UserCollections(a, user)
            == if user == c.user then UserCollections(t, user) + {id} else UserCollections(t, user)
  {
    assert a.collections[id] == c;
  }

  /** A channel just inserted joins `user.channels` of its owner and of no
      other user. */
  lemma InsertedChannelJoinsUser(t: Tables, c: Channel, user: Id)
    requires IdsFresh(t) && RelationshipsSpan(t) && InsertChannel(t, c).result.Ok?
    ensures var s := InsertChannel(t, c);
            UserChannels(s.after, user)
            == if user == c.user then UserChannels(t, user) + {s.result.value} else UserChannels(t, user)
  {
    var s := InsertChannel(t, c);
    ChannelAddedJoinsUser(t, s.after, s.result.value, c, user);
  }

  /** Adding one channel row changes only its owner's channels. */
  lemma ChannelAddedJoinsUser(t: Tables, a: Tables, id: Id, c: Channel, user: Id)
    requires Added(t.channels, a.channels, id, c)
    ensures UserChannels(a, user)
            == if user == c.user then UserChannels(t, user) + {id} else UserChannels(t, user)
  {
    assert a.channels[id] == c;
  }

  /** An item just inserted joins `feed.items` of the feed it names, and of
      no feed at all when it names none (an authenticated item). */
  lemma InsertedItemJoinsFeed(t: Tables, i: Item, feed: Id)
    requires IdsFresh(t) && RelationshipsSpan(t) && InsertItem(t, i).result.Ok?
    ensures var s := InsertItem(t, i);
            FeedItems(s.after, feed)
            == if i.feed == Some(feed) then FeedItems(t, feed) + {s.result.value} else FeedItems(t, feed)
  {
    var s := InsertItem(t, i);
    ItemAddedJoinsFeed(t, s.after, s.result.value, i, feed);
  }

  /** Adding one item row changes only the items of the feed it names. */
  lemma ItemAddedJoinsFeed(t: Tables, a: Tables, id: Id, i: Item, feed: Id)
    requires Added(t.items, a.items, id, i)
    ensures FeedItems(a, feed)
            == if i.feed == Some(feed) then FeedItems(t, feed) + {id} else FeedItems(t, feed)
  {
    assert a.items[id] == i;
  }

  // ---------------------------------------------------------------------
  // Indexes that are not keys

  /** (feed, rel) is only an index: the very same link can be added to a
      feed twice, and both rows are among `feed.links`. */
  lemma FeedLinkRelIsNotKey(t: Tables, l: FeedLink)
    requires Consistent(t) && InsertFeedLink(t, l).result.Ok?
    ensures var s := InsertFeedLink(t, l);
            IdsFresh(s.after)
            && var s' := InsertFeedLink(s.after, l);
               s'.result.Ok? && s'.result.value != s.result.value
               && {s.result.value, s'.result.value} <= FeedLinks(s'.after, l.feed)
  {
    Invariants.InsertFeedLinkKeepsConsistent(t, l);
  }

  /** (item, rel) is only an index, in the same way. */
  lemma ItemLinkRelIsNotKey(t: Tables, l: ItemLink)
    requires Consistent(t) && InsertItemLink(t, l).result.Ok?
    ensures var s := InsertItemLink(t, l);
            IdsFresh(s.after)
            && var s' := InsertItemLink(s.after, l);
               s'.result.Ok? && s'.result.value != s.result.value
               && {s.result.value, s'.result.value} <= ItemLinks(s'.after, l.item)
  {
    Invariants.InsertItemLinkKeepsConsistent(t, l);
  }

  // ---------------------------------------------------------------------
  // The enum columns of a channel

  /** A channel stored with `policy.value` and `order.value` reads them
      back as the same enum members. */
  lemma ChannelEnumsRoundTrip(t: Tables, c: Channel, policy: ExpirationPolicy, order: SortOrder)
    requires Consistent(t) && InsertChannel(t, c).result.Ok?
    requires c.expirationPolicy == policy.ToInt() && c.sortOrder == order.ToInt()
    ensures var s := InsertChannel(t, c);
            s.result.value in s.after.channels
            && ChannelPolicy(s.after, s.result.value) == Some(policy)
            && ChannelSortOrder(s.after, s.result.value) == Some(order)
  {
    ExpirationPolicyRoundTrip(policy);
    SortOrderRoundTrip(order);
  }

  /** Nothing range-checks the two enum columns: whether a channel is
      accepted does not depend on them. */
  lemma ChannelEnumsUnchecked(t: Tables, c: Channel, sortOrder: int, expirationPolicy: int)
    requires Consistent(t)
    ensures InsertChannel(t, c.(sortOrder := sortOrder, expirationPolicy := expirationPolicy)).result
            == InsertChannel(t, c).result
  {
    var c' := c.(sortOrder := sortOrder, expirationPolicy := expirationPolicy);
    assert c'.HasRequired() == c.HasRequired();
  }

  // ---------------------------------------------------------------------
  // Relationship sets

  /** Adding an item to a subscription that does not hold it and removing
      it again gives back the tables as they were. */
  lemma AddThenRemoveItem(t: Tables, sub: Id, item: Id)
    requires Consistent(t) && AddItem(t, sub, item).result.Ok? && !t.itemMembership.Has(sub, item)
    ensures var a := AddItem(t, sub, item).after;
            RelationshipsSpan(a) && RemoveItem(a, sub, item) == Step(t, Ok(()))
  {
    Invariants.AddItemKeepsConsistent(t, sub, item);
    UnlinkUndoesLink(t.itemMembership, sub, item);
  }

  /** Adding an item a subscription already holds succeeds and changes
      nothing: its own guid does not count against it. */
  lemma AddHeldItem(t: Tables, sub: Id, item: Id)
    requires RelationshipsSpan(t) && GuidUniquePerSubscription(t.items, t.itemMembership)
    requires item in t.items && t.itemMembership.Has(sub, item)
    ensures AddItem(t, sub, item) == Step(t, Ok(()))
  {
    assert !GuidTaken(t.items, t.itemMembership, sub, t.items[item].guid, item);
    LinkIdempotent(t.itemMembership, sub, item);
  }

  /** The same for the unread set of a subscription. */
  lemma AddThenRemoveUnread(t: Tables, sub: Id, item: Id)
    requires Consistent(t) && AddUnread(t, sub, item).result.Ok? && !t.unreadMembership.Has(sub, item)
    ensures var a := AddUnread(t, sub, item).after;
            RelationshipsSpan(a) && RemoveUnread(a, sub, item) == Step(t, Ok(()))
  {
    Invariants.AddUnreadKeepsConsistent(t, sub, item);
    UnlinkUndoesLink(t.unreadMembership, sub, item);
  }

  /** The same for the items of a collection. */
  lemma AddThenRemoveCollectionItem(t: Tables, coll: Id, item: Id)
    requires Consistent(t) && AddCollectionItem(t, coll, item).result.Ok?
    requires !t.collectionMembership.Has(coll, item)
    ensures var a := AddCollectionItem(t, coll, item).after;
            RelationshipsSpan(a) && RemoveCollectionItem(a, coll, item) == Step(t, Ok(()))
  {
    Invariants.AddCollectionItemKeepsConsistent(t, coll, item);
    UnlinkUndoesLink(t.collectionMembership, coll, item);
  }

  /** The same for the subscriptions of a channel. */
  lemma AddThenRemoveChannelSubscription(t: Tables, chan: Id, sub: Id)
    requires Consistent(t) && AddChannelSubscription(t, chan, sub).result.Ok?
    requires !t.channelMembership.Has(chan, sub)
    ensures var a := AddChannelSubscription(t, chan, sub).after;
            RelationshipsSpan(a) && RemoveChannelSubscription(a, chan, sub) == Step(t, Ok(()))
  {
    Invariants.AddChannelSubscriptionKeepsConsistent(t, chan, sub);
    UnlinkUndoesLink(t.channelMembership, chan, sub);
  }

  /** In a consistent store `subscription.items` and `item.subscription`
      agree, and so do the other three pairs of sets. */
  lemma MembershipSidesAgree(t: Tables, a: Id, b: Id)
    requires Consistent(t)
    ensures t.itemMembership.Has(a, b) <==> (b in t.itemMembership.right && a in t.itemMembership.right[b])
    ensures t.unreadMembership.Has(a, b) <==> (b in t.unreadMembership.right && a in t.unreadMembership.right[b])
    ensures t.collectionMembership.Has(a, b)
            <==> (b in t.collectionMembership.right && a in t.collectionMembership.right[b])
    ensures t.channelMembership.Has(a, b)
            <==> (b in t.channelMembership.right && a in t.channelMembership.right[b])
  {
    SidesAgree(t.itemMembership, a, b);
    SidesAgree(t.unreadMembership, a, b);
    SidesAgree(t.collectionMembership, a, b);
    SidesAgree(t.channelMembership, a, b);
  }

  // ---------------------------------------------------------------------
  // The unread flag

  /** Setting the flag of a SubscriptionItem keeps the row under its key. */
  lemma SetUnreadKeepsKey(t: Tables, x: Id, unread: bool)
    requires Consistent(t) && x in t.subscriptionItems
    ensures var a := SetUnread(t, x, unread).after;
            var row := t.subscriptionItems[x];
            SubscriptionItemPairUnique(a.subscriptionItems)
            && SubscriptionItemOf(a, row.subscription, row.item) == Some(x)
            && a.subscriptionItems[x].unread == unread
  {
    Invariants.SetUnreadKeepsConsistent(t, x, unread);
  }
}
