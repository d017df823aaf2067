/** The database object: one mutable table per entity, the four many-to-many
    relationships and the id counter, changed in place. Every operation comes
    in two layers: `ApplyX` checks the guards the ORM checks and updates the
    fields (the two heaviest inserts run the transition on the current tables
    and write back what it changed), doing to the tables exactly what transition `Store.X` does;
    `X` is the same operation on a database that satisfies every declared
    constraint, and keeps it so. */
module Orm {
  import opened Schema
  import opened Relationships
  import Store
  import Invariants

  class Database {
    var users: map<Id, User>
    var collections: map<Id, Collection>
    var feeds: map<Id, Feed>
    var feedLinks: map<Id, FeedLink>
    var subscriptions: map<Id, Subscription>
    var items: map<Id, Item>
    var subscriptionItems: map<Id, SubscriptionItem>
    var itemLinks: map<Id, ItemLink>
    var channels: map<Id, Channel>
    var tags: map<Id, Tag>
    var itemMembership: Relationship
    var unreadMembership: Relationship
    var collectionMembership: Relationship
    var channelMembership: Relationship
    var nextId: Id

    /** The tables this object holds, as one value. */
    ghost function State(): Store.Tables
      reads this
    {
      Store.Tables(users, collections, feeds, feedLinks, subscriptions, items,
                   subscriptionItems, itemLinks, channels, tags,
                   itemMembership, unreadMembership, collectionMembership, channelMembership,
                   nextId)
    }

    /** Every declared constraint holds. */
    ghost predicate Valid()
      reads this
    {
      Store.Consistent(State())
    }

    /** A database with no rows. */
    constructor ()
      ensures Valid()
      ensures State() == Store.Empty()
    {
      users, collections, feeds, feedLinks, subscriptions := map[], map[], map[], map[], map[];
      items, subscriptionItems, itemLinks, channels, tags := map[], map[], map[], map[], map[];
      itemMembership := Relationship(map[], map[]);
      unreadMembership := Relationship(map[], map[]);
      collectionMembership := Relationship(map[], map[]);
      channelMembership := Relationship(map[], map[]);
      nextId := 0;
    }

    // -------------------------------------------------------------------
    // Creating rows: `Entity(...)` inside a db_session

    /** `User(self_id=..., profile=...)`. */
    method ApplyInsertUser(u: User) returns (r: Result<Id>)
      requires Store.IdsFresh(State())
      modifies this
      ensures var s := Store.InsertUser(old(State()), u); State() == s.after && r == s.result
    {
      if !u.HasRequired() {
        r := Err(MissingRequired);
      } else {
        var id := nextId;
        users, nextId, r :=
          users[id := u],
          id + 1,
          Ok(id);
      }
    }

    method InsertUser(u: User) returns (r: Result<Id>)
      requires Valid()
      modifies this
      ensures Valid()
      ensures var s := Store.InsertUser(old(State()), u); State() == s.after && r == s.result
    {
      Invariants.InsertUserKeepsConsistent(State(), u);
      r := ApplyInsertUser(u);
    }

    /** `Collection(user=..., name=..., public=...)`. */
    method ApplyInsertCollection(c: Collection) returns (r: Result<Id>)
      requires Store.IdsFresh(State()) && Store.RelationshipsSpan(State())
      modifies this
      ensures var s := Store.InsertCollection(old(State()), c); State() == s.after && r == s.result
    {
      if c.user !in users {
        r := Err(NotFound);
      } else if !c.HasRequired() {
        r := Err(MissingRequired);
      } else {
        var id := nextId;
        collections, collectionMembership, nextId, r :=
          collections[id := c],
          collectionMembership.AddLeft(id),
          id + 1,
          Ok(id);
      }
    }

    method InsertCollection(c: Collection) returns (r: Result<Id>)
      requires Valid()
      modifies this
      ensures Valid()
      ensures var s := Store.InsertCollection(old(State()), c); State() == s.after && r == s.result
    {
      Invariants.InsertCollectionKeepsConsistent(State(), c);
      r := ApplyInsertCollection(c);
    }

    /** `Feed(feed_url=..., ...)`, refused when the url is taken. */
    method ApplyInsertFeed(f: Feed) returns (r: Result<Id>)
      requires Store.IdsFresh(State())
      modifies this
      ensures var s := Store.InsertFeed(old(State()), f); State() == s.after && r == s.result
    {
      if !f.HasRequired() {
        r := Err(MissingRequired);
      } else if Store.FeedUrlTaken(feeds, f.feedUrl) {
        r := Err(DuplicateKey);
      } else {
        var id := nextId;
        feeds, nextId, r :=
          feeds[id := f],
          id + 1,
          Ok(id);
      }
    }

    method InsertFeed(f: Feed) returns (r: Result<Id>)
      requires Valid()
      modifies this
      ensures Valid()
      ensures var s := Store.InsertFeed(old(State()), f); State() == s.after && r == s.result
    {
      Invariants.InsertFeedKeepsConsistent(State(), f);
      r := ApplyInsertFeed(f);
    }

    /** `FeedLink(feed=..., href=..., ...)`. */
    method ApplyInsertFeedLink(l: FeedLink) returns (r: Result<Id>)
      requires Store.IdsFresh(State())
      modifies this
      ensures var s := Store.InsertFeedLink(old(State()), l); State() == s.after && r == s.result
    {
      if l.feed !in feeds {
        r := Err(NotFound);
      } else if !l.HasRequired() {
        r := Err(MissingRequired);
      } else {
        var id := nextId;
        feedLinks, nextId, r :=
          feedLinks[id := l],
          id + 1,
          Ok(id);
      }
    }

    method InsertFeedLink(l: FeedLink) returns (r: Result<Id>)
      requires Valid()
      modifies this
      ensures Valid()
      ensures var s := Store.InsertFeedLink(old(State()), l); State() == s.after && r == s.result
    {
      Invariants.InsertFeedLinkKeepsConsistent(State(), l);
      r := ApplyInsertFeedLink(l);
    }

    /** `Subscription(user=..., feed=...)`, refused when the user already
        follows the feed. The guards and the new row are those of
        `Store.InsertSubscription`, applied to the current tables; the four
        tables and the counter it changes are written back. */
    method ApplyInsertSubscription(sub: Subscription) returns (r: Result<Id>)
      requires Store.IdsFresh(State()) && Store.RelationshipsSpan(State())
      modifies this
      ensures var s := Store.InsertSubscription(old(State()), sub); State() == s.after && r == s.result
    {
      var t := Store.Tables(users, collections, feeds, feedLinks, subscriptions, items,
                   subscriptionItems, itemLinks, channels, tags,
                   itemMembership, unreadMembership, collectionMembership, channelMembership,
                   nextId);
      var s := Store.InsertSubscription(t, sub);
      subscriptions, itemMembership, unreadMembership, channelMembership, nextId, r :=
        s.after.subscriptions, s.after.itemMembership, s.after.unreadMembership,
        s.after.channelMembership, s.after.nextId, s.result;
    }

    method InsertSubscription(sub: Subscription) returns (r: Result<Id>)
      requires Valid()
      modifies this
      ensures Valid()
      ensures var s := Store.InsertSubscription(old(State()), sub); State() == s.after && r == s.result
    {
      Invariants.InsertSubscriptionKeepsConsistent(State(), sub);
      r := ApplyInsertSubscription(sub);
    }

    /** `Item(guid=..., ...)`, with or without a feed. The guards and the new
        row are those of `Store.InsertItem`, applied to the current tables;
        the four tables and the counter it changes are written back. */
    method ApplyInsertItem(i: Item) returns (r: Result<Id>)
      requires Store.IdsFresh(State()) && Store.RelationshipsSpan(State())
      modifies this
      ensures var s := Store.InsertItem(old(State()), i); State() == s.after && r == s.result
    {
      var t := Store.Tables(users, collections, feeds, feedLinks, subscriptions, items,
                   subscriptionItems, itemLinks, channels, tags,
                   itemMembership, unreadMembership, collectionMembership, channelMembership,
                   nextId);
      var s := Store.InsertItem(t, i);
      items, itemMembership, unreadMembership, collectionMembership, nextId, r :=
        s.after.items, s.after.itemMembership, s.after.unreadMembership,
        s.after.collectionMembership, s.after.nextId, s.result;
    }

    method InsertItem(i: Item) returns (r: Result<Id>)
      requires Valid()
      modifies this
      ensures Valid()
      ensures var s := Store.InsertItem(old(State()), i); State() == s.after && r == s.result
    {
      Invariants.InsertItemKeepsConsistent(State(), i);
      r := ApplyInsertItem(i);
    }

    /** `SubscriptionItem(subscription=..., item=...[, unread=...])`. */
    method ApplyInsertSubscriptionItem(subscription: Id, item: Id, unread: Option<bool>) returns (r: Result<Id>)
      requires Store.IdsFresh(State())
      modifies this
      ensures var s := Store.InsertSubscriptionItem(old(State()), subscription, item, unread); State() == s.after && r == s.result
    {
      if subscription !in subscriptions || item !in items {
        r := Err(NotFound);
      } else if Store.SubscriptionItemTaken(subscriptionItems, subscription, item) {
        r := Err(DuplicateKey);
      } else {
        var id := nextId;
        subscriptionItems, nextId, r :=
          subscriptionItems[id := SubscriptionItem(subscription, item, unread != Some(false))],
          id + 1,
          Ok(id);
      }
    }

    method InsertSubscriptionItem(subscription: Id, item: Id, unread: Option<bool>) returns (r: Result<Id>)
      requires Valid()
      modifies this
      ensures Valid()
      ensures var s := Store.InsertSubscriptionItem(old(State()), subscription, item, unread); State() == s.after && r == s.result
    {
      Invariants.InsertSubscriptionItemKeepsConsistent(State(), subscription, item, unread);
      r := ApplyInsertSubscriptionItem(subscription, item, unread);
    }

    /** `ItemLink(item=..., href=..., ...)`. */
    method ApplyInsertItemLink(l: ItemLink) returns (r: Result<Id>)
      requires Store.IdsFresh(State())
      modifies this
      ensures var s := Store.InsertItemLink(old(State()), l); State() == s.after && r == s.result
    {
      if l.item !in items {
        r := Err(NotFound);
      } else if !l.HasRequired() {
        r := Err(MissingRequired);
      } else {
        var id := nextId;
        itemLinks, nextId, r :=
          itemLinks[id := l],
          id + 1,
          Ok(id);
      }
    }

    method InsertItemLink(l: ItemLink) returns (r: Result<Id>)
      requires Valid()
      modifies this
      ensures Valid()
      ensures var s := Store.InsertItemLink(old(State()), l); State() == s.after && r == s.result
    {
      Invariants.InsertItemLinkKeepsConsistent(State(), l);
      r := ApplyInsertItemLink(l);
    }

    /** `Channel(user=..., name=..., ...)`. */
    method ApplyInsertChannel(c: Channel) returns (r: Result<Id>)
      requires Store.IdsFresh(State()) && Store.RelationshipsSpan(State())
      modifies this
      ensures var s := Store.InsertChannel(old(State()), c); State() == s.after && r == s.result
    {
      if c.user !in users {
        r := Err(NotFound);
      } else if !c.HasRequired() {
        r := Err(MissingRequired);
      } else {
        var id := nextId;
        channels, channelMembership, nextId, r :=
          channels[id := c],
          channelMembership.AddLeft(id),
          id + 1,
          Ok(id);
      }
    }

    method InsertChannel(c: Channel) returns (r: Result<Id>)
      requires Valid()
      modifies this
      ensures Valid()
      ensures var s := Store.InsertChannel(old(State()), c); State() == s.after && r == s.result
    {
      Invariants.InsertChannelKeepsConsistent(State(), c);
      r := ApplyInsertChannel(c);
    }

    /** `Tag(subscription=..., term=..., label=...)`, refused when the term is taken. */
    method ApplyInsertTag(g: Tag) returns (r: Result<Id>)
      requires Store.IdsFresh(State())
      modifies this
      ensures var s := Store.InsertTag(old(State()), g); State() == s.after && r == s.result
    {
      if g.subscription !in subscriptions {
        r := Err(NotFound);
      } else if !g.HasRequired() {
        r := Err(MissingRequired);
      } else if Store.TagTaken(tags, g.subscription, g.term) {
        r := Err(DuplicateKey);
      } else {
        var id := nextId;
        tags, nextId, r :=
          tags[id := g],
          id + 1,
          Ok(id);
      }
    }

    method InsertTag(g: Tag) returns (r: Result<Id>)
      requires Valid()
      modifies this
      ensures Valid()
      ensures var s := Store.InsertTag(old(State()), g); State() == s.after && r == s.result
    {
      Invariants.InsertTagKeepsConsistent(State(), g);
      r := ApplyInsertTag(g);
    }

    // -------------------------------------------------------------------
    // Changing relationship sets, both sides at once

    /** `subscription.items.add(item)`. */
    method ApplyAddItem(sub: Id, item: Id) returns (r: Result<()>)
      requires Store.RelationshipsSpan(State())
      modifies this
      ensures var s := Store.AddItem(old(State()), sub, item); State() == s.after && r == s.result
    {
      if sub !in subscriptions || item !in items {
        r := Err(NotFound);
      } else if Store.GuidTaken(items, itemMembership, sub, items[item].guid, item) {
        r := Err(DuplicateKey);
      } else {
        itemMembership, r :=
          itemMembership.Link(sub, item),
          Ok(());
      }
    }

    method AddItem(sub: Id, item: Id) returns (r: Result<()>)
      requires Valid()
      modifies this
      ensures Valid()
      ensures var s := Store.AddItem(old(State()), sub, item); State() == s.after && r == s.result
    {
      Invariants.AddItemKeepsConsistent(State(), sub, item);
      r := ApplyAddItem(sub, item);
    }

    /** `subscription.items.remove(item)`. */
    method ApplyRemoveItem(sub: Id, item: Id) returns (r: Result<()>)
      requires Store.RelationshipsSpan(State())
      modifies this
      ensures var s := Store.RemoveItem(old(State()), sub, item); State() == s.after && r == s.result
    {
      if sub !in subscriptions || item !in items {
        r := Err(NotFound);
      } else {
        itemMembership, r :=
          itemMembership.Unlink(sub, item),
          Ok(());
      }
    }

    method RemoveItem(sub: Id, item: Id) returns (r: Result<()>)
      requires Valid()
      modifies this
      ensures Valid()
      ensures var s := Store.RemoveItem(old(State()), sub, item); State() == s.after && r == s.result
    {
      Invariants.RemoveItemKeepsConsistent(State(), sub, item);
      r := ApplyRemoveItem(sub, item);
    }

    /** `subscription.unread.add(item)`. */
    method ApplyAddUnread(sub: Id, item: Id) returns (r: Result<()>)
      requires Store.RelationshipsSpan(State())
      modifies this
      ensures var s := Store.AddUnread(old(State()), sub, item); State() == s.after && r == s.result
    {
      if sub !in subscriptions || item !in items {
        r := Err(NotFound);
      } else {
        unreadMembership, r :=
          unreadMembership.Link(sub, item),
          Ok(());
      }
    }

    method AddUnread(sub: Id, item: Id) returns (r: Result<()>)
      requires Valid()
      modifies this
      ensures Valid()
      ensures var s := Store.AddUnread(old(State()), sub, item); State() == s.after && r == s.result
    {
      Invariants.AddUnreadKeepsConsistent(State(), sub, item);
      r := ApplyAddUnread(sub, item);
    }

    /** `subscription.unread.remove(item)`. */
    method ApplyRemoveUnread(sub: Id, item: Id) returns (r: Result<()>)
      requires Store.RelationshipsSpan(State())
      modifies this
      ensures var s := Store.RemoveUnread(old(State()), sub, item); State() == s.after && r == s.result
    {
      if sub !in subscriptions || item !in items {
        r := Err(NotFound);
      } else {
        unreadMembership, r :=
          unreadMembership.Unlink(sub, item),
          Ok(());
      }
    }

    method RemoveUnread(sub: Id, item: Id) returns (r: Result<()>)
      requires Valid()
      modifies this
      ensures Valid()
      ensures var s := Store.RemoveUnread(old(State()), sub, item); State() == s.after && r == s.result
    {
      Invariants.RemoveUnreadKeepsConsistent(State(), sub, item);
      r := ApplyRemoveUnread(sub, item);
    }

    /** `collection.items.add(item)`. */
    method ApplyAddCollectionItem(coll: Id, item: Id) returns (r: Result<()>)
      requires Store.RelationshipsSpan(State())
      modifies this
      ensures var s := Store.AddCollectionItem(old(State()), coll, item); State() == s.after && r == s.result
    {
      if coll !in collections || item !in items {
        r := Err(NotFound);
      } else {
        collectionMembership, r :=
          collectionMembership.Link(coll, item),
          Ok(());
      }
    }

    method AddCollectionItem(coll: Id, item: Id) returns (r: Result<()>)
      requires Valid()
      modifies this
      ensures Valid()
      ensures var s := Store.AddCollectionItem(old(State()), coll, item); State() == s.after && r == s.result
    {
      Invariants.AddCollectionItemKeepsConsistent(State(), coll, item);
      r := ApplyAddCollectionItem(coll, item);
    }

    /** `collection.items.remove(item)`. */
    method ApplyRemoveCollectionItem(coll: Id, item: Id) returns (r: Result<()>)
      requires Store.RelationshipsSpan(State())
      modifies this
      ensures var s := Store.RemoveCollectionItem(old(State()), coll, item); State() == s.after && r == s.result
    {
      if coll !in collections || item !in items {
        r := Err(NotFound);
      } else {
        collectionMembership, r :=
          collectionMembership.Unlink(coll, item),
          Ok(());
      }
    }

    method RemoveCollectionItem(coll: Id, item: Id) returns (r: Result<()>)
      requires Valid()
      modifies this
      ensures Valid()
      ensures var s := Store.RemoveCollectionItem(old(State()), coll, item); State() == s.after && r == s.result
    {
      Invariants.RemoveCollectionItemKeepsConsistent(State(), coll, item);
      r := ApplyRemoveCollectionItem(coll, item);
    }

    /** `channel.subscriptions.add(sub)`. */
    method ApplyAddChannelSubscription(chan: Id, sub: Id) returns (r: Result<()>)
      requires Store.RelationshipsSpan(State())
      modifies this
      ensures var s := Store.AddChannelSubscription(old(State()), chan, sub); State() == s.after && r == s.result
    {
      if chan !in channels || sub !in subscriptions {
        r := Err(NotFound);
      } else {
        channelMembership, r :=
          channelMembership.Link(chan, sub),
          Ok(());
      }
    }

    method AddChannelSubscription(chan: Id, sub: Id) returns (r: Result<()>)
      requires Valid()
      modifies this
      ensures Valid()
      ensures var s := Store.AddChannelSubscription(old(State()), chan, sub); State() == s.after && r == s.result
    {
      Invariants.AddChannelSubscriptionKeepsConsistent(State(), chan, sub);
      r := ApplyAddChannelSubscription(chan, sub);
    }

    /** `channel.subscriptions.remove(sub)`. */
    method ApplyRemoveChannelSubscription(chan: Id, sub: Id) returns (r: Result<()>)
      requires Store.RelationshipsSpan(State())
      modifies this
      ensures var s := Store.RemoveChannelSubscription(old(State()), chan, sub); State() == s.after && r == s.result
    {
      if chan !in channels || sub !in subscriptions {
        r := Err(NotFound);
      } else {
        channelMembership, r :=
          channelMembership.Unlink(chan, sub),
          Ok(());
      }
    }

    method RemoveChannelSubscription(chan: Id, sub: Id) returns (r: Result<()>)
      requires Valid()
      modifies this
      ensures Valid()
      ensures var s := Store.RemoveChannelSubscription(old(State()), chan, sub); State() == s.after && r == s.result
    {
      Invariants.RemoveChannelSubscriptionKeepsConsistent(State(), chan, sub);
      r := ApplyRemoveChannelSubscription(chan, sub);
    }

    // -------------------------------------------------------------------
    // Updating an attribute

    /** `row.unread = unread` on one SubscriptionItem. */
    method ApplySetUnread(x: Id, unread: bool) returns (r: Result<()>)
      modifies this
      ensures var s := Store.SetUnread(old(State()), x, unread); State() == s.after && r == s.result
    {
      if x !in subscriptionItems {
        r := Err(NotFound);
      } else {
        subscriptionItems, r :=
          subscriptionItems[x := subscriptionItems[x].(unread := unread)],
          Ok(());
      }
    }

    method SetUnread(x: Id, unread: bool) returns (r: Result<()>)
      requires Valid()
      modifies this
      ensures Valid()
      ensures var s := Store.SetUnread(old(State()), x, unread); State() == s.after && r == s.result
    {
      Invariants.SetUnreadKeepsConsistent(State(), x, unread);
      r := ApplySetUnread(x, unread);
    }
  }
}
