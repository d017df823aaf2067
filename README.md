# Subl database schema, as a verified in-memory store

Subl is a feed reader. Users subscribe to feeds, and items from those feeds
are read through channels and collected into collections. `subl/model.py`
declares its database schema as Pony ORM entities:

- User
- Collection
- Feed
- FeedLink
- Subscription
- Item
- SubscriptionItem
- ItemLink
- Channel
- Tag

It also declares two integer enums, ExpirationPolicy and SortOrder. The
schema includes each column that is required, the single `unique=True`
column, the composite keys, the composite indexes, the default value, and
the `orm.Set` relationships that Pony keeps in step from both ends.

The model is an in-memory database that enforces those declarations. It
has six files, one module each.

- `schema.dfy` (`Schema`) has:
  - One datatype per entity row, holding its scalar columns and the ids it
    references.
  - The two enums, with `ToInt`/`FromInt` and their round trip.
  - `Error` (`MissingRequired`, `NotFound`, `DuplicateKey`) and
    `Result`.
  - `SchemaVersion`.
  - A `Required(str)` column refuses the empty string. Strings are taken
    as Pony would store them, already stripped of surrounding whitespace
    (see "## Left out"). An
    `Optional(str)` column is a string that defaults to empty. An
    `Optional` datetime or int column is an `Option`. Datetimes and
    timedeltas are opaque integers.
- `relationships.dfy` (`Relationships`) holds a many-to-many pair of
  `orm.Set` attributes. It keeps one map per side, and each link or
  unlink updates both sides at once.
- `store.dfy` (`Store`) has:
  - `Tables`: every table plus the four many-to-many pairs. These are
    subscription items, subscription unread, collection items and
    channel subscriptions.
  - `Consistent`: what the schema promises of a database. That is fresh
    ids, references that exist, filled required columns, unique keys and
    symmetric relationships.
  - One pure transition per operation: the inserts, adding and removing
    relationship members, and setting the unread flag of a
    SubscriptionItem. Each returns the new tables and a `Result`. It
    checks references first (`NotFound`), then required columns
    (`MissingRequired`), then keys (`DuplicateKey`). A refusal leaves the
    tables unchanged.
  - The key lookups (`Feed.get(feed_url=…)` and its kin).
  - The reverse side of each one-to-many relationship (`user.subscriptions`,
    `feed.links`, …). Pony derives these from the foreign-key column, so
    the model computes them.
- `invariants.dfy` (`Invariants`) proves that every transition keeps
  `Consistent`.
- `properties.dfy` (`Properties`) proves what the declarations mean across
  several operations:
  - A row just inserted is the one its key finds.
  - A second row with the same key is refused.
  - An index admits duplicates.
  - Adding a member to a set and removing it again gives back the original
    tables.
  - Enum columns round-trip.
- `database.dfy` (`Orm`) has the class `Database`:
  - One mutable `map` field per table, the four relationships and the id
    counter.
  - Each operation is a method that changes those fields in place. Its
    contract ties the new state to the matching `Store` transition and
    keeps `Valid()`.
  - Each method `X` relies on a helper `ApplyX`. The helper applies the
    change and is proved to equal the transition.
  - `InsertItem` and `InsertSubscription` build their new tables by calling
    the transition on the current ones. The other helpers check the guards
    and assign the fields themselves.

The model follows `subl/model.py` where a prose description of the schema
says more than the code declares:

- `User.self_id` is not a key. Two users may share one.
- An item has no `(feed, guid)` key. The only key is `(subscription, guid)`,
  which applies to the items a subscription holds through
  `Subscription.items`.
- `Channel.sort_order` and `Channel.expiration_policy` are plain `int`
  columns. A channel is stored whatever integers it carries;
  `Store.ChannelPolicy` and `Store.ChannelSortOrder` return `None` for an
  integer that names no enum member.
- A channel may hold a subscription of any user, not only of its own
  owner. `Store.AddChannelSubscription` succeeds whenever both rows
  exist, because `Channel.subscriptions` (`subl/model.py:155`) is an
  unrestricted set.
- The EXPIRE policy does not require `expiration_time`. `Store.InsertChannel`
  accepts a channel with any policy and either no `expiration_time` or
  one, because `expiration_time` is `Optional` (`subl/model.py:158-163`).

As written, two declarations would likely be refused by Pony when it maps
the entities. These are `orm.composite_key(subscription, guid)`
(`subl/model.py:121`), whose `subscription` is a collection attribute, and
`SubscriptionItem.subscription` / `SubscriptionItem.item`
(`subl/model.py:126-127`), which have no reverse attribute on
`Subscription` or `Item`. The model gives both their declared meaning: a
per-subscription guid key, and plain references.

## Model

| member | source | states |
|---|---|---|
| `Schema.ExpirationPolicy.ToInt` | subl/model.py:71-75 | each policy is stored as an integer from 1 to 3 (NEVER 1, BACKFILL 2, EXPIRE 3) |
| `Schema.ExpirationPolicy.FromInt` | subl/model.py:71-75 | an integer reads back as a policy exactly when it lies in 1..3; any other integer is refused |
| `Schema.ExpirationPolicyRoundTrip` | subl/model.py:71-75 | every policy read back from its stored integer is the same policy |
| `Schema.ExpirationPolicyFromIntInverse` | subl/model.py:71-75 | an integer that reads back as a policy is that policy's integer |
| `Schema.SortOrder.ToInt` | subl/model.py:143-146 | each sort order is stored as 1 (OLDEST) or 2 (NEWEST) |
| `Schema.SortOrder.FromInt` | subl/model.py:143-146 | an integer reads back as a sort order exactly when it is 1 or 2 |
| `Schema.SortOrderRoundTrip` | subl/model.py:143-146 | every sort order read back from its stored integer is the same order |
| `Schema.SortOrderFromIntInverse` | subl/model.py:143-146 | an integer that reads back as a sort order is that order's integer |
| `Relationships.Relationship.AddLeft` | subl/model.py:104-106 | a new row on one side of a many-to-many pair holds nothing, no pair changes and the two sides still agree |
| `Relationships.Relationship.AddRight` | subl/model.py:104-106 | a new row on the other side: the first side is untouched, the second gains exactly that row, and the two sides still agree |
| `Relationships.Relationship.Link` | subl/model.py:104-106 | adding through one attribute relates exactly the one new pair, leaves every other pair as it was and keeps both attributes in agreement |
| `Relationships.Relationship.Unlink` | subl/model.py:104-106 | removing through one attribute unrelates exactly that pair, leaves every other pair as it was and keeps both attributes in agreement |
| `Relationships.SidesAgree` | subl/model.py:104-106 | in a symmetric relationship `b` is in `a`'s set exactly when `a` is in `b`'s set |
| `Relationships.UnlinkUndoesLink` | subl/model.py:104-106 | removing a pair that adding just created restores the relationship exactly |
| `Relationships.LinkIdempotent` | subl/model.py:104-106 | adding a pair already present changes nothing |
| `Store.Empty` | subl/model.py:11 | a fresh database has no rows and satisfies every declared constraint |
| `Store.InsertUser` | subl/model.py:21-24 | a user is refused with MissingRequired exactly when self_id or profile is empty; otherwise it is stored under a fresh id and nothing else changes (self_id is not a key) |
| `Store.InsertCollection` | subl/model.py:31-35 | NotFound exactly when the owning user does not exist, else MissingRequired exactly when the name is empty, else a fresh row with an empty item set; a refusal changes nothing |
| `Store.InsertFeed` | subl/model.py:39-55 | MissingRequired exactly when feed_url, self_url or title is empty, DuplicateKey exactly when another feed has the same feed_url, else a fresh row; a refusal changes nothing |
| `Store.InsertFeedLink` | subl/model.py:61-68 | NotFound exactly when the feed does not exist, MissingRequired exactly when href is empty, otherwise accepted whatever other links share its (feed, rel) |
| `Store.InsertSubscription` | subl/model.py:78-98 | NotFound exactly when the user or the feed is missing, DuplicateKey exactly when that user already subscribes to that feed, else a fresh row holding no items, unread items or channels |
| `Store.InsertItem` | subl/model.py:101-121 | NotFound exactly when a feed is named and missing (no feed is allowed), MissingRequired exactly when guid is empty, else a fresh row in no subscription, unread set or collection |
| `Store.InsertSubscriptionItem` | subl/model.py:124-130 | NotFound exactly when the subscription or item is missing, DuplicateKey exactly when the pair already has a row, else a row whose unread flag is true unless false was given |
| `Store.InsertItemLink` | subl/model.py:133-140 | NotFound exactly when the item does not exist, MissingRequired exactly when href is empty, otherwise accepted whatever other links share its (item, rel) |
| `Store.InsertChannel` | subl/model.py:149-163 | NotFound exactly when the user is missing, MissingRequired exactly when the name is empty, else a fresh row holding no subscriptions; sort_order and expiration_policy are stored unchecked |
| `Store.InsertTag` | subl/model.py:166-172 | NotFound exactly when the subscription is missing, MissingRequired exactly when the term is empty, DuplicateKey exactly when the subscription already has that term, else a fresh row |
| `Store.AddItem` | subl/model.py:92-121 | NotFound when either row is missing, DuplicateKey exactly when another item of the subscription has the same guid, else the pair is related and no other pair changes |
| `Store.RemoveItem` | subl/model.py:92-104 | NotFound when either row is missing, else the pair is no longer related and no other pair changes |
| `Store.AddUnread` | subl/model.py:93-105 | NotFound when either row is missing, else the item is in the subscription's unread set and no other pair changes |
| `Store.RemoveUnread` | subl/model.py:93-105 | NotFound when either row is missing, else the item leaves the subscription's unread set and no other pair changes |
| `Store.AddCollectionItem` | subl/model.py:36-106 | NotFound when either row is missing, else the item is in the collection and no other pair changes |
| `Store.RemoveCollectionItem` | subl/model.py:36-106 | NotFound when either row is missing, else the item leaves the collection and no other pair changes |
| `Store.AddChannelSubscription` | subl/model.py:155 | NotFound when either row is missing, else the subscription is in the channel and no other pair changes |
| `Store.RemoveChannelSubscription` | subl/model.py:155 | NotFound when either row is missing, else the subscription leaves the channel and no other pair changes |
| `Store.SetUnread` | subl/model.py:128 | NotFound exactly when the row is missing, else that one row's unread flag takes the new value and every other row and table stays as it was |
| `Store.FeedByUrl` | subl/model.py:41 | finds a feed exactly when one has the url, and then it is the only feed with that url |
| `Store.SubscriptionOf` | subl/model.py:98 | finds a subscription exactly when one binds the user to the feed, and then it is the only one |
| `Store.SubscriptionItemOf` | subl/model.py:130 | finds a row exactly when one joins the subscription and the item, and then it is the only one |
| `Store.TagOf` | subl/model.py:172 | finds a tag exactly when the subscription has one with that term, and then it is the only one |
| `Store.ChannelPolicy` | subl/model.py:158 | a channel's stored policy integer reads as a policy exactly when it lies in 1..3 |
| `Store.ChannelSortOrder` | subl/model.py:153 | a channel's stored sort-order integer reads as an order exactly when it is 1 or 2 |
| `Store.UserSubscriptions` | subl/model.py:26 | `user.subscriptions` holds exactly the subscriptions whose `user` column names that user |
| `Store.UserChannels` | subl/model.py:27 | `user.channels` holds exactly the channels whose `user` column names that user |
| `Store.UserCollections` | subl/model.py:28 | `user.collections` holds exactly the collections whose `user` column names that user |
| `Store.FeedLinks` | subl/model.py:45 | `feed.links` holds exactly the feed links whose `feed` column names that feed |
| `Store.FeedSubscriptions` | subl/model.py:57 | `feed.subscriptions` holds exactly the subscriptions whose `feed` column names that feed |
| `Store.FeedItems` | subl/model.py:58 | `feed.items` holds exactly the items whose optional `feed` column names that feed; items without a feed are in no feed's set |
| `Store.ItemLinks` | subl/model.py:108 | `item.links` holds exactly the item links whose `item` column names that item |
| `Store.SubscriptionTags` | subl/model.py:96 | `subscription.tags` holds exactly the tags whose `subscription` column names that subscription |
| `Invariants.InsertUserKeepsConsistent` | subl/model.py:21-24 | `InsertUser` on a database satisfying every declared constraint (fresh ids, required references present, required strings filled, every key unique, every many-to-many pair symmetric) leaves one satisfying them all |
| `Invariants.InsertCollectionKeepsConsistent` | subl/model.py:31-36 | `InsertCollection` on a database satisfying every declared constraint (fresh ids, required references present, required strings filled, every key unique, every many-to-many pair symmetric) leaves one satisfying them all |
| `Invariants.InsertFeedKeepsConsistent` | subl/model.py:39-58 | `InsertFeed` on a database satisfying every declared constraint (fresh ids, required references present, required strings filled, every key unique, every many-to-many pair symmetric) leaves one satisfying them all |
| `Invariants.InsertFeedLinkKeepsConsistent` | subl/model.py:61-68 | `InsertFeedLink` on a database satisfying every declared constraint (fresh ids, required references present, required strings filled, every key unique, every many-to-many pair symmetric) leaves one satisfying them all |
| `Invariants.InsertSubscriptionKeepsConsistent` | subl/model.py:78-98 | `InsertSubscription` on a database satisfying every declared constraint (fresh ids, required references present, required strings filled, every key unique, every many-to-many pair symmetric) leaves one satisfying them all |
| `Invariants.InsertItemKeepsConsistent` | subl/model.py:101-121 | `InsertItem` on a database satisfying every declared constraint (fresh ids, required references present, required strings filled, every key unique, every many-to-many pair symmetric) leaves one satisfying them all |
| `Invariants.InsertSubscriptionItemKeepsConsistent` | subl/model.py:124-130 | `InsertSubscriptionItem` on a database satisfying every declared constraint (fresh ids, required references present, required strings filled, every key unique, every many-to-many pair symmetric) leaves one satisfying them all |
| `Invariants.InsertItemLinkKeepsConsistent` | subl/model.py:133-140 | `InsertItemLink` on a database satisfying every declared constraint (fresh ids, required references present, required strings filled, every key unique, every many-to-many pair symmetric) leaves one satisfying them all |
| `Invariants.InsertChannelKeepsConsistent` | subl/model.py:149-163 | `InsertChannel` on a database satisfying every declared constraint (fresh ids, required references present, required strings filled, every key unique, every many-to-many pair symmetric) leaves one satisfying them all |
| `Invariants.InsertTagKeepsConsistent` | subl/model.py:166-172 | `InsertTag` on a database satisfying every declared constraint (fresh ids, required references present, required strings filled, every key unique, every many-to-many pair symmetric) leaves one satisfying them all |
| `Invariants.AddItemKeepsConsistent` | subl/model.py:92-121 | `AddItem` on a database satisfying every declared constraint (fresh ids, required references present, required strings filled, every key unique, every many-to-many pair symmetric) leaves one satisfying them all |
| `Invariants.RemoveItemKeepsConsistent` | subl/model.py:92-121 | `RemoveItem` on a database satisfying every declared constraint (fresh ids, required references present, required strings filled, every key unique, every many-to-many pair symmetric) leaves one satisfying them all |
| `Invariants.AddUnreadKeepsConsistent` | subl/model.py:93-105 | `AddUnread` on a database satisfying every declared constraint (fresh ids, required references present, required strings filled, every key unique, every many-to-many pair symmetric) leaves one satisfying them all |
| `Invariants.RemoveUnreadKeepsConsistent` | subl/model.py:93-105 | `RemoveUnread` on a database satisfying every declared constraint (fresh ids, required references present, required strings filled, every key unique, every many-to-many pair symmetric) leaves one satisfying them all |
| `Invariants.AddCollectionItemKeepsConsistent` | subl/model.py:36-106 | `AddCollectionItem` on a database satisfying every declared constraint (fresh ids, required references present, required strings filled, every key unique, every many-to-many pair symmetric) leaves one satisfying them all |
| `Invariants.RemoveCollectionItemKeepsConsistent` | subl/model.py:36-106 | `RemoveCollectionItem` on a database satisfying every declared constraint (fresh ids, required references present, required strings filled, every key unique, every many-to-many pair symmetric) leaves one satisfying them all |
| `Invariants.AddChannelSubscriptionKeepsConsistent` | subl/model.py:155 | `AddChannelSubscription` on a database satisfying every declared constraint (fresh ids, required references present, required strings filled, every key unique, every many-to-many pair symmetric) leaves one satisfying them all |
| `Invariants.RemoveChannelSubscriptionKeepsConsistent` | subl/model.py:155 | `RemoveChannelSubscription` on a database satisfying every declared constraint (fresh ids, required references present, required strings filled, every key unique, every many-to-many pair symmetric) leaves one satisfying them all |
| `Invariants.SetUnreadKeepsConsistent` | subl/model.py:124-130 | `SetUnread` on a database satisfying every declared constraint (fresh ids, required references present, required strings filled, every key unique, every many-to-many pair symmetric) leaves one satisfying them all |
| `Properties.InsertedFeedIsFound` | subl/model.py:41 | a feed just inserted is the one found by its feed_url |
| `Properties.FeedUrlIsKey` | subl/model.py:41 | after a feed is inserted, any feed with the same feed_url is refused (DuplicateKey, or MissingRequired if incomplete) and the tables do not change |
| `Properties.InsertedSubscriptionIsFound` | subl/model.py:78-98 | a subscription just inserted is found by (user, feed) and joins exactly `user.subscriptions` and `feed.subscriptions` |
| `Properties.SubscriptionAddedIsFound` | subl/model.py:26-57 | adding one subscription row makes the key find it and adds exactly its id to the user's and the feed's reverse sets |
| `Properties.SubscriptionPairIsKey` | subl/model.py:98 | a second subscription of the same user to the same feed is refused with DuplicateKey and changes nothing |
| `Properties.InsertedSubscriptionItemIsFound` | subl/model.py:124-130 | a SubscriptionItem just inserted is found by (subscription, item) and is unread unless false was given |
| `Properties.SubscriptionItemPairIsKey` | subl/model.py:130 | joining the same item to the same subscription again is refused with DuplicateKey and changes nothing |
| `Properties.InsertedTagIsFound` | subl/model.py:166-172 | a tag just inserted is found by (subscription, term) and joins `subscription.tags` |
| `Properties.TagAddedIsFound` | subl/model.py:96-172 | adding one tag row makes the key find it and adds exactly its id to the subscription's tags |
| `Properties.TagTermIsKey` | subl/model.py:172 | a second tag with the same subscription and term is refused with DuplicateKey, whatever its label, and changes nothing |
| `Properties.GuidIsKeyPerSubscription` | subl/model.py:121 | once an item is in a subscription, another item with the same guid cannot join it (DuplicateKey, no change) |
| `Properties.InsertedCollectionJoinsUser` | subl/model.py:28-33 | a collection just inserted joins exactly its owner's `user.collections`, and every other user's set is unchanged |
| `Properties.CollectionAddedJoinsUser` | subl/model.py:28-33 | adding one collection row adds its id to its owner's collections and changes no other user's |
| `Properties.InsertedChannelJoinsUser` | subl/model.py:27-151 | a channel just inserted joins exactly its owner's `user.channels`, and every other user's set is unchanged |
| `Properties.ChannelAddedJoinsUser` | subl/model.py:27-151 | adding one channel row adds its id to its owner's channels and changes no other user's |
| `Properties.InsertedItemJoinsFeed` | subl/model.py:58-103 | an item just inserted joins `feed.items` of the feed it names and no other; an item without a feed joins none |
| `Properties.ItemAddedJoinsFeed` | subl/model.py:58-103 | adding one item row changes only the item set of the feed it names |
| `Properties.FeedLinkRelIsNotKey` | subl/model.py:68 | the same feed link inserted twice gives two distinct rows, both among `feed.links` |
| `Properties.ItemLinkRelIsNotKey` | subl/model.py:140 | the same item link inserted twice gives two distinct rows, both among `item.links` |
| `Properties.ChannelEnumsRoundTrip` | subl/model.py:153-158 | a channel stored with a policy's and an order's values reads back those same enum members |
| `Properties.ChannelEnumsUnchecked` | subl/model.py:153-158 | whether a channel is accepted does not depend on its sort_order or expiration_policy integers |
| `Properties.AddThenRemoveItem` | subl/model.py:92-104 | adding an item a subscription did not hold and removing it again gives back the original tables |
| `Properties.AddHeldItem` | subl/model.py:104-121 | adding an item the subscription already holds succeeds and changes nothing; the item's own guid does not count against it |
| `Properties.AddThenRemoveUnread` | subl/model.py:93-105 | adding to and removing from the unread set gives back the original tables |
| `Properties.AddThenRemoveCollectionItem` | subl/model.py:36-106 | adding an item to a collection and removing it again gives back the original tables |
| `Properties.AddThenRemoveChannelSubscription` | subl/model.py:155 | adding a subscription to a channel and removing it again gives back the original tables |
| `Properties.MembershipSidesAgree` | subl/model.py:92-106 | in a consistent database `subscription.items`/`item.subscription`, `subscription.unread`/`item.unread`, `collection.items`/`item.collections` and `channel.subscriptions` with its reverse agree pair by pair |
| `Properties.SetUnreadKeepsKey` | subl/model.py:124-130 | setting a row's unread flag keeps it found under its (subscription, item) key, with the new flag |
| `Orm.Database.constructor` | subl/model.py:11 | a new database object holds no rows and satisfies every declared constraint |
| `Orm.Database.InsertUser` | subl/model.py:21-24 | on a valid database changes the tables in place exactly as `Store.InsertUser` does, returns its result and leaves the database valid |
| `Orm.Database.InsertCollection` | subl/model.py:31-36 | on a valid database changes the tables in place exactly as `Store.InsertCollection` does, returns its result and leaves the database valid |
| `Orm.Database.InsertFeed` | subl/model.py:39-58 | on a valid database changes the tables in place exactly as `Store.InsertFeed` does, returns its result and leaves the database valid |
| `Orm.Database.InsertFeedLink` | subl/model.py:61-68 | on a valid database changes the tables in place exactly as `Store.InsertFeedLink` does, returns its result and leaves the database valid |
| `Orm.Database.InsertSubscription` | subl/model.py:78-98 | on a valid database changes the tables in place exactly as `Store.InsertSubscription` does, returns its result and leaves the database valid |
| `Orm.Database.InsertItem` | subl/model.py:101-121 | on a valid database changes the tables in place exactly as `Store.InsertItem` does, returns its result and leaves the database valid |
| `Orm.Database.InsertSubscriptionItem` | subl/model.py:124-130 | on a valid database changes the tables in place exactly as `Store.InsertSubscriptionItem` does, returns its result and leaves the database valid |
| `Orm.Database.InsertItemLink` | subl/model.py:133-140 | on a valid database changes the tables in place exactly as `Store.InsertItemLink` does, returns its result and leaves the database valid |
| `Orm.Database.InsertChannel` | subl/model.py:149-163 | on a valid database changes the tables in place exactly as `Store.InsertChannel` does, returns its result and leaves the database valid |
| `Orm.Database.InsertTag` | subl/model.py:166-172 | on a valid database changes the tables in place exactly as `Store.InsertTag` does, returns its result and leaves the database valid |
| `Orm.Database.AddItem` | subl/model.py:92-121 | on a valid database changes the tables in place exactly as `Store.AddItem` does, returns its result and leaves the database valid |
| `Orm.Database.RemoveItem` | subl/model.py:92-121 | on a valid database changes the tables in place exactly as `Store.RemoveItem` does, returns its result and leaves the database valid |
| `Orm.Database.AddUnread` | subl/model.py:93-105 | on a valid database changes the tables in place exactly as `Store.AddUnread` does, returns its result and leaves the database valid |
| `Orm.Database.RemoveUnread` | subl/model.py:93-105 | on a valid database changes the tables in place exactly as `Store.RemoveUnread` does, returns its result and leaves the database valid |
| `Orm.Database.AddCollectionItem` | subl/model.py:36-106 | on a valid database changes the tables in place exactly as `Store.AddCollectionItem` does, returns its result and leaves the database valid |
| `Orm.Database.RemoveCollectionItem` | subl/model.py:36-106 | on a valid database changes the tables in place exactly as `Store.RemoveCollectionItem` does, returns its result and leaves the database valid |
| `Orm.Database.AddChannelSubscription` | subl/model.py:155 | on a valid database changes the tables in place exactly as `Store.AddChannelSubscription` does, returns its result and leaves the database valid |
| `Orm.Database.RemoveChannelSubscription` | subl/model.py:155 | on a valid database changes the tables in place exactly as `Store.RemoveChannelSubscription` does, returns its result and leaves the database valid |
| `Orm.Database.SetUnread` | subl/model.py:124-130 | on a valid database changes the tables in place exactly as `Store.SetUnread` does, returns its result and leaves the database valid |

## Left out

- The `db` handle, `DbEntity` and `LOGGER` (`subl/model.py:11-15`): the
  store takes their place, and the model does no logging.
- Transactions and concurrent sessions: each operation is one atomic
  step on one database.
- Deleting rows, and Pony's cascade of a delete along required
  references: model.py declares no operation of its own for these.
- Column updates other than `SubscriptionItem.unread`. Creating an entity
  with relationship sets already filled is modelled as an insert followed
  by one `Add…` per member.
- Datetime and timedelta arithmetic: these columns are opaque integers.
- Expiry sweeps, backfill, feed ingestion, upserts, replacing tags and
  WebSub: these live outside model.py.
- `Item.unread` and `SubscriptionItem.unread` are two separate records of
  the same state. The model keeps both, and does not claim that they
  agree, because model.py does not tie them together.
- A single id counter serves every table. Pony numbers each table on its
  own, but only distinct, fresh ids matter to the declarations.
- Each row type holds only scalar columns and the ids it references. The
  one-to-many reverse sets are functions over the tables, not stored
  fields.
- Pony's `autostrip`: by default Pony strips leading and trailing
  whitespace from a `str` value before it checks `Required` and before it
  stores or compares the value. The model takes every string as already
  stripped. It does not refuse `" "` as a required value, and it does not
  treat `" http://a"` and `"http://a"` as the same `feed_url` or tag term.
- Integer width: `int` columns (`sort_order`, `expiration_policy`,
  `auth_error_code`) are unbounded integers here. Pony maps them to a
  sized INTEGER column, and the model does not capture its range.
