/** The rows of the subscription schema: one datatype per entity, holding the
    entity's own columns. Relationship sets live in module Relationships and
    the tables that hold rows live in module Store. Datetime and timedelta
    columns are opaque integers: the schema performs no time arithmetic. */
module Schema {

  /** Bumped whenever the shape of the schema changes. */
  const SchemaVersion: nat := 1

  /** Surrogate primary key of a row. */
  type Id = nat

  /** A `datetime.datetime` value, opaque. */
  type Timestamp = int

  /** A `datetime.timedelta` value, opaque. */
  type Duration = int

  datatype Option<T> = None | Some(value: T)

  /** Why the store refused a change. */
  datatype Error =
    | MissingRequired   // a Required(str) attribute was given the empty string
    | NotFound          // a referenced row does not exist
    | DuplicateKey      // a unique or composite key is already taken

  datatype Result<T> = Ok(value: T) | Err(error: Error)

  /** A Required(str) attribute holds a value: the ORM refuses the empty string. */
  predicate Filled(s: string) { s != "" }

  datatype User = User(selfId: string, profile: string)
  {
    predicate HasRequired() { Filled(selfId) && Filled(profile) }
  }

  datatype Collection = Collection(user: Id, name: string, public: bool)
  {
    predicate HasRequired() { Filled(name) }
  }

  /** Optional(str) columns are strings that default to the empty string;
      Optional(datetime) columns may be absent. */
  datatype Feed = Feed(
    feedUrl: string,
    selfUrl: string,
    title: string,
    authUrl: string,
    lastUpdate: Option<Timestamp>,
    nextUpdate: Option<Timestamp>,
    websubHub: string,
    websubSecret: string,
    websubLease: Option<Timestamp>)
  {
    predicate HasRequired() { Filled(feedUrl) && Filled(selfUrl) && Filled(title) }
  }

  datatype FeedLink = FeedLink(feed: Id, href: string, rel: string, contentType: string)
  {
    predicate HasRequired() { Filled(href) }
  }

  datatype Subscription = Subscription(
    user: Id,
    feed: Id,
    authCookie: string,
    authToken: string,
    authErrorCode: Option<int>,
    authErrorString: string,
    lastUpdate: Option<Timestamp>,
    lastBackfill: Option<Timestamp>)

  /** `feed` is set only for items fetched without authentication. */
  datatype Item = Item(
    feed: Option<Id>,
    guid: string,
    published: Timestamp,
    updated: Option<Timestamp>,
    title: string,
    summary: string,
    content: string,
    link: string,
    lastSeen: Timestamp)
  {
    predicate HasRequired() { Filled(guid) }
  }

  datatype SubscriptionItem = SubscriptionItem(subscription: Id, item: Id, unread: bool)

  datatype ItemLink = ItemLink(item: Id, href: string, rel: string, contentType: string)
  {
    predicate HasRequired() { Filled(href) }
  }

  /** `sortOrder` and `expirationPolicy` are stored as bare integers; the
      enums below give their meaning. */
  datatype Channel = Channel(
    user: Id,
    name: string,
    sortOrder: int,
    expirationPolicy: int,
    expirationTime: Option<Duration>)
  {
    predicate HasRequired() { Filled(name) }
  }

  datatype Tag = Tag(subscription: Id, term: string, tagLabel: string)
  {
    predicate HasRequired() { Filled(term) }
  }

  /** The item expiration policy of a channel. */
  datatype ExpirationPolicy = Never | Backfill | Expire
  {
    /** The integer stored in Channel.expirationPolicy. */
    function ToInt(): (n: int)
      ensures 1 <= n <= 3
    {
      match this
      case Never => 1
      case Backfill => 2
      case Expire => 3
    }

    /** Reads a stored integer back; integers no policy stands for are refused. */
    static function FromInt(n: int): (r: Option<ExpirationPolicy>)
      ensures r.Some? <==> 1 <= n <= 3
    {
      if n == 1 then Some(Never)
      else if n == 2 then Some(Backfill)
      else if n == 3 then Some(Expire)
      else None
    }
  }

  /** The order in which a channel lists its items. */
  datatype SortOrder = Oldest | Newest
  {
    /** The integer stored in Channel.sortOrder. */
    function ToInt(): (n: int)
      ensures 1 <= n <= 2
    {
      match this
      case Oldest => 1
      case Newest => 2
    }

    /** Reads a stored integer back; integers no order stands for are refused. */
    static function FromInt(n: int): (r: Option<SortOrder>)
      ensures r.Some? <==> 1 <= n <= 2
    {
      if n == 1 then Some(Oldest)
      else if n == 2 then Some(Newest)
      else None
    }
  }

  /** Every policy survives being stored and read back. */
  lemma ExpirationPolicyRoundTrip(p: ExpirationPolicy)
    ensures ExpirationPolicy.FromInt(p.ToInt()) == Some(p)
  {
    match p
    case Never =>
    case Backfill =>
    case Expire =>
  }

  /** A stored integer that reads back as a policy is that policy's integer. */
  lemma ExpirationPolicyFromIntInverse(n: int)
    ensures ExpirationPolicy.FromInt(n).Some? ==> ExpirationPolicy.FromInt(n).value.ToInt() == n
  {
  }

  /** Every sort order survives being stored and read back. */
  lemma SortOrderRoundTrip(o: SortOrder)
    ensures SortOrder.FromInt(o.ToInt()) == Some(o)
  {
    match o
    case Oldest =>
    case Newest =>
  }

  /** A stored integer that reads back as a sort order is that order's integer. */
  lemma SortOrderFromIntInverse(n: int)
    ensures SortOrder.FromInt(n).Some? ==> SortOrder.FromInt(n).value.ToInt() == n
  {
  }
}
