/** A many-to-many relationship declared as a pair of `orm.Set` attributes,
    one on each entity. Each side is kept as a map from the id of the row
    owning that side to the set of ids it holds; adding or removing through
    either attribute changes both sides at once. */
module Relationships {
  import opened Schema

  datatype Relationship = Relationship(left: map<Id, set<Id>>, right: map<Id, set<Id>>)
  {
    /** Row `a` of the left entity holds row `b` of the right entity. */
    predicate Has(a: Id, b: Id) { a in left && b in left[a] }

    /** Each side holds exactly the rows that hold it back, and only rows
        that have a side of their own. */
    ghost predicate Symmetric()
    {
      && (forall a, b :: a in left && b in left[a] ==> b in right && a in right[b])
      && (forall b, a :: b in right && a in right[b] ==> a in left && b in left[a])
    }

    /** The two sides belong to exactly the given rows, and agree. */
    ghost predicate Spans(leftRows: set<Id>, rightRows: set<Id>)
    {
      left.Keys == leftRows && right.Keys == rightRows && Symmetric()
    }

    /** A new left row, related to nothing. */
    function AddLeft(a: Id): (r: Relationship)
      requires a !in left
      ensures r.left.Keys == left.Keys + {a} && r.right.Keys == right.Keys
      ensures forall x, y :: r.Has(x, y) <==> Has(x, y)
      ensures Symmetric() ==> r.Symmetric()
    {
      Relationship(left[a := {}], right)
    }

    /** A new right row, related to nothing. */
    function AddRight(b: Id): (r: Relationship)
      requires b !in right
      ensures r.left == left && r.right.Keys == right.Keys + {b}
      ensures Symmetric() ==> r.Symmetric()
    {
      Relationship(left, right[b := {}])
    }

    /** `left[a].add(b)`, which the ORM mirrors as `right[b].add(a)`. */
    function Link(a: Id, b: Id): (r: Relationship)
      requires a in left && b in right
      ensures r.left.Keys == left.Keys && r.right.Keys == right.Keys
      ensures r.Has(a, b)
      ensures forall x, y :: x != a || y != b ==> (r.Has(x, y) <==> Has(x, y))
      ensures Symmetric() ==> r.Symmetric()
    {
      Relationship(left[a := left[a] + {b}], right[b := right[b] + {a}])
    }

    /** `left[a].remove(b)`, which the ORM mirrors as `right[b].remove(a)`. */
    function Unlink(a: Id, b: Id): (r: Relationship)
      requires a in left && b in right
      ensures r.left.Keys == left.Keys && r.right.Keys == right.Keys
      ensures !r.Has(a, b)
      ensures forall x, y :: x != a || y != b ==> (r.Has(x, y) <==> Has(x, y))
      ensures Symmetric() ==> r.Symmetric()
    {
      Relationship(left[a := left[a] - {b}], right[b := right[b] - {a}])
    }
  }

  /** Both relations hold exactly the same pairs. */
  ghost predicate SamePairs(r: Relationship, s: Relationship)
  {
    forall x, y :: r.Has(x, y) <==> s.Has(x, y)
  }

  /** In a symmetric relationship the two attributes agree: `b` is in `a`'s
      set exactly when `a` is in `b`'s set. */
  lemma SidesAgree(r: Relationship, a: Id, b: Id)
    requires r.Symmetric()
    ensures r.Has(a, b) <==> (b in r.right && a in r.right[b])
  {
  }

  /** Unlinking a pair that linking just added restores the relationship. */
  lemma UnlinkUndoesLink(r: Relationship, a: Id, b: Id)
    requires r.Symmetric() && a in r.left && b in r.right && !r.Has(a, b)
    ensures r.Link(a, b).Unlink(a, b) == r
  {
    assert a !in r.right[b];
    var l := r.Link(a, b);
    assert l.left[a] - {b} == r.left[a];
    assert l.right[b] - {a} == r.right[b];
    assert l.Unlink(a, b).left == r.left;
    assert l.Unlink(a, b).right == r.right;
  }

  /** Linking a pair that is already linked changes nothing. */
  lemma LinkIdempotent(r: Relationship, a: Id, b: Id)
    requires r.Symmetric() && r.Has(a, b)
    ensures r.Link(a, b) == r
  {
    assert a in r.right[b];
    assert r.left[a] + {b} == r.left[a];
    assert r.right[b] + {a} == r.right[b];
    assert r.Link(a, b).left == r.left;
    assert r.Link(a, b).right == r.right;
  }
}
