/** The fixed-capacity database connection pool of package DatabaseSingleton.
    The pool is a bounded FIFO queue of connection handles: it is filled with
    POOL_SIZE fresh handles when it is built, `GetConnection` takes the head,
    and `ReleaseConnection` offers a handle back to the tail, where it is
    silently dropped when the queue is already full. */
module DatabaseSingleton {

  /** Capacity of the queue, and the number of handles created up front. */
  const POOL_SIZE: nat := 5

  /** An opaque database connection. The JDBC driver is not modelled: making a
      connection yields a fresh, non-null object. */
  class Connection {
    constructor () {}
  }

  /** Makes a new connection handle for the pool. */
  method CreateConnection() returns (c: Connection)
    ensures fresh(c)
  {
    c := new Connection();
  }

  /** What the pool's queue always satisfies: it never holds more than its
      capacity, and never a null handle. */
  predicate PoolInvariant(q: seq<Connection?>) {
    |q| <= POOL_SIZE && null !in q
  }

  /** The queue after `take` has removed its head. */
  function Taken(q: seq<Connection?>): (r: seq<Connection?>)
    requires q != []
    ensures [q[0]] + r == q
    ensures |r| == |q| - 1
    ensures PoolInvariant(q) ==> PoolInvariant(r)
  {
    q[1..]
  }

  /** The queue after `releaseConnection(c)`: a null handle is ignored, any
      other handle is offered to the tail, and the offer fails (its result is
      ignored) when the queue is full. */
  function Released(q: seq<Connection?>, c: Connection?): (r: seq<Connection?>)
    ensures r == q <==> c == null || |q| >= POOL_SIZE
    ensures r != q ==> r == q + [c] && |r| <= POOL_SIZE
    ensures PoolInvariant(q) ==> PoolInvariant(r)
  {
    if c == null then q
    else if |q| < POOL_SIZE then q + [c]
    else q
  }

  /** The queue after releasing each handle of `cs` in turn. */
  function ReleasedAll(q: seq<Connection?>, cs: seq<Connection?>): seq<Connection?>
    decreases |cs|
  {
    if cs == [] then q else ReleasedAll(Released(q, cs[0]), cs[1..])
  }

  /** The non-null handles of `cs`, in order. */
  function NonNull(cs: seq<Connection?>): (r: seq<Connection?>)
    ensures null !in r && |r| <= |cs|
  {
    if cs == [] then []
    else if cs[0] == null then NonNull(cs[1..])
    else [cs[0]] + NonNull(cs[1..])
  }

  function Min(a: nat, b: nat): nat {
    if a <= b then a else b
  }

  /** Releasing handles one after another fills the queue up to its capacity
      with the first non-null handles released and drops every later one:
      however many handles come back, the pool never grows past POOL_SIZE. */
  lemma {:induction false} ReleasedAllKeepsFirstArrivals(q: seq<Connection?>, cs: seq<Connection?>)
    requires |q| <= POOL_SIZE
    ensures ReleasedAll(q, cs)
         == (q + NonNull(cs))[..Min(POOL_SIZE, |q| + |NonNull(cs)|)]
    decreases |cs|
  {
    if cs != [] {
      var q' := Released(q, cs[0]);
      ReleasedAllKeepsFirstArrivals(q', cs[1..]);
      var rest := NonNull(cs[1..]);
      if cs[0] == null {
        assert NonNull(cs) == rest;
      } else {
        assert NonNull(cs) == [cs[0]] + rest;
        if |q| < POOL_SIZE {
          assert q + NonNull(cs) == q' + rest;
        } else {
          assert (q + NonNull(cs))[..POOL_SIZE] == q;
          assert (q' + rest)[..POOL_SIZE] == q;
        }
      }
    }
  }

  /** Taking a handle and releasing that same handle moves it from the head of
      the queue to its tail: the pool holds the same handles as before. */
  lemma TakeThenReleaseRotates(q: seq<Connection?>)
    requires PoolInvariant(q) && q != []
    ensures Released(Taken(q), q[0]) == q[1..] + [q[0]]
    ensures multiset(Released(Taken(q), q[0])) == multiset(q)
  {
  }

  /** Handles are conserved by `take`: when the pool and the handles lent out
      together make up `all`, they still do after the head is lent out. */
  lemma TakeConservesHandles(q: seq<Connection?>, lent: multiset<Connection?>, all: multiset<Connection?>)
    requires q != [] && multiset(q) + lent == all
    ensures multiset(Taken(q)) + (lent + multiset{q[0]}) == all
  {
  }

  /** Handles are conserved by a disciplined release: when the pool and the
      handles lent out make up the POOL_SIZE handles of `all`, returning a
      handle that is out on loan always finds room, so they still do. */
  lemma ReleaseConservesHandles(q: seq<Connection?>, lent: multiset<Connection?>,
                                all: multiset<Connection?>, c: Connection?)
    requires |all| == POOL_SIZE && multiset(q) + lent == all
    requires c != null && c in lent
    ensures multiset(Released(q, c)) + (lent - multiset{c}) == all
  {
  }

  /** Nothing stops an undisciplined release: handing the same handle back
      twice, with room in the queue, leaves two more copies of it in the pool. */
  lemma DoubleReleaseDuplicates(q: seq<Connection?>, c: Connection?)
    requires |q| <= POOL_SIZE - 2 && c != null
    ensures multiset(Released(Released(q, c), c))[c] == multiset(q)[c] + 2
  {
  }

  /** The pool object. Its queue is a sequence field that the methods
      reassign; the LinkedBlockingQueue's capacity is POOL_SIZE. */
  class DatabaseConnectionPool {
    var connectionPool: seq<Connection?>

    ghost predicate Valid()
      reads this
    {
      PoolInvariant(connectionPool)
    }

    /** Fills the queue with exactly POOL_SIZE fresh, distinct handles. */
    constructor ()
      ensures Valid()
      ensures |connectionPool| == POOL_SIZE
      ensures forall i :: 0 <= i < |connectionPool| ==> fresh(connectionPool[i])
      ensures forall i, j :: 0 <= i < j < |connectionPool| ==> connectionPool[i] != connectionPool[j]
    {
      var q: seq<Connection?> := [];
      for i := 0 to POOL_SIZE
        invariant |q| == i
        invariant null !in q
        invariant forall k :: 0 <= k < |q| ==> fresh(q[k])
        invariant forall k, l :: 0 <= k < l < |q| ==> q[k] != q[l]
      {
        var c := CreateConnection();
        // `add` succeeds: the queue is still below its capacity
        assert |q| < POOL_SIZE;
        q := q + [c];
      }
      connectionPool := q;
    }

    /** Removes and returns the head of the queue. `take` blocks while the
        queue is empty, so a sequential caller must not call it then. */
    method GetConnection() returns (c: Connection)
      requires Valid() && connectionPool != []
      modifies this
      ensures Valid()
      ensures c == old(connectionPool[0])
      ensures connectionPool == Taken(old(connectionPool))
      ensures |connectionPool| == |old(connectionPool)| - 1
    {
      c := connectionPool[0] as Connection;
      connectionPool := connectionPool[1..];
    }

    /** Gives a handle back: null is ignored, any other handle goes to the
        tail unless the queue is full, in which case it is dropped. */
    method ReleaseConnection(connection: Connection?)
      requires Valid()
      modifies this
      ensures Valid()
      ensures connectionPool == Released(old(connectionPool), connection)
      ensures connection == null ==> connectionPool == old(connectionPool)
      ensures connection != null && |old(connectionPool)| < POOL_SIZE ==>
                connectionPool == old(connectionPool) + [connection]
      ensures |old(connectionPool)| == POOL_SIZE ==> connectionPool == old(connectionPool)
    {
      if connection != null {
        // `offer`'s result is ignored: a full queue drops the handle
        if |connectionPool| < POOL_SIZE {
          connectionPool := connectionPool + [connection];
        }
      }
    }

    /** Borrowing a connection and handing the same one back leaves the pool
        holding the same handles, the borrowed one now last. */
    method GetThenRelease() returns (c: Connection)
      requires Valid() && connectionPool != []
      modifies this
      ensures Valid()
      ensures c == old(connectionPool[0])
      ensures connectionPool == old(connectionPool[1..]) + [c]
      ensures multiset(connectionPool) == multiset(old(connectionPool))
    {
      ghost var before := connectionPool;
      c := GetConnection();
      ReleaseConnection(c);
      TakeThenReleaseRotates(before);
    }
  }
}
