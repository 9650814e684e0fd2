# Singleton components: connection pool, string cache, lazy logger

A Dafny model of the three stateful components of a Java demo of the
singleton pattern. Each Dafny module is named after the Java package of the
class it models.

- `DatabaseSingleton`: the database connection pool. It is a FIFO queue of
  opaque connection handles with capacity `POOL_SIZE = 5`. The constructor
  fills it with five fresh handles. `GetConnection` takes the head.
  `ReleaseConnection` ignores null and otherwise offers the handle to the
  tail, where it is silently dropped when the queue is full. The class keeps
  the invariant that the queue holds at most five handles and never null.
  Handles are Dafny objects, so Java's `null` is `Connection?`'s `null` and
  "create a connection" is `new`.
- `Caching`: the string cache. The backing map is a `map<string, string>`
  field that `Put`, `Remove` and `Clear` reassign. `Get` answers the sentinel
  `"Not Found"` for a missing key. A functional model of the calls
  (`CacheOp`, `Apply`, `Run`) states what `get` answers after any sequence of
  calls, and the sentinel ambiguity.
- `Types`: the basic thread-unsafe lazy singleton `Logger`. Java's static
  state is an object of its own (`LoggerClass`) whose `instance` field starts
  null. The private constructor records each of its runs in a ghost counter.
  The invariant is that at most one Logger is ever constructed, and that
  `instance` is set exactly when one has been.

One invariant a pool is expected to keep is that the handles in the pool
plus the handles lent out are always the POOL_SIZE handles created at
start. `releaseConnection` does not enforce it, because it accepts any
non-null handle. Which property holds depends on how clients use the pool:

- Under every use, the pool holds at most POOL_SIZE handles and never null.
- When clients release only handles they borrowed and have not yet
  returned, `take` and `offer` conserve the handles. The pool's multiset
  plus the lent-out multiset stays equal to the handles created at start
  (`TakeConservesHandles`, `ReleaseConservesHandles`).
- When a client releases a handle twice, or one it never borrowed, and the
  queue has room, the pool gains duplicate or foreign handles
  (`DoubleReleaseDuplicates`).

## Model

| member | source | states |
|---|---|---|
| `DatabaseSingleton.CreateConnection` | src/DatabaseSingleton/DatabaseConnectionPool.java:32-38 | making a connection yields a fresh, non-null handle |
| `DatabaseSingleton.DatabaseConnectionPool.constructor` | src/DatabaseSingleton/DatabaseConnectionPool.java:15-21 | the new pool holds exactly POOL_SIZE (5) handles, all fresh, pairwise distinct and non-null, and the capacity invariant holds |
| `DatabaseSingleton.Taken` | src/DatabaseSingleton/DatabaseConnectionPool.java:41-43 | `take` removes exactly the head: the head followed by the result is the old queue, the size drops by one, and the invariant is kept |
| `DatabaseSingleton.DatabaseConnectionPool.GetConnection` | src/DatabaseSingleton/DatabaseConnectionPool.java:41-43 | on a non-empty pool, returns the non-null head and leaves the rest of the queue in order; the invariant is kept |
| `DatabaseSingleton.Released` | src/DatabaseSingleton/DatabaseConnectionPool.java:46-50 | the queue is unchanged exactly when the handle is null or the queue is full; otherwise the handle is appended at the tail; size at most 5 and no null is kept |
| `DatabaseSingleton.DatabaseConnectionPool.ReleaseConnection` | src/DatabaseSingleton/DatabaseConnectionPool.java:46-50 | null leaves the pool unchanged; a non-null handle below capacity is appended at the tail; a full pool is unchanged (the failed offer is ignored); the invariant is kept |
| `DatabaseSingleton.ReleasedAllKeepsFirstArrivals` | src/DatabaseSingleton/DatabaseConnectionPool.java:46-50 | releasing any sequence of handles keeps the first non-null arrivals up to capacity, drops the rest, and never grows the queue past POOL_SIZE |
| `DatabaseSingleton.TakeThenReleaseRotates` | src/DatabaseSingleton/DatabaseConnectionPool.java:41-50 | taking a handle and releasing the same one moves it from head to tail, so the pool's multiset of handles is restored |
| `DatabaseSingleton.TakeConservesHandles` | src/DatabaseSingleton/DatabaseConnectionPool.java:41-43 | when pool and lent-out handles make up a multiset of handles, lending out the head keeps that sum unchanged |
| `DatabaseSingleton.ReleaseConservesHandles` | src/DatabaseSingleton/DatabaseConnectionPool.java:46-50 | when pool and lent-out handles make up the POOL_SIZE handles, releasing a lent-out handle always finds room and keeps that sum unchanged |
| `DatabaseSingleton.DoubleReleaseDuplicates` | src/DatabaseSingleton/DatabaseConnectionPool.java:46-50 | releasing the same handle twice into a queue with room adds two copies of it: release does not reject duplicates |
| `DatabaseSingleton.DatabaseConnectionPool.GetThenRelease` | src/DatabaseSingleton/DatabaseConnectionPool.java:41-50 | on the pool object: borrowing and handing back the same handle rotates the queue and keeps its multiset |
| `Caching.CacheManager.constructor` | src/Caching/CacheManager.java:11-13 | the cache starts empty: every key answers the sentinel |
| `Caching.CacheManager.Put` | src/Caching/CacheManager.java:25-27 | afterwards `get(key)` answers `value`, whatever was stored before; every other key answers as before |
| `Caching.CacheManager.Get` | src/Caching/CacheManager.java:30-32 | a stored key answers its value; the answer is the sentinel exactly when the key is absent or stored with the sentinel value; a non-sentinel answer comes from a stored key; reading changes nothing |
| `Caching.CacheManager.Remove` | src/Caching/CacheManager.java:35-37 | afterwards the key is absent and answers the sentinel; every other key answers as before; removing an absent key changes nothing |
| `Caching.CacheManager.Clear` | src/Caching/CacheManager.java:40-42 | afterwards every key answers the sentinel |
| `Caching.Apply` | src/Caching/CacheManager.java:25-42 | the effect of one call on `get`: put makes the key answer its value, remove and clear make the sentinel answer, put and remove leave other keys alone, removing an absent key is a no-op |
| `Caching.LookupAfterRun` | src/Caching/CacheManager.java:25-42 | after any sequence of calls, `get(key)` answers the value of the last put of that key, or the sentinel if the last call touching it was a remove or a clear, or the earlier answer if no call touched it |
| `Caching.PutOverwrites` | src/Caching/CacheManager.java:25-27 | a second put of a key leaves the same map as if only the second had happened |
| `Caching.SentinelAmbiguity` | src/Caching/CacheManager.java:30-32 | a key stored with the sentinel answers exactly as an absent key, and `get` answers the sentinel exactly in those two cases |
| `Types.LoggerClass.constructor` | src/Types/Logger.java:5 | when the class is loaded, `instance` is null and no Logger has been constructed |
| `Types.Logger.constructor` | src/Types/Logger.java:7-9 | each run of the private constructor is counted once and does not touch `instance` |
| `Types.LoggerClass.GetInstance` | src/Types/Logger.java:11-16 | afterwards `instance` is the returned non-null Logger; the call made while `instance` is null constructs exactly one fresh Logger; later calls return the same object and construct nothing |
| `Types.LoggerClass.GetInstanceRepeatedly` | src/Types/Logger.java:5-16 | over any sequential run of calls, all calls return the same object; the constructor runs at most once more than before the run, exactly once overall when the run starts with no instance and makes a call, and not at all when the instance already existed |

## Left out

- The JDBC call in `createConnection` and its `RuntimeException` on `SQLException` are not modelled. A connection is an opaque fresh object, so building the pool cannot fail in the model.
- `DatabaseSingleton.DatabaseConnectionPool.GetConnection`: `take` blocks while the queue is empty and may throw `InterruptedException`. Both are concurrency; a sequential caller on an empty pool would wait forever, so the model requires a non-empty pool.
- The Bill Pugh holder classes of the pool and the cache are not modelled. Their single-instance guarantee rests on JVM class loading; the model works with one object per component.
- `ConcurrentHashMap`'s thread safety is not modelled, and neither is its rejection of null keys and values: Dafny strings are never null.
- The thread-safe singleton variants (`BasicThreadSafeSingleton`, `DoubleCheckedLockingSingleton`) are not modelled: sequentially they behave like the basic `Logger`, and their point is locking and `volatile`.
- `BillPughSingleton` is not modelled: its only behaviour is class-initialisation laziness.
- The file logger in package `LoggerSingleton` is not modelled: it does file I/O, console output and wall-clock timestamps.
- Console output (`System.out.println`) in every constructor is not modelled.
- The service classes and `Main` are not modelled: they only call the components above and print.
- Java's privacy of `Logger`'s constructor cannot be enforced in Dafny. The model counts the constructor's runs instead, and only `GetInstance` calls it.
- The pool object does not keep track of which handles are lent out, and neither does the Java class. Conservation of handles under disciplined use is therefore stated over a lent-out multiset passed to `TakeConservesHandles` and `ReleaseConservesHandles`, not as an invariant of the class.
