/**
 * The blob store behind the configured bucket URL, and the size-bounded
 * fetch that `server.go` performs against it (`fetchFromBucket`).
 *
 * The store is a map from keys to bytes plus the ways it can fail: the
 * bucket cannot be opened, a key cannot be opened, or the stream of an
 * object breaks part-way through. Every bucket and reader the fetch opens
 * is recorded in a log, so that "released on every path" can be stated.
 */
module BlobStore {
  import opened Wrappers
  import opened Values

  /**
   * The stream of an object fails when byte number `at` is read; an `at`
   * equal to the object's size makes it fail in place of the end of file.
   */
  datatype Fault = Fault(at: nat, cause: GoString)

  datatype Store = Store(
    objects: map<GoString, GoString>,
    // `blob.OpenBucket` fails with this cause
    openError: Option<GoString>,
    // `bucket.NewReader` fails with this cause although the bucket is open
    keyErrors: map<GoString, GoString>,
    // reading the object breaks at the given offset
    readFaults: map<GoString, Fault>)

  /** Cause reported for a key that has no object. */
  const NotFoundCause: GoString := Ascii("blob not found")

  const OpenBucketPrefix: GoString := Ascii("open bucket: ")
  const ReadPrefix: GoString := Ascii("read: ")

  /** The error text `open key <key>: <cause>`. */
  function OpenKeyMessage(key: GoString, cause: GoString): GoString {
    Ascii("open key ") + key + Ascii(": ") + cause
  }

  /** What `bucket.NewReader` yields for `key`: the object, or the cause of failure. */
  function OpenKey(s: Store, key: GoString): Result<GoString, GoString> {
    if key in s.keyErrors then Failure(s.keyErrors[key])
    else if key !in s.objects then Failure(NotFoundCause)
    else Success(s.objects[key])
  }

  /** The number of bytes `io.LimitReader(r, maxSize)` lets through from an object of `size` bytes. */
  function Limit(size: nat, maxSize: int): (n: nat)
    ensures n <= size
    ensures 0 <= maxSize ==> n <= maxSize
    ensures maxSize <= 0 ==> n == 0
    ensures size <= maxSize ==> n == size
    ensures 0 <= maxSize < size ==> n == maxSize
  {
    if maxSize <= 0 then 0 else if size <= maxSize then size else maxSize
  }

  /**
   * True when the stream of `key` breaks while `io.ReadAll(io.LimitReader(r, maxSize))`
   * drains an object of `size` bytes: at one of the bytes the limit lets
   * through, or at the end of file, which is read once more whenever the
   * object is shorter than the limit.
   */
  predicate BreaksWithin(s: Store, key: GoString, size: nat, maxSize: int) {
    && key in s.readFaults
    && (|| s.readFaults[key].at < Limit(size, maxSize)
        || (s.readFaults[key].at == size && size < maxSize))
  }

  /** The outcome of `fetchFromBucket(key, maxSize)` against store `s`. */
  function Fetched(s: Store, key: GoString, maxSize: int): Result<GoString, GoString> {
    if s.openError.Some? then Failure(OpenBucketPrefix + s.openError.value)
    else match OpenKey(s, key)
      case Failure(cause) => Failure(OpenKeyMessage(key, cause))
      case Success(obj) =>
        if BreaksWithin(s, key, |obj|, maxSize) then Failure(ReadPrefix + s.readFaults[key].cause)
        else Success(obj[..Limit(|obj|, maxSize)])
  }

  /** True when reading `key` from `s` can go wrong only through a read fault. */
  predicate Readable(s: Store, key: GoString) {
    s.openError.None? && key !in s.keyErrors && key in s.objects
  }

  /**
   * Round trip: an object whose stream does not break comes back
   * byte-identical when it fits within `maxSize`, and as exactly its first
   * `maxSize` bytes when it does not; an oversized object is never an error.
   */
  lemma FetchRoundTrip(s: Store, key: GoString, maxSize: nat)
    requires Readable(s, key) && key !in s.readFaults
    ensures var obj := s.objects[key];
      && (|obj| <= maxSize ==> Fetched(s, key, maxSize) == Success(obj))
      && (maxSize < |obj| ==> Fetched(s, key, maxSize) == Success(obj[..maxSize]))
  {
    var obj := s.objects[key];
    if |obj| <= maxSize {
      assert obj[..|obj|] == obj;
    }
  }

  /**
   * The result of a fetch is always a prefix of the stored object of at most
   * `maxSize` bytes, and a fetch fails exactly when the bucket cannot be
   * opened, the key cannot be opened, or the stream breaks before the limit.
   */
  lemma FetchBounded(s: Store, key: GoString, maxSize: int)
    ensures Fetched(s, key, maxSize).Success? ==>
      && Readable(s, key)
      && var r := Fetched(s, key, maxSize).value;
         && |r| <= |s.objects[key]|
         && |r| <= (if maxSize < 0 then 0 else maxSize)
         && r == s.objects[key][..|r|]
    ensures Fetched(s, key, maxSize).Failure? <==>
      || s.openError.Some?
      || OpenKey(s, key).Failure?
      || BreaksWithin(s, key, |s.objects[key]|, maxSize)
  {
  }

  /**
   * A stream that fails in place of the end of file fails the fetch exactly
   * when the object is shorter than the limit: only then does the limited
   * reader ask the stream for more after the last byte.
   */
  lemma FailureAtEof(s: Store, key: GoString, maxSize: int)
    requires Readable(s, key) && key in s.readFaults && s.readFaults[key].at == |s.objects[key]|
    ensures Fetched(s, key, maxSize).Failure? <==> |s.objects[key]| < maxSize
    ensures |s.objects[key]| < maxSize ==> Fetched(s, key, maxSize) == Failure(ReadPrefix + s.readFaults[key].cause)
    ensures maxSize <= |s.objects[key]| ==> Fetched(s, key, maxSize) == Success(s.objects[key][..Limit(|s.objects[key]|, maxSize)])
  {
  }

  /** The error texts of a failed fetch, by cause, in the order the checks are made. */
  lemma FetchErrors(s: Store, key: GoString, maxSize: int)
    ensures s.openError.Some? ==> Fetched(s, key, maxSize) == Failure(OpenBucketPrefix + s.openError.value)
    ensures s.openError.None? && key in s.keyErrors ==>
      Fetched(s, key, maxSize) == Failure(OpenKeyMessage(key, s.keyErrors[key]))
    ensures s.openError.None? && key !in s.keyErrors && key !in s.objects ==>
      Fetched(s, key, maxSize) == Failure(OpenKeyMessage(key, NotFoundCause))
  {
  }

  // ---------------------------------------------------------------------
  // Handles and their release

  /** Something the fetch opens and must close again. */
  datatype Handle = BucketHandle | ReaderHandle(key: GoString)

  datatype Event =
    | Opened(h: Handle)
    | Closed(h: Handle)

  /**
   * Replays `t` from the stack of handles `open`. A close must release the
   * most recently opened handle still open (Go's deferred calls run last in,
   * first out); otherwise the replay fails.
   */
  function Replay(open: seq<Handle>, t: seq<Event>): Option<seq<Handle>>
    decreases |t|
  {
    if t == [] then Some(open)
    else match t[0]
      case Opened(h) => Replay(open + [h], t[1..])
      case Closed(h) =>
        if open != [] && open[|open| - 1] == h then Replay(open[..|open| - 1], t[1..]) else None
  }

  /** Every handle opened in `t` is closed in `t`, in last-in first-out order. */
  predicate Released(t: seq<Event>) {
    Replay([], t) == Some([])
  }

  lemma {:induction false} ReplayAppend(open: seq<Handle>, a: seq<Event>, b: seq<Event>)
    ensures Replay(open, a + b) == match Replay(open, a)
      case None => None
      case Some(o) => Replay(o, b)
    decreases |a|
  {
    if a == [] {
      assert a + b == b;
    } else {
      assert (a + b)[0] == a[0];
      assert (a + b)[1..] == a[1..] + b;
      match a[0]
      case Opened(h) => ReplayAppend(open + [h], a[1..], b);
      case Closed(h) =>
        if open != [] && open[|open| - 1] == h {
          ReplayAppend(open[..|open| - 1], a[1..], b);
        }
    }
  }

  /** Two runs that each release what they open release everything together. */
  lemma ReleasedAppend(a: seq<Event>, b: seq<Event>)
    requires Released(a) && Released(b)
    ensures Released(a + b)
  {
    ReplayAppend([], a, b);
  }

  /** The handles `fetchFromBucket` opens and closes, in order. */
  function FetchTrace(s: Store, key: GoString): seq<Event> {
    if s.openError.Some? then []
    else if OpenKey(s, key).Failure? then [Opened(BucketHandle), Closed(BucketHandle)]
    else [Opened(BucketHandle), Opened(ReaderHandle(key)), Closed(ReaderHandle(key)), Closed(BucketHandle)]
  }

  /**
   * Every return path of a fetch releases what it opened: the reader, when
   * opened, before the bucket; and the bucket is opened whenever the store
   * can be reached, the reader whenever the key can be opened.
   */
  lemma FetchReleases(s: Store, key: GoString)
    ensures Released(FetchTrace(s, key))
    ensures Opened(BucketHandle) in FetchTrace(s, key) <==> s.openError.None?
    ensures Opened(ReaderHandle(key)) in FetchTrace(s, key) <==> s.openError.None? && OpenKey(s, key).Success?
  {
    var t := FetchTrace(s, key);
    var none: seq<Handle> := [];
    assert none + [BucketHandle] == [BucketHandle];
    if |t| == 2 {
      assert Replay([], t) == Replay([BucketHandle], t[1..]);
      assert Replay([BucketHandle], t[1..]) == Replay([], t[2..]);
    } else if |t| == 4 {
      var both := [BucketHandle, ReaderHandle(key)];
      assert [BucketHandle] + [ReaderHandle(key)] == both;
      assert Replay([], t) == Replay([BucketHandle], t[1..]);
      assert Replay([BucketHandle], t[1..]) == Replay(both, t[2..]);
      assert both[..1] == [BucketHandle];
      assert Replay(both, t[2..]) == Replay([BucketHandle], t[3..]);
      assert Replay([BucketHandle], t[3..]) == Replay([], t[4..]);
    }
  }

  /**
   * The connection to the bucket at the configured URL: each call opens the
   * bucket anew (`blob.OpenBucket`) and the log records every handle opened
   * and closed.
   */
  class Connector {
    const store: Store
    var log: seq<Event>

    constructor (store: Store)
      ensures this.store == store && log == []
    {
      this.store := store;
      log := [];
    }

    /** `blob.OpenBucket`: fails with the store's open error, or opens a bucket handle. */
    method OpenBucket() returns (err: Option<GoString>)
      modifies this`log
      ensures err == store.openError
      ensures log == old(log) + if err.None? then [Opened(BucketHandle)] else []
    {
      err := store.openError;
      if err.None? {
        log := log + [Opened(BucketHandle)];
      }
    }

    method CloseBucket()
      modifies this`log
      ensures log == old(log) + [Closed(BucketHandle)]
    {
      log := log + [Closed(BucketHandle)];
    }

    /** `bucket.NewReader`: on success the reader gives access to the object's bytes. */
    method NewReader(key: GoString) returns (r: Result<GoString, GoString>)
      modifies this`log
      ensures r == OpenKey(store, key)
      ensures log == old(log) + if r.Success? then [Opened(ReaderHandle(key))] else []
    {
      r := OpenKey(store, key);
      if r.Success? {
        log := log + [Opened(ReaderHandle(key))];
      }
    }

    method CloseReader(key: GoString)
      modifies this`log
      ensures log == old(log) + [Closed(ReaderHandle(key))]
    {
      log := log + [Closed(ReaderHandle(key))];
    }

    /**
     * `fetchFromBucket`: opens the bucket and the key, drains the reader
     * through a limit of `maxSize` bytes, and closes the reader and then the
     * bucket on every path out.
     */
    method Fetch(key: GoString, maxSize: int) returns (r: Result<GoString, GoString>)
      modifies this`log
      ensures r == Fetched(store, key, maxSize)
      ensures log == old(log) + FetchTrace(store, key)
    {
      var bucketErr := OpenBucket();
      if bucketErr.Some? {
        return Failure(OpenBucketPrefix + bucketErr.value);
      }
      var reader := NewReader(key);
      if reader.Failure? {
        CloseBucket();
        return Failure(OpenKeyMessage(key, reader.error));
      }
      var obj := reader.value;
      // io.ReadAll(io.LimitReader(reader, maxSize)), one byte at a time: the
      // limited reader asks the stream for more until the limit is used up
      // or the stream reports the end of file
      var remaining := if maxSize < 0 then 0 else maxSize;
      var buf: GoString := [];
      while remaining > 0
        invariant |buf| <= |obj| && buf == obj[..|buf|]
        invariant 0 <= remaining && |buf| + remaining == if maxSize < 0 then 0 else maxSize
        invariant key in store.readFaults ==> |buf| <= store.readFaults[key].at
        decreases remaining
      {
        if key in store.readFaults && store.readFaults[key].at == |buf| {
          CloseReader(key);
          CloseBucket();
          return Failure(ReadPrefix + store.readFaults[key].cause);
        }
        if |buf| == |obj| {
          break;
        }
        buf := buf + [obj[|buf|]];
        remaining := remaining - 1;
      }
      CloseReader(key);
      CloseBucket();
      return Success(buf);
    }
  }
}
