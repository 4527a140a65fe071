/**
 * ZlibDB: a key-value store over one SQLite table whose values are zlib
 * compressed on the way in and decompressed on the way out.
 *
 * The connection's view of the table is the field `live`; the database file
 * is a `Disk` object whose `rows` are what has been committed. A handle is
 * open while `connected` holds; every use of a closed handle fails with
 * `ClosedHandle`, where the Python object raises AttributeError on `None`.
 */
module Zlibdb {
  import opened Wrappers
  import opened Codec
  import opened KeyOrder
  import opened Listing
  import opened Store

  datatype Error =
    | TypeError            // `put` of a value that is neither str nor bytes
    | KeyError(key: Key)   // indexed read or delete of an absent key
    | ClosedHandle         // use of the connection after `close`

  /** What a caller may pass to `put`: a str, a bytes object, or anything else. */
  datatype Value = Text(text: string) | Blob(data: Bytes) | Unsupported

  const DefaultEncoding: string := "utf-8"
  const DefaultLevel: int := 9

  /** The bytes `put` compresses for `value`: text is encoded, anything but bytes is refused. */
  function Normalize(value: Value, encoding: string, c: Transforms): (r: Result<Bytes, Error>) {
    match value
    case Text(s) => Success(c.encode(s, encoding))
    case Blob(b) => Success(b)
    case Unsupported => Failure(TypeError)
  }

  /** The compression level `put` uses: the caller's, or the store's default when none is given. */
  function EffectiveLevel(level: Option<int>, default: int): (l: int) {
    match level
    case Some(l) => l
    case None => default
  }

  /** What `get` returns on an open connection whose table is `t`. */
  function Lookup(t: Table, c: Transforms, key: Key): (r: Option<Bytes>) {
    if key in t then Some(c.decompress(t[key])) else None
  }

  /** The logical contents of a table: each key with its decompressed value. */
  ghost function Decompressed(t: Table, c: Transforms): (m: map<Key, Bytes>)
    ensures m.Keys == t.Keys
  {
    map k | k in t :: c.decompress(t[k])
  }

  /** `rows` is what `items()` may yield for `contents`: every pair once, in some order. */
  ghost predicate IsFullScan(rows: seq<Row>, contents: map<Key, Bytes>) {
    && ListsEachOnce(KeysOf(rows), contents.Keys)
    && forall i :: 0 <= i < |rows| ==> rows[i].0 in contents && rows[i].1 == contents[rows[i].0]
  }

  /** `rows` is what `range(start, end)` yields for `contents`: the pairs with `start <= key < end`, ascending. */
  ghost predicate IsRangeScan(rows: seq<Row>, contents: map<Key, Bytes>, start: Key, end: Key) {
    && StrictlyAscending(KeysOf(rows))
    && ListsEachOnce(KeysOf(rows), Selected(contents, start, end))
    && forall i :: 0 <= i < |rows| ==> rows[i].0 in contents && rows[i].1 == contents[rows[i].0]
  }

  /** After an upsert, `get` of that key returns what was written; other keys are untouched; the count grows only for a new key. */
  lemma PutThenGet(t: Table, c: Transforms, key: Key, data: Bytes, level: int, other: Key)
    requires Lossless(c)
    ensures Lookup(t[key := c.compress(data, level)], c, key) == Some(data)
    ensures other != key ==> Lookup(t[key := c.compress(data, level)], c, other) == Lookup(t, c, other)
    ensures |t[key := c.compress(data, level)]| == if key in t then |t| else |t| + 1
  {
  }

  /** Writing one key twice leaves the count as after the first write, and `get` returns the second value. */
  lemma OverwriteKeepsCount(t: Table, c: Transforms, key: Key, first: Bytes, l1: int, second: Bytes, l2: int)
    requires Lossless(c)
    ensures var once := t[key := c.compress(first, l1)];
            var twice := once[key := c.compress(second, l2)];
            |twice| == |once| && Lookup(twice, c, key) == Some(second)
  {
  }

  /** Deleting removes exactly `key`, is a no-op on an absent key, and so is idempotent. */
  lemma DeleteRemovesExactly(t: Table, key: Key)
    ensures key !in t - {key}
    ensures forall k :: k != key ==> (k in t - {key} <==> k in t)
    ensures forall k :: k in t - {key} ==> (t - {key})[k] == t[k]
    ensures key !in t ==> t - {key} == t
    ensures (t - {key}) - {key} == t - {key}
    ensures |t - {key}| == if key in t then |t| - 1 else |t|
  {
  }

  /** A full scan yields as many rows as `size()` counts. */
  lemma FullScanLength(rows: seq<Row>, contents: map<Key, Bytes>)
    requires IsFullScan(rows, contents)
    ensures |rows| == |contents|
  {
    ListingLength(KeysOf(rows), contents.Keys);
  }

  /** The range scan is deterministic: only one sequence of rows satisfies it. */
  lemma RangeScanUnique(a: seq<Row>, b: seq<Row>, contents: map<Key, Bytes>, start: Key, end: Key)
    requires IsRangeScan(a, contents, start, end) && IsRangeScan(b, contents, start, end)
    ensures a == b
  {
    AscendingListingUnique(KeysOf(a), KeysOf(b), Selected(contents, start, end));
    assert |a| == |b|;
    forall i | 0 <= i < |a|
      ensures a[i] == b[i]
    {
      assert KeysOf(a)[i] == KeysOf(b)[i];
    }
  }

  /** `range(start, end)` is empty when `start >= end`. */
  lemma RangeScanEmpty(rows: seq<Row>, contents: map<Key, Bytes>, start: Key, end: Key)
    requires IsRangeScan(rows, contents, start, end)
    requires !Below(start, end)
    ensures rows == []
  {
    RangeEmptyUnlessOrdered(contents, start, end);
    ListingLength(KeysOf(rows), Selected(contents, start, end));
  }

  class ZlibDB {
    const disk: Disk          // the database file at `db_path`
    const encoding: string
    const level: int
    const codec: Transforms
    var connected: bool       // `self.conn is not None`
    var live: Table           // the table as the open connection sees it

    /** The codec the store was built with keeps zlib's promise. */
    ghost predicate Valid() {
      Lossless(codec)
    }

    /** The logical mapping from keys to values. */
    ghost function Contents(): (m: map<Key, Bytes>)
      reads this
      ensures m.Keys == live.Keys
    {
      Decompressed(live, codec)
    }

    /** `ZlibDB(db_path, encoding='utf-8', level=9)`: records the settings and connects. */
    constructor (disk: Disk, codec: Transforms, encoding: string := DefaultEncoding, level: int := DefaultLevel)
      requires Lossless(codec)
      ensures Valid()
      ensures this.disk == disk && this.codec == codec
      ensures this.encoding == encoding && this.level == level
      ensures connected && live == disk.rows
    {
      this.disk := disk;
      this.codec := codec;
      this.encoding := encoding;
      this.level := level;
      new;
      Connect();
    }

    /** `_connect`: a new connection sees what has been committed to the file. */
    method Connect()
      modifies this`connected, this`live
      ensures connected && live == disk.rows
    {
      connected := true;
      live := disk.rows;
    }

    /** `close`: commit, then drop the connection. */
    method Close() returns (r: Outcome<Error>)
      modifies this`connected, disk`rows
      ensures !connected && live == old(live)
      ensures old(connected) ==> r == Pass && disk.rows == old(live)
      ensures !old(connected) ==> r == Fail(ClosedHandle) && disk.rows == old(disk.rows)
    {
      if !connected {
        return Fail(ClosedHandle);
      }
      disk.rows := live;
      connected := false;
      r := Pass;
    }

    /** `commit`: make the connection's writes durable. */
    method Commit() returns (r: Outcome<Error>)
      modifies disk`rows
      ensures connected ==> r == Pass && disk.rows == live
      ensures !connected ==> r == Fail(ClosedHandle) && disk.rows == old(disk.rows)
    {
      if !connected {
        return Fail(ClosedHandle);
      }
      disk.rows := live;
      r := Pass;
    }

    /** `get`: the value stored for `key`, or `None` when there is none. */
    function Get(key: Key): (r: Result<Option<Bytes>, Error>)
      reads this
      ensures !connected ==> r == Failure(ClosedHandle)
      ensures connected ==> r == Success(if key in Contents() then Some(Contents()[key]) else None)
    {
      if connected then Success(Lookup(live, codec, key)) else Failure(ClosedHandle)
    }

    /** `put`: encode text, refuse anything but bytes, compress and upsert. */
    method Put(key: Key, value: Value, level: Option<int> := None) returns (r: Outcome<Error>)
      modifies this`live
      ensures value.Unsupported? ==> r == Fail(TypeError) && live == old(live)
      ensures !value.Unsupported? && !connected ==> r == Fail(ClosedHandle) && live == old(live)
      ensures !value.Unsupported? && connected ==>
        && r == Pass
        && live == old(live)[key := codec.compress(Normalize(value, encoding, codec).value,
                                                   EffectiveLevel(level, this.level))]
      ensures Valid() && r.Pass? ==> Contents() == old(Contents())[key := Normalize(value, encoding, codec).value]
    {
      var lv := EffectiveLevel(level, this.level);
      var data := Normalize(value, encoding, codec);
      if data.Failure? {
        return Fail(data.error);
      }
      var blob := codec.compress(data.value, lv);
      if !connected {
        return Fail(ClosedHandle);
      }
      live := live[key := blob];
      r := Pass;
    }

    /** `delete`: remove the row for `key`; nothing happens when there is none. */
    method Delete(key: Key) returns (r: Outcome<Error>)
      modifies this`live
      ensures !connected ==> r == Fail(ClosedHandle) && live == old(live)
      ensures connected ==> r == Pass && live == old(live) - {key}
      ensures connected ==> Contents() == old(Contents()) - {key}
    {
      if !connected {
        return Fail(ClosedHandle);
      }
      live := live - {key};
      r := Pass;
    }

    /** `size`: the number of distinct keys stored. */
    function Size(): (r: Result<nat, Error>)
      reads this
      ensures !connected ==> r == Failure(ClosedHandle)
      ensures connected ==> r == Success(|Contents()|)
    {
      if connected then Success(|live|) else Failure(ClosedHandle)
    }

    /** `__contains__`: whether a row exists for `key`; only the key set is consulted. */
    function Contains(key: Key): (r: Result<bool, Error>)
      reads this
      ensures !connected ==> r == Failure(ClosedHandle)
      ensures connected ==> r == Success(key in Contents())
    {
      if connected then Success(key in live) else Failure(ClosedHandle)
    }

    /** `__getitem__`: like `get`, but an absent key is a KeyError. */
    function GetItem(key: Key): (r: Result<Bytes, Error>)
      reads this
      ensures !connected ==> r == Failure(ClosedHandle)
      ensures connected && key !in Contents() ==> r == Failure(KeyError(key))
      ensures connected && key in Contents() ==> r == Success(Contents()[key])
    {
      match Get(key)
      case Failure(e) => Failure(e)
      case Success(None) => Failure(KeyError(key))
      case Success(Some(v)) => Success(v)
    }

    /** `__setitem__`: `put` at the default level. */
    method SetItem(key: Key, value: Value) returns (r: Outcome<Error>)
      modifies this`live
      ensures value.Unsupported? ==> r == Fail(TypeError) && live == old(live)
      ensures !value.Unsupported? && !connected ==> r == Fail(ClosedHandle) && live == old(live)
      ensures !value.Unsupported? && connected ==>
        && r == Pass
        && live == old(live)[key := codec.compress(Normalize(value, encoding, codec).value, this.level)]
      ensures Valid() && r.Pass? ==> Contents() == old(Contents())[key := Normalize(value, encoding, codec).value]
    {
      r := Put(key, value);
    }

    /** `__delitem__`: check first; an absent key is a KeyError and changes nothing. */
    method DelItem(key: Key) returns (r: Outcome<Error>)
      modifies this`live
      ensures !connected ==> r == Fail(ClosedHandle) && live == old(live)
      ensures connected && key !in old(live) ==> r == Fail(KeyError(key)) && live == old(live)
      ensures connected && key in old(live) ==> r == Pass && live == old(live) - {key}
    {
      var present := Contains(key);
      if present.Failure? {
        return Fail(present.error);
      }
      if !present.value {
        return Fail(KeyError(key));
      }
      r := Delete(key);
    }

    /** `keys`: every stored key once, in the order the engine returns rows. */
    method Keys() returns (r: Result<seq<Key>, Error>)
      ensures !connected ==> r == Failure(ClosedHandle)
      ensures connected ==> r.Success? && ListsEachOnce(r.value, Contents().Keys)
    {
      if !connected {
        return Failure(ClosedHandle);
      }
      var remaining := live.Keys;
      var ks: seq<Key> := [];
      while remaining != {}
        invariant remaining <= live.Keys
        invariant ListsEachOnce(ks, live.Keys - remaining)
        decreases remaining
      {
        var k :| k in remaining;
        ks := ks + [k];
        remaining := remaining - {k};
      }
      r := Success(ks);
    }

    /** `__iter__`: the same as `keys`. */
    method Iter() returns (r: Result<seq<Key>, Error>)
      ensures !connected ==> r == Failure(ClosedHandle)
      ensures connected ==> r.Success? && ListsEachOnce(r.value, Contents().Keys)
    {
      r := Keys();
    }

    /** `values`: one decompressed value per stored row; `order` is the engine's row order. */
    method Values() returns (r: Result<seq<Bytes>, Error>, ghost order: seq<Key>)
      ensures !connected ==> r == Failure(ClosedHandle)
      ensures connected ==> r.Success? && ListsEachOnce(order, Contents().Keys) && |r.value| == |order|
      ensures connected ==> forall i :: 0 <= i < |order| ==> r.value[i] == Contents()[order[i]]
    {
      order := [];
      if !connected {
        return Failure(ClosedHandle), order;
      }
      var remaining := live.Keys;
      var vs: seq<Bytes> := [];
      while remaining != {}
        invariant remaining <= live.Keys
        invariant ListsEachOnce(order, live.Keys - remaining)
        invariant |vs| == |order|
        invariant forall i :: 0 <= i < |order| ==> order[i] in live && vs[i] == codec.decompress(live[order[i]])
        decreases remaining
      {
        var k :| k in remaining;
        vs := vs + [codec.decompress(live[k])];
        order := order + [k];
        remaining := remaining - {k};
      }
      r := Success(vs);
    }

    /** `items`: every stored pair once, value decompressed, in the engine's row order. */
    method Items() returns (r: Result<seq<Row>, Error>)
      ensures !connected ==> r == Failure(ClosedHandle)
      ensures connected ==> r.Success? && IsFullScan(r.value, Contents())
    {
      if !connected {
        return Failure(ClosedHandle);
      }
      var remaining := live.Keys;
      var rows: seq<Row> := [];
      while remaining != {}
        invariant remaining <= live.Keys
        invariant ListsEachOnce(KeysOf(rows), live.Keys - remaining)
        invariant forall i :: 0 <= i < |rows| ==> rows[i].0 in live && rows[i].1 == codec.decompress(live[rows[i].0])
        decreases remaining
      {
        var k :| k in remaining;
        var row := (k, codec.decompress(live[k]));
        assert KeysOf(rows + [row]) == KeysOf(rows) + [k];
        rows := rows + [row];
        remaining := remaining - {k};
      }
      r := Success(rows);
    }

    /** `range`: the pairs with `start <= key < end`, ascending by key, values decompressed. */
    method Range(start: Key, end: Key) returns (r: Result<seq<Row>, Error>)
      ensures !connected ==> r == Failure(ClosedHandle)
      ensures connected ==> r.Success? && IsRangeScan(r.value, Contents(), start, end)
    {
      if !connected {
        return Failure(ClosedHandle);
      }
      var selected := Selected(live, start, end);
      var remaining := selected;
      var rows: seq<Row> := [];
      while remaining != {}
        invariant remaining <= selected
        invariant ListsEachOnce(KeysOf(rows), selected - remaining)
        invariant StrictlyAscending(KeysOf(rows))
        invariant forall i, k :: 0 <= i < |rows| && k in remaining ==> Below(rows[i].0, k)
        invariant forall i :: 0 <= i < |rows| ==> rows[i].0 in live && rows[i].1 == codec.decompress(live[rows[i].0])
        decreases remaining
      {
        MinimumExists(remaining);
        var k :| k in remaining && forall j :: j in remaining ==> AtMost(k, j);
        var row := (k, codec.decompress(live[k]));
        assert KeysOf(rows + [row]) == KeysOf(rows) + [k];
        rows := rows + [row];
        remaining := remaining - {k};
      }
      assert Selected(Contents(), start, end) == selected;
      r := Success(rows);
    }

    /** `__len__`: the same as `size`. */
    function Len(): (r: Result<nat, Error>)
      reads this
      ensures !connected ==> r == Failure(ClosedHandle)
      ensures connected ==> r == Success(|Contents()|)
    {
      Size()
    }

    /** `__enter__`: reconnect only when the handle is closed; hand back the store itself. */
    method Enter() returns (db: ZlibDB)
      modifies this`connected, this`live
      ensures db == this && connected
      ensures old(connected) ==> live == old(live)
      ensures !old(connected) ==> live == disk.rows
    {
      if !connected {
        Connect();
      }
      db := this;
    }

    /** `__exit__`: close the store, committing its writes. */
    method Exit() returns (r: Outcome<Error>)
      modifies this`connected, disk`rows
      ensures !connected && live == old(live)
      ensures old(connected) ==> r == Pass && disk.rows == old(live)
      ensures !old(connected) ==> r == Fail(ClosedHandle) && disk.rows == old(disk.rows)
    {
      r := Close();
    }
  }

  /** The module's `open` factory: a new store over the file `disk`. */
  method Open(disk: Disk, codec: Transforms, encoding: string := DefaultEncoding, level: int := DefaultLevel)
    returns (db: ZlibDB)
    requires Lossless(codec)
    ensures fresh(db) && db.Valid()
    ensures db.disk == disk && db.codec == codec && db.encoding == encoding && db.level == level
    ensures db.connected && db.live == disk.rows
  {
    db := new ZlibDB(disk, codec, encoding, level);
  }
}
