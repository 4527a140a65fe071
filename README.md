# ZlibDB, modelled in Dafny

ZlibDB is a small key-value store. It keeps one SQLite table
`kv (key TEXT UNIQUE, value BLOB)`. Values are compressed with zlib when they are
written and decompressed when they are read. The store has a dictionary-like API:
`get`, `put`, `delete`, `in`, `len`, iteration and a half-open `range` scan. It also
has an open/closed connection with `close`, `commit` and `with`-block support.

The model has these parts:

- `Codec` stands in for `zlib.compress`, `zlib.decompress` and `str.encode`. A codec is
  any three functions, held in a `Transforms` value. `Lossless(c)` is the one promise of zlib that the store relies on:
  decompressing a compressed value gives it back.
- `Store` is the SQLite table. It is a `map<Key, Bytes>` of compressed values, which
  captures the UNIQUE key. `REPLACE INTO` is a map update and `DELETE` is a map
  subtraction. The class `Disk` is the database file: the rows committed to it.
- `KeyOrder` is the order of `ORDER BY key ASC`. It is lexicographic by code point, which
  is SQLite's BINARY collation on UTF-8 and also Python's `str` order. It proves that this
  order is strict and total, and that every finite set of keys has a least element.
- `Listing` describes a sequence that lists each key of a set exactly once. It proves
  that such a listing is as long as the set. It also proves that only one listing is
  strictly ascending.
- `Zlibdb` holds the class `ZlibDB` and the `Open` factory. An open connection sees
  the field `live`. `commit` and `close` copy `live` to the file. Connecting reloads
  `live` from the file, so a new store over the same file sees what was committed.
  A closed handle is `connected == false`. Every operation that touches the connection
  then fails with `ClosedHandle`, just as the Python object raises AttributeError on
  `self.conn is None`. `Contents()` is the logical mapping: each key with its
  decompressed value.
- `Scenarios` replays the eight tests of tests/test_basic.py against the model. For the
  scan tests it states what the queries promise, which is each row once, and not the order
  the tests check.

The scans without `ORDER BY` (`keys`, `values`, `items`) pick any remaining row at each
step. So they promise only that each stored row appears once. `range` always takes the
smallest remaining key, so its result is strictly ascending, and `RangeScanUnique` shows
the result is fully determined. The repository's tests assert ascending order for
`keys`, `values` and `items` (tests/test_basic.py:58, 68, 77, 85). Only `range` has
`ORDER BY` (zlibdb.py:77; compare 58, 64, 70), so the model follows the code. The tests'
ordered asserts hold for their inputs, but no `ORDER BY` promises them.

## Model

| member | source | states |
|---|---|---|
| `KeyOrder.BelowIrreflexive` | zlibdb.py:77 | no key sorts strictly before itself |
| `KeyOrder.BelowTransitive` | zlibdb.py:77 | the key order is transitive |
| `KeyOrder.BelowTotal` | zlibdb.py:77 | any two distinct keys are ordered one way or the other |
| `KeyOrder.MinimumExists` | zlibdb.py:76-79 | every non-empty set of keys has a least key, so an ordered scan can always go on |
| `Listing.ListingLength` | zlibdb.py:51-59 | a scan yielding each stored key once yields exactly as many keys as `size()` counts |
| `Listing.AscendingListingUnique` | zlibdb.py:76-79 | two strictly ascending listings of the same key set are equal |
| `Store.Disk.constructor` | zlibdb.py:13-15 | a new database file has an empty `kv` table |
| `Store.RangeEmptyUnlessOrdered` | zlibdb.py:73-80 | when `start >= end` the range selects no key |
| `Store.RangeHalfOpen` | zlibdb.py:74-78 | `end` is never selected; a stored `start` below `end` always is |
| `Zlibdb.PutThenGet` | zlibdb.py:25-45 | after an upsert `get` returns the value written, every other key reads as before, and the count grows by one only for a new key |
| `Zlibdb.OverwriteKeepsCount` | zlibdb.py:44-53 | writing one key twice leaves the count unchanged and `get` returns the latest value |
| `Zlibdb.DeleteRemovesExactly` | zlibdb.py:47-49 | delete removes exactly that key, leaves all others and their values, is a no-op on an absent key and is idempotent |
| `Zlibdb.FullScanLength` | zlibdb.py:67-71 | a full `items()` scan has as many rows as there are keys |
| `Zlibdb.RangeScanUnique` | zlibdb.py:73-80 | only one row sequence meets the range contract, so `range` is deterministic |
| `Zlibdb.RangeScanEmpty` | zlibdb.py:73-80 | `range(start, end)` yields nothing when `start >= end` |
| `Zlibdb.ZlibDB.constructor` | zlibdb.py:6-10 | keeps path, encoding (default utf-8), level (default 9) and codec, then connects and sees the file's rows |
| `Zlibdb.ZlibDB.Connect` | zlibdb.py:12-15 | afterwards the handle is open and sees exactly the committed rows |
| `Zlibdb.ZlibDB.Close` | zlibdb.py:17-20 | an open handle commits its rows to the file and closes; a closed one fails and changes nothing |
| `Zlibdb.ZlibDB.Commit` | zlibdb.py:22-23 | the file holds the connection's rows afterwards; on a closed handle it fails |
| `Zlibdb.ZlibDB.Get` | zlibdb.py:25-29 | the decompressed value of the key, `None` when absent, a failure on a closed handle |
| `Zlibdb.ZlibDB.Put` | zlibdb.py:31-45 | text is encoded and anything but bytes is a TypeError that changes nothing. Otherwise it upserts the value compressed at the given or default level, and the logical mapping gains exactly that key and value |
| `Zlibdb.ZlibDB.Delete` | zlibdb.py:47-49 | removes the key if present, succeeds either way, and the logical mapping loses exactly that key |
| `Zlibdb.ZlibDB.Size` | zlibdb.py:51-53 | the number of distinct stored keys |
| `Zlibdb.ZlibDB.Contains` | zlibdb.py:82-86 | whether the key is stored; the result depends only on the set of stored keys, not on any value |
| `Zlibdb.ZlibDB.GetItem` | zlibdb.py:88-92 | the key's value, or KeyError for an absent key |
| `Zlibdb.ZlibDB.SetItem` | zlibdb.py:94-95 | `put` at the store's default level |
| `Zlibdb.ZlibDB.DelItem` | zlibdb.py:97-100 | an absent key is a KeyError that changes nothing; a present key is removed as by `delete` |
| `Zlibdb.ZlibDB.Keys` | zlibdb.py:55-59 | every stored key exactly once and nothing else, in no promised order |
| `Zlibdb.ZlibDB.Iter` | zlibdb.py:102-103 | the same contract as `keys` |
| `Zlibdb.ZlibDB.Values` | zlibdb.py:61-65 | one decompressed value per stored row, in the order of some listing of the keys |
| `Zlibdb.ZlibDB.Items` | zlibdb.py:67-71 | every stored key once, each with its decompressed value |
| `Zlibdb.ZlibDB.Range` | zlibdb.py:73-80 | exactly the pairs with `start <= key < end`, strictly ascending by key, each value decompressed |
| `Zlibdb.ZlibDB.Len` | zlibdb.py:105-106 | the same as `size` |
| `Zlibdb.ZlibDB.Enter` | zlibdb.py:108-111 | reconnects only a closed handle, which then sees the committed rows; returns the store itself |
| `Zlibdb.ZlibDB.Exit` | zlibdb.py:113-114 | closes as `close` does |
| `Zlibdb.Open` | zlibdb.py:117-119 | a fresh, open store over the given file with the given settings |
| `Scenarios.Persisted` | tests/test_basic.py:22-36 | both keys written and closed are contained and hold their values after reopening the file; an absent key is not contained, `get` gives `None` and indexing gives KeyError |
| `Scenarios.Deletion` | tests/test_basic.py:38-49 | both written keys are contained; a `del` succeeds and removes its key, `delete` removes the other, and a second `del` of the same key is a KeyError |
| `Scenarios.KeysScan` | tests/test_basic.py:51-58 | `keys()` over the ten keys "0" to "9" yields each of them exactly once, ten keys in all |
| `Scenarios.ValuesScan` | tests/test_basic.py:60-68 | `values()` yields ten values, the i-th being the bytes written under the i-th key of a listing of the ten keys |
| `Scenarios.ItemsScan` | tests/test_basic.py:70-77 | `items()` yields each of the ten written keys once, each with the bytes written for it |
| `Scenarios.Overwrite` | tests/test_basic.py:87-92 | two writes to one key leave size 1 and the second value |
| `Scenarios.WithStatement` | tests/test_basic.py:94-103 | a read inside the block sees the write, a read after the block fails on the closed handle, and re-entering sees the value again |
| `Scenarios.RangeAToC` | zlibdb.py:73-80 | over keys a, b, c the range [a, c) is exactly a then b |
| `Scenarios.Iteration` | tests/test_basic.py:79-85 | iteration yields each of the three keys once; the order the test checks is not promised by the query |

## Left out

- zlib's algorithm and the meaning of `level` are not modelled. The codec is any triple of functions, and `Lossless` is the only property assumed of it. The zlib.error raised for an invalid level, or for rows that are not valid zlib data, is not modelled. In the model only `put` writes rows, so every stored value decompresses.
- Text encoding is an abstract `encode(text, encoding)`. The codec choice and encode errors (UnicodeEncodeError) are not modelled.
- Keys are strings only. SQLite and Python would also take other key types, and the order across mixed types is not modelled.
- SQLite itself is not modelled: SQL, cursors, file paths, the on-disk format and `CREATE TABLE` (a new file simply starts with an empty table). The file path is replaced by a `Disk` object.
- Generator laziness is not modelled. Each scan returns a whole sequence. On a closed handle the Python generators raise at the first `next()`, not at the call; the model fails at the call.
- Zlibdb.ZlibDB.Keys: no order is promised, because the query has no ORDER BY. The tests' ordered asserts hold for their inputs, but no ORDER BY promises them.
- Zlibdb.ZlibDB.Values: states its order only through a ghost listing of the keys, for the same reason.
- Rollback of uncommitted writes follows from the split between `live` and the file: only `commit` and `close` copy `live` to the file, and connecting reloads `live` from the file. So a store dropped without `close`, or a second `_connect` over an open connection, loses its uncommitted writes as SQLite's rollback does. The model has no explicit rollback step and does not model the leaked first connection. Crash durability and concurrent connections to one file are not modelled.
- Two stores open on one `Disk` at the same time are not modelled faithfully. `close` and `commit` copy the store's whole `live` table over the file, so the last store to close wins. For example, if db1 puts "a" and closes and then db2 puts "b" and closes, the model's file holds only "b". SQLite applies each connection's statements to the current file, so the real file would hold both rows.
- `__exit__` ignores its exception arguments in the source, and the model takes none.
- The `*args, **kwargs` of `open` are the constructor's parameters: the file, the codec, the encoding and the level.
