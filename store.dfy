/**
 * The SQLite table `kv (key TEXT UNIQUE, value BLOB)` reduced to what the
 * store uses: a finite map from keys to stored (compressed) bytes. The
 * UNIQUE key makes it a map; `REPLACE INTO` is a map update and
 * `DELETE ... WHERE key = ?` a map subtraction.
 */
module Store {
  import opened Codec
  import opened KeyOrder

  type Key = string

  /** The rows of `kv`: each key with its stored, compressed value. */
  type Table = map<Key, Bytes>

  /** A row as a scan yields it, value already decompressed. */
  type Row = (Key, Bytes)

  /**
   * The database file at `db_path`: the rows committed to it. Several
   * connections over time, from the same or from different store objects,
   * see the same file.
   */
  class Disk {
    var rows: Table

    /** A new, empty database file (the table is created on first connect). */
    constructor ()
      ensures rows == map[]
    {
      rows := map[];
    }
  }

  /** The WHERE clause of the range query: `key >= start AND key < end`. */
  predicate InRange(k: Key, start: Key, end: Key): (selected: bool) {
    !Below(k, start) && Below(k, end)
  }

  /** The keys of `t` that the range query selects. */
  function Selected(t: Table, start: Key, end: Key): (s: set<Key>) {
    set k | k in t && InRange(k, start, end)
  }

  /** The keys of a sequence of rows, in order. */
  function KeysOf(rows: seq<Row>): (ks: seq<Key>) {
    seq(|rows|, i requires 0 <= i < |rows| => rows[i].0)
  }

  /** A range selects nothing unless `start` sorts before `end`. */
  lemma RangeEmptyUnlessOrdered(t: Table, start: Key, end: Key)
    requires !Below(start, end)
    ensures Selected(t, start, end) == {}
  {
    forall k | k in t && InRange(k, start, end)
      ensures false
    {
      if start != end {
        BelowTotal(start, end);
        BelowTransitive(k, end, start);
      }
    }
  }

  /** The range is half-open: `end` is never selected, `start` is whenever stored and below `end`. */
  lemma RangeHalfOpen(t: Table, start: Key, end: Key)
    ensures end !in Selected(t, start, end)
    ensures start in t && Below(start, end) ==> start in Selected(t, start, end)
  {
    BelowIrreflexive(end);
    BelowIrreflexive(start);
  }
}
