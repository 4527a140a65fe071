/**
 * The repository's test scenarios replayed against the model: each method
 * runs the calls of one test on a fresh file, returns what the test observes,
 * and its postcondition states what the test asserts about it. Where the
 * test asserts an order the query does not promise (test_iter), the
 * postcondition states only what the query does promise.
 */
module Scenarios {
  import opened Wrappers
  import opened Codec
  import opened KeyOrder
  import opened Listing
  import opened Store
  import opened Zlibdb

  const World: Bytes := [119, 111, 114, 108, 100]   // b'world'
  const ValueBytes: Bytes := [118, 97, 108, 117, 101]   // b'value'
  const Value1: Bytes := [118, 97, 108, 117, 101, 49]   // b'value1'
  const Value2: Bytes := [118, 97, 108, 117, 101, 50]   // b'value2'

  /** Values written before `close` are there after reopening the file with a new store. */
  method Persisted(codec: Transforms)
    returns (hasAbc: Result<bool, Error>, abc: Result<Bytes, Error>,
             hasXyz: Result<bool, Error>, xyz: Result<Bytes, Error>, hasMissing: Result<bool, Error>,
             missing: Result<Option<Bytes>, Error>, missingItem: Result<Bytes, Error>)
    requires Lossless(codec)
    ensures hasAbc == Success(true) && abc == Success(codec.encode("hello", DefaultEncoding))
    ensures hasXyz == Success(true) && xyz == Success(World)
    ensures hasMissing == Success(false) && missing == Success(None)
    ensures missingItem == Failure(KeyError("nonexist"))
  {
    var disk := new Disk();
    var db := Open(disk, codec);
    var ok := db.SetItem("abc", Text("hello"));
    ok := db.Put("xyz", Blob(World));
    ok := db.Close();
    db := Open(disk, codec);
    hasAbc := db.Contains("abc");
    abc := db.GetItem("abc");
    hasXyz := db.Contains("xyz");
    xyz := db.GetItem("xyz");
    hasMissing := db.Contains("nonexist");
    missing := db.Get("nonexist");
    missingItem := db.GetItem("nonexist");
  }

  /** `del` removes a key, `delete` removes a key, and `del` of an absent key is a KeyError. */
  method Deletion(codec: Transforms)
    returns (has1: Result<bool, Error>, has2: Result<bool, Error>, deleted: Outcome<Error>,
             gone1: Result<bool, Error>, gone2: Result<bool, Error>, again: Outcome<Error>)
    requires Lossless(codec)
    ensures has1 == Success(true) && has2 == Success(true)
    ensures deleted == Pass && gone1 == Success(false) && gone2 == Success(false)
    ensures again == Fail(KeyError("key1"))
  {
    var disk := new Disk();
    var db := Open(disk, codec);
    var ok := db.SetItem("key1", Text("value1"));
    ok := db.SetItem("key2", Text("value2"));
    has1 := db.Contains("key1");
    has2 := db.Contains("key2");
    deleted := db.DelItem("key1");
    gone1 := db.Contains("key1");
    ok := db.Delete("key2");
    gone2 := db.Contains("key2");
    again := db.DelItem("key1");
  }

  /** Writing one key twice keeps one row and the latest value. */
  method Overwrite(codec: Transforms) returns (size: Result<nat, Error>, value: Result<Bytes, Error>)
    requires Lossless(codec)
    ensures size == Success(1) && value == Success(Value2)
  {
    var disk := new Disk();
    var db := Open(disk, codec);
    var ok := db.SetItem("key", Blob(Value1));
    ok := db.SetItem("key", Blob(Value2));
    size := db.Size();
    value := db.GetItem("key");
  }

  /** Leaving a `with` block closes the store; entering again reopens it and sees the committed value. */
  method WithStatement(codec: Transforms)
    returns (inside: Result<Bytes, Error>, closed: Result<Bytes, Error>, reopened: Result<Bytes, Error>)
    requires Lossless(codec)
    ensures inside == Success(ValueBytes) && reopened == Success(ValueBytes)
    ensures closed == Failure(ClosedHandle)
  {
    var disk := new Disk();
    var db := Open(disk, codec);
    db := db.Enter();
    var ok := db.SetItem("key", Blob(ValueBytes));
    inside := db.GetItem("key");
    ok := db.Exit();
    closed := db.GetItem("key");
    db := db.Enter();
    reopened := db.GetItem("key");
    ok := db.Exit();
  }

  /** Over keys a, b, c the range [a, c) is exactly a then b. */
  lemma RangeAToC(rows: seq<Row>, v: Bytes)
    requires IsRangeScan(rows, map["a" := v, "b" := v, "c" := v], "a", "c")
    ensures rows == [("a", v), ("b", v)]
  {
    var contents := map["a" := v, "b" := v, "c" := v];
    var expected := [("a", v), ("b", v)];
    assert Selected(contents, "a", "c") == {"a", "b"} by {
      assert Below("a", "c") && Below("b", "c") && !Below("c", "c");
      assert !Below("a", "a") && !Below("b", "a");
    }
    assert KeysOf(expected) == ["a", "b"];
    assert Below("a", "b");
    RangeScanUnique(rows, expected, contents, "a", "c");
  }

  /** Iterating the store yields each of its keys once. */
  method Iteration(codec: Transforms) returns (keys: Result<seq<Key>, Error>)
    requires Lossless(codec)
    ensures keys.Success? && ListsEachOnce(keys.value, {"a", "b", "c"}) && |keys.value| == 3
  {
    var disk := new Disk();
    var db := Open(disk, codec);
    var ok := db.SetItem("a", Text("value"));
    ok := db.SetItem("b", Text("value"));
    ok := db.SetItem("c", Text("value"));
    assert db.Contents().Keys == {"a", "b", "c"};
    keys := db.Iter();
    ListingLength(keys.value, {"a", "b", "c"});
  }

  /** The keys "0" to "9" of the scan tests, each with its digit as bytes (`str(i).encode('utf8')`). */
  const Digits: map<Key, Bytes> := map[
    "0" := [48], "1" := [49], "2" := [50], "3" := [51], "4" := [52],
    "5" := [53], "6" := [54], "7" := [55], "8" := [56], "9" := [57]]

  /** Ten distinct keys. */
  lemma DigitsCount()
    ensures |Digits| == 10
  {
    var s: set<Key> := {"0"};
    assert "1" !in s; s := s + {"1"};
    assert "2" !in s; s := s + {"2"};
    assert "3" !in s; s := s + {"3"};
    assert "4" !in s; s := s + {"4"};
    assert "5" !in s; s := s + {"5"};
    assert "6" !in s; s := s + {"6"};
    assert "7" !in s; s := s + {"7"};
    assert "8" !in s; s := s + {"8"};
    assert "9" !in s; s := s + {"9"};
    assert |s| == 10;
    assert Digits.Keys == s;
  }

  /** A store holding `Digits`, written in ascending key order as the scan tests write it. */
  method DigitStore(codec: Transforms) returns (db: ZlibDB)
    requires Lossless(codec)
    ensures fresh(db) && db.connected && db.Contents() == Digits
  {
    var disk := new Disk();
    db := Open(disk, codec);
    var ok := db.SetItem("0", Blob([48]));
    ok := db.SetItem("1", Blob([49]));
    ok := db.SetItem("2", Blob([50]));
    ok := db.SetItem("3", Blob([51]));
    ok := db.SetItem("4", Blob([52]));
    ok := db.SetItem("5", Blob([53]));
    ok := db.SetItem("6", Blob([54]));
    ok := db.SetItem("7", Blob([55]));
    ok := db.SetItem("8", Blob([56]));
    ok := db.SetItem("9", Blob([57]));
  }

  /** The keys of `Digits`, each holding `v`. */
  function Uniform(v: Bytes): (m: map<Key, Bytes>) {
    map["0" := v, "1" := v, "2" := v, "3" := v, "4" := v,
        "5" := v, "6" := v, "7" := v, "8" := v, "9" := v]
  }

  /** A store holding the text "value" under each key of `Digits`, as test_keys writes it. */
  method TextStore(codec: Transforms) returns (db: ZlibDB)
    requires Lossless(codec)
    ensures fresh(db) && db.connected
    ensures db.Contents() == Uniform(codec.encode("value", DefaultEncoding))
  {
    var disk := new Disk();
    db := Open(disk, codec);
    var ok := db.SetItem("0", Text("value"));
    ok := db.SetItem("1", Text("value"));
    ok := db.SetItem("2", Text("value"));
    ok := db.SetItem("3", Text("value"));
    ok := db.SetItem("4", Text("value"));
    ok := db.SetItem("5", Text("value"));
    ok := db.SetItem("6", Text("value"));
    ok := db.SetItem("7", Text("value"));
    ok := db.SetItem("8", Text("value"));
    ok := db.SetItem("9", Text("value"));
  }

  /** `keys()` over ten written keys yields each of them once. */
  method KeysScan(codec: Transforms) returns (keys: Result<seq<Key>, Error>)
    requires Lossless(codec)
    ensures keys.Success? && ListsEachOnce(keys.value, Digits.Keys) && |keys.value| == 10
  {
    var db := TextStore(codec);
    assert db.Contents().Keys == Digits.Keys;
    keys := db.Keys();
    ListingLength(keys.value, Digits.Keys);
    DigitsCount();
  }

  /** `values()` yields the ten written values, one per key, in the order of some listing of the keys. */
  method ValuesScan(codec: Transforms) returns (values: Result<seq<Bytes>, Error>, ghost order: seq<Key>)
    requires Lossless(codec)
    ensures values.Success? && |values.value| == 10
    ensures ListsEachOnce(order, Digits.Keys) && |order| == 10
    ensures forall i :: 0 <= i < 10 ==> order[i] in Digits && values.value[i] == Digits[order[i]]
  {
    var db := DigitStore(codec);
    values, order := db.Values();
    ListingLength(order, Digits.Keys);
    DigitsCount();
  }

  /** `items()` yields the ten written pairs, each key once with its value. */
  method ItemsScan(codec: Transforms) returns (items: Result<seq<Row>, Error>)
    requires Lossless(codec)
    ensures items.Success? && IsFullScan(items.value, Digits) && |items.value| == 10
  {
    var db := DigitStore(codec);
    items := db.Items();
    FullScanLength(items.value, Digits);
    DigitsCount();
  }
}
