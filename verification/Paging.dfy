/** Paging through the unbonding history by byte-ordered storage keys (`all_unbond_history`, `convert`). */
module Paging {
  import opened FixedPoint

  // ---------------------------------------------------------------------------------------------
  // Keys and their order
  // ---------------------------------------------------------------------------------------------

  /** The last `n` bytes of a number, most significant first. */
  function BigEndian(x: nat, n: nat): (bytes: seq<nat>)
    ensures |bytes| == n
    ensures forall i :: 0 <= i < n ==> bytes[i] < 256
  {
    if n == 0 then [] else BigEndian(x / 256, n - 1) + [x % 256]
  }

  /** The storage key of a batch: its 64-bit id in big-endian bytes. */
  function Key(id: nat): seq<nat> {
    BigEndian(id, 8)
  }

  /** `convert`: the scan starts at the key of the given id with one more byte behind it. */
  function StartKey(startAfter: nat): seq<nat> {
    Key(startAfter) + [1]
  }

  /** Byte order, as the storage compares keys. */
  predicate LexLess(a: seq<nat>, b: seq<nat>) {
    if b == [] then false
    else if a == [] then true
    else a[0] < b[0] || (a[0] == b[0] && LexLess(a[1..], b[1..]))
  }

  function Power256(n: nat): nat {
    if n == 0 then 1 else 256 * Power256(n - 1)
  }

  /** Order of byte strings of the same length, decided by the front first and then by the last byte. */
  lemma {:induction false} LexSnoc(a: seq<nat>, b: seq<nat>, x: nat, y: nat)
    requires |a| == |b|
    ensures LexLess(a + [x], b + [y]) <==> LexLess(a, b) || (a == b && x < y)
    decreases |a|
  {
    if a == [] {
      assert (a + [x])[1..] == [] && (b + [y])[1..] == [];
    } else {
      LexSnoc(a[1..], b[1..], x, y);
      assert (a + [x])[1..] == a[1..] + [x] && (b + [y])[1..] == b[1..] + [y];
      assert a == [a[0]] + a[1..] && b == [b[0]] + b[1..];
    }
  }

  lemma {:induction false} BigEndianOrder(x: nat, y: nat, n: nat)
    requires x < Power256(n) && y < Power256(n)
    ensures LexLess(BigEndian(x, n), BigEndian(y, n)) <==> x < y
    ensures BigEndian(x, n) == BigEndian(y, n) <==> x == y
  {
    if n > 0 {
      BigEndianOrder(x / 256, y / 256, n - 1);
      var a, b := BigEndian(x / 256, n - 1), BigEndian(y / 256, n - 1);
      LexSnoc(a, b, x % 256, y % 256);
      assert (a + [x % 256])[..n - 1] == a && (b + [y % 256])[..n - 1] == b;
      assert (a + [x % 256])[n - 1] == x % 256 && (b + [y % 256])[n - 1] == y % 256;
    }
  }

  lemma IdsFitEightBytes()
    ensures Power256(8) == MAX_UINT64 + 1
  {
    assert Power256(1) == 256;
    assert Power256(2) == 65536;
    assert Power256(4) == 65536 * 65536;
    assert Power256(6) == 65536 * Power256(4);
  }

  /** Byte order of keys is the numeric order of ids. */
  lemma KeyOrder(a: nat, b: nat)
    requires a <= MAX_UINT64 && b <= MAX_UINT64
    ensures LexLess(Key(a), Key(b)) <==> a < b
    ensures Key(a) == Key(b) <==> a == b
  {
    IdsFitEightBytes();
    BigEndianOrder(a, b, 8);
  }

  lemma {:induction false} LexLonger(a: seq<nat>, b: seq<nat>, x: nat)
    requires |a| == |b|
    ensures LexLess(a, b + [x]) <==> LexLess(a, b) || a == b
    decreases |a|
  {
    if a != [] {
      LexLonger(a[1..], b[1..], x);
      assert (b + [x])[1..] == b[1..] + [x];
      assert a == [a[0]] + a[1..] && b == [b[0]] + b[1..];
    }
  }

  /** The extra byte makes the inclusive start of the scan mean "strictly after the given id". */
  lemma StartKeyExcludes(id: nat, startAfter: nat)
    requires id <= MAX_UINT64 && startAfter <= MAX_UINT64
    ensures !LexLess(Key(id), StartKey(startAfter)) <==> startAfter < id
  {
    LexLonger(Key(id), Key(startAfter), 1);
    KeyOrder(id, startAfter);
  }

  // ---------------------------------------------------------------------------------------------
  // The storage scan
  // ---------------------------------------------------------------------------------------------

  datatype Option<T> = None | Some(value: T)

  /** The keys from `start` on, in ascending byte order: what the storage's range query yields. */
  ghost predicate IsScan(ids: set<nat>, start: Option<seq<nat>>, scan: seq<nat>) {
    && (forall i, j :: 0 <= i < j < |scan| ==> LexLess(Key(scan[i]), Key(scan[j])))
    && (forall id: nat :: id in scan <==> id in ids && (start.None? || !LexLess(Key(id), start.value)))
  }

  const DEFAULT_LIMIT: nat := 10
  const MAX_LIMIT: nat := 100

  function PageLimit(limit: Option<nat>): nat {
    Min(if limit.Some? then limit.value else DEFAULT_LIMIT, MAX_LIMIT)
  }

  function Take(s: seq<nat>, n: nat): seq<nat> {
    if n < |s| then s[..n] else s
  }

  /** `all_unbond_history`, on the ids it returns: the first entries of a scan. */
  ghost predicate IsPage(ids: set<nat>, startAfter: Option<nat>, limit: Option<nat>, page: seq<nat>) {
    exists scan :: IsScan(ids, ScanStart(startAfter), scan) && page == Take(scan, PageLimit(limit))
  }

  /** The ids of a history whose current batch is `next`: exactly those below it. */
  ghost predicate Consecutive(ids: set<nat>, next: nat) {
    1 <= next <= MAX_UINT64 && forall id: nat :: id in ids <==> 1 <= id < next
  }

  function Range(lo: nat, hi: nat): (s: seq<nat>)
    requires lo <= hi
    ensures |s| == hi - lo
  {
    seq(hi - lo, i requires 0 <= i < hi - lo => lo + i)
  }

  /** An increasing sequence of exactly the ids from `lo` to `hi - 1` is their enumeration. */
  lemma {:induction false} IncreasingIsRange(s: seq<nat>, lo: nat, hi: nat)
    requires lo <= hi
    requires forall i, j :: 0 <= i < j < |s| ==> s[i] < s[j]
    requires forall id: nat :: id in s <==> lo <= id < hi
    ensures s == Range(lo, hi)
    decreases |s|
  {
    if s == [] {
      assert lo == hi by {
        assert lo !in s;
      }
    } else {
      assert s[0] in s;
      assert s[0] == lo by {
        assert lo in s;
        var k :| 0 <= k < |s| && s[k] == lo;
      }
      forall id: nat ensures id in s[1..] <==> lo + 1 <= id < hi {
        assert s == [s[0]] + s[1..];
        assert lo + 1 <= id < hi ==> id in s;
        if id in s[1..] {
          var k :| 0 <= k < |s| - 1 && s[1..][k] == id;
          assert s[k + 1] == id && id in s;
        }
      }
      IncreasingIsRange(s[1..], lo + 1, hi);
      assert s == [lo] + s[1..];
    }
  }

  /** The first id of a page. */
  function FirstId(startAfter: Option<nat>): nat {
    if startAfter.Some? && startAfter.value >= 1 then startAfter.value + 1 else 1
  }

  /** The ids from `lo` on that come before `next`, at most `count` of them. */
  function Upto(lo: nat, next: nat, count: nat): seq<nat> {
    if lo < next then Range(lo, Min(lo + count, next)) else []
  }

  ghost predicate ValidStart(startAfter: Option<nat>) {
    startAfter.Some? ==> startAfter.value <= MAX_UINT64
  }

  function ScanStart(startAfter: Option<nat>): Option<seq<nat>> {
    if startAfter.Some? then Some(StartKey(startAfter.value)) else None
  }

  lemma ScanHolds(ids: set<nat>, next: nat, startAfter: Option<nat>, id: nat)
    requires Consecutive(ids, next) && ValidStart(startAfter)
    ensures id in ids && (startAfter.None? || !LexLess(Key(id), ScanStart(startAfter).value))
            <==> FirstId(startAfter) <= id < next
  {
    if id in ids && startAfter.Some? {
      StartKeyExcludes(id, startAfter.value);
    }
  }

  /** There is one scan: the ids after the start, in order and without gaps. */
  lemma ScanIff(ids: set<nat>, next: nat, startAfter: Option<nat>, scan: seq<nat>)
    requires Consecutive(ids, next) && ValidStart(startAfter)
    ensures IsScan(ids, ScanStart(startAfter), scan) <==> scan == Upto(FirstId(startAfter), next, next)
  {
    var lo := FirstId(startAfter);
    var hi := if lo < next then next else lo;
    assert Upto(lo, next, next) == Range(lo, hi);
    forall id: nat
      ensures id in ids && (startAfter.None? || !LexLess(Key(id), ScanStart(startAfter).value)) <==> lo <= id < hi
    {
      ScanHolds(ids, next, startAfter, id);
    }
    if IsScan(ids, ScanStart(startAfter), scan) {
      forall i, j | 0 <= i < j < |scan| ensures scan[i] < scan[j] {
        assert scan[i] in scan && scan[j] in scan;
        KeyOrder(scan[i], scan[j]);
      }
      IncreasingIsRange(scan, lo, hi);
    }
    if scan == Range(lo, hi) {
      forall i, j | 0 <= i < j < |scan| ensures LexLess(Key(scan[i]), Key(scan[j])) {
        KeyOrder(scan[i], scan[j]);
      }
      forall id: nat ensures id in scan <==> lo <= id < hi {
        if lo <= id < hi {
          assert scan[id - lo] == id;
        }
      }
    }
  }

  /** A page holds exactly the next ids after the start, in order and without gaps, up to the limit. */
  lemma PageIff(ids: set<nat>, next: nat, startAfter: Option<nat>, limit: Option<nat>, page: seq<nat>)
    requires Consecutive(ids, next) && ValidStart(startAfter)
    ensures IsPage(ids, startAfter, limit, page) <==> page == Upto(FirstId(startAfter), next, PageLimit(limit))
  {
    var whole := Upto(FirstId(startAfter), next, next);
    assert Take(whole, PageLimit(limit)) == Upto(FirstId(startAfter), next, PageLimit(limit));
    ScanIff(ids, next, startAfter, whole);
    if IsPage(ids, startAfter, limit, page) {
      var scan :| IsScan(ids, ScanStart(startAfter), scan) && page == Take(scan, PageLimit(limit));
      ScanIff(ids, next, startAfter, scan);
    }
  }

  /**
   * The length of a page, in numbers: as many entries as are left, but no more than the limit, than 100, and
   * without a limit than 10.
   */
  lemma PageLength(ids: set<nat>, next: nat, startAfter: Option<nat>, limit: Option<nat>, page: seq<nat>)
    requires Consecutive(ids, next) && ValidStart(startAfter) && IsPage(ids, startAfter, limit, page)
    ensures |page| == Min(Above(next, FirstId(startAfter)), if limit.None? then 10 else Min(limit.value, 100))
  {
    PageIff(ids, next, startAfter, limit, page);
  }
}
