/**
  Default-route coverage (adapters/windows/routes_cover.go): which interfaces can capture a whole
  address family, and at which metric.  The meaning is pointwise - every address of the family lies
  in some stored prefix of metric at most M - and the sorted sweep is proved to decide exactly that.
 */
module RouteCover {
  import opened Bits

  type UInt32 = x: int | 0 <= x < 0x1_0000_0000

  /** One route: how many leading bits are fixed, the network address, the effective metric. */
  datatype CoverPrefix = CoverPrefix(ones: int, addr: seq<Byte>, metric: UInt32)

  /** Interface index and address family. */
  datatype CoverKey = CoverKey(index: UInt32, family: nat)

  // ----- Network addresses -----

  /** The number of bits of a width-bit address below its first `ones`. */
  function HostBits(width: nat, ones: int): nat {
    if ones >= width then 0 else width - ones
  }

  /** The address, read as a number, has no bit set below its first `ones`. */
  predicate IsAligned(addr: seq<Byte>, ones: int) {
    BigEndian(addr) % Pow2(HostBits(8 * |addr|, ones)) == 0
  }

  lemma QuotientIsNat(x: nat, m: int)
    requires m > 0
    ensures x / m >= 0
  {
  }

  function Shr(x: nat, k: nat): nat {
    QuotientIsNat(x, Pow2(k));
    x / Pow2(k)
  }

  /** The test the code makes on byte number i, where fixed == ones - 8 * i. */
  predicate ByteIsClear(b: Byte, fixed: int) {
    fixed >= 8 || (if fixed <= 0 then b == 0 else BitAnd(b, Shr(0xff, fixed)) == 0)
  }

  lemma MaskBelow(fixed: nat)
    requires 1 <= fixed <= 7
    ensures Shr(0xff, fixed) == Pow2(8 - fixed) - 1
    ensures Pow2(fixed) * Pow2(8 - fixed) == 256
  {
    Pow2Of8();
    Pow2Adds(fixed, 8 - fixed);
    assert Pow2(1) == 2 && Pow2(2) == 4 && Pow2(3) == 8;
    assert Pow2(4) == 16 && Pow2(5) == 32 && Pow2(6) == 64 && Pow2(7) == 128;
  }

  lemma ShiftedRemainder(v: nat, b: Byte, m: int)
    requires m > 0
    ensures (v * 256 + b) % (256 * m) == 256 * (v % m) + b
  {
    var q, r := v / m, v % m;
    assert v == q * m + r;
    assert v * 256 + b == q * (256 * m) + (256 * r + b);
    RemainderIs(v * 256 + b, 256 * m, q, 256 * r + b);
  }

  lemma LowRemainder(v: nat, b: Byte, m: int, c: nat)
    requires m > 0 && c * m == 256
    ensures (v * 256 + b) % m == b % m
  {
    var q, r := b / m, b % m;
    assert v * 256 == (v * c) * m;
    assert v * 256 + b == (v * c + q) * m + r;
    RemainderIs(v * 256 + b, m, v * c + q, r);
  }

  /** Appending a byte keeps an address aligned exactly when the code's test on that byte passes. */
  lemma AlignedByteByByte(s: seq<Byte>, b: Byte, ones: int)
    ensures IsAligned(s + [b], ones) <==> IsAligned(s, ones) && ByteIsClear(b, ones - 8 * |s|)
  {
    var t := s + [b];
    assert t[..|t| - 1] == s;
    var v, fixed := BigEndian(s), ones - 8 * |s|;
    assert 8 * |t| == 8 * |s| + 8;
    assert BigEndian(t) == v * 256 + b;
    if fixed >= 8 {
    } else if fixed <= 0 {
      var h := HostBits(8 * |s|, ones);
      Pow2Of8();
      Pow2Adds(8, h);
      ShiftedRemainder(v, b, Pow2(h));
      assert HostBits(8 * |t|, ones) == 8 + h;
    } else {
      MaskBelow(fixed);
      LowMaskIsRemainder(b, 8 - fixed);
      LowRemainder(v, b, Pow2(8 - fixed), Pow2(fixed));
      assert HostBits(8 * |t|, ones) == 8 - fixed;
    }
  }

  lemma AlignedNext(addr: seq<Byte>, ones: int, i: nat)
    requires i < |addr|
    ensures IsAligned(addr[..i + 1], ones) <==>
            IsAligned(addr[..i], ones) && ByteIsClear(addr[i], ones - i * 8)
  {
    assert addr[..i + 1] == addr[..i] + [addr[i]];
    AlignedByteByByte(addr[..i], addr[i], ones);
  }

  lemma {:induction false} AlignedPrefix(addr: seq<Byte>, ones: int, i: nat)
    requires i <= |addr|
    ensures IsAligned(addr, ones) ==> IsAligned(addr[..i], ones)
    decreases |addr| - i
  {
    if i == |addr| {
      assert addr[..i] == addr;
    } else {
      AlignedNext(addr, ones, i);
      AlignedPrefix(addr, ones, i + 1);
    }
  }

  method IsNetworkAddress(addr: seq<Byte>, ones: int) returns (yes: bool)
    ensures yes <==> IsAligned(addr, ones)
  {
    assert IsAligned([], ones) by {
      RemainderIs(0, Pow2(HostBits(0, ones)), 0, 0);
    }
    assert addr[..0] == [];
    yes := true;
    var i := 0;
    while i < |addr| && yes
      invariant i <= |addr|
      invariant yes <==> IsAligned(addr[..i], ones)
    {
      AlignedNext(addr, ones, i);
      yes := BytePasses(addr[i], ones - i * 8);
      i := i + 1;
    }
    AlignedPrefix(addr, ones, i);
    if yes {
      assert addr[..i] == addr;
    }
  }

  /** The three-way switch on how much of the byte the prefix fixes. */
  method BytePasses(b: Byte, fixed: int) returns (yes: bool)
    ensures yes <==> ByteIsClear(b, fixed)
  {
    if fixed >= 8 {
      return true;
    } else if fixed <= 0 {
      return b == 0;
    }
    return BitAnd(b, Shr(0xff, fixed)) == 0;
  }

  // ----- What coverage means -----

  /** What the table keeps: a non-empty address, a prefix length within it, no host bits. */
  predicate StoredPrefix(p: CoverPrefix) {
    p.addr != [] && 0 <= p.ones <= 8 * |p.addr| && IsAligned(p.addr, p.ones)
  }

  /** The routes of one interface and family: stored prefixes over one address width. */
  predicate StoredTogether(ps: seq<CoverPrefix>) {
    && (forall i :: 0 <= i < |ps| ==> StoredPrefix(ps[i]))
    && (forall i :: 0 <= i < |ps| ==> |ps[i].addr| == |ps[0].addr|)
  }

  function Start(p: CoverPrefix): nat {
    BigEndian(p.addr)
  }

  function Size(p: CoverPrefix): nat {
    Pow2(HostBits(8 * |p.addr|, p.ones))
  }

  /** Address x lies in the prefix. */
  predicate Contains(p: CoverPrefix, x: int) {
    Start(p) <= x < Start(p) + Size(p)
  }

  ghost predicate CoveredAt(ps: seq<CoverPrefix>, metric: int, x: int) {
    exists i :: 0 <= i < |ps| && ps[i].metric <= metric && Contains(ps[i], x)
  }

  /** The number of addresses of the family the prefixes belong to. */
  function SpaceSize(ps: seq<CoverPrefix>): nat {
    if ps == [] then 1 else Pow2(8 * |ps[0].addr|)
  }

  /** Every address of the family is in some prefix of metric at most `metric`. */
  ghost predicate Covers(ps: seq<CoverPrefix>, metric: int) {
    forall x :: 0 <= x < SpaceSize(ps) ==> CoveredAt(ps, metric, x)
  }

  /** (m, true) names the least covering threshold, (0, false) says that there is none. */
  ghost predicate IsCoverMetric(ps: seq<CoverPrefix>, m: int, ok: bool) {
    if ok then Covers(ps, m) && forall t :: Covers(ps, t) ==> m <= t
    else m == 0 && forall t :: !Covers(ps, t)
  }

  // ----- The sweep -----

  datatype Span = Span(start: nat, end: nat)

  predicate SortedByStart(spans: seq<Span>) {
    forall i, j :: 0 <= i < j < |spans| ==> spans[i].start <= spans[j].start
  }

  function InsertByStart(s: Span, spans: seq<Span>): (out: seq<Span>)
    requires SortedByStart(spans)
    ensures SortedByStart(out)
    ensures forall t :: t in out <==> t == s || t in spans
  {
    if spans == [] || s.start <= spans[0].start then
      [s] + spans
    else
      assert spans == [spans[0]] + spans[1..];
      var rest := InsertByStart(s, spans[1..]);
      assert forall t :: t in rest ==> spans[0].start <= t.start;
      [spans[0]] + rest
  }

  lemma {:induction false} InsertIsPermutation(s: Span, spans: seq<Span>)
    requires SortedByStart(spans)
    ensures multiset(InsertByStart(s, spans)) == multiset(spans) + multiset{s}
  {
    if !(spans == [] || s.start <= spans[0].start) {
      assert spans == [spans[0]] + spans[1..];
      InsertIsPermutation(s, spans[1..]);
    }
  }

  /** Any order by ascending start will do: the standard library's sort is not stable. */
  method SortByStart(spans: seq<Span>) returns (out: seq<Span>)
    ensures SortedByStart(out)
    ensures multiset(out) == multiset(spans)
  {
    out := [];
    for n := 0 to |spans|
      invariant SortedByStart(out)
      invariant multiset(out) == multiset(spans[..n])
    {
      assert spans[..n + 1] == spans[..n] + [spans[n]];
      InsertIsPermutation(spans[n], out);
      out := InsertByStart(spans[n], out);
    }
    assert spans[..|spans|] == spans;
  }

  ghost predicate InSomeSpan(spans: seq<Span>, x: int) {
    exists i :: 0 <= i < |spans| && spans[i].start <= x < spans[i].end
  }

  /** The walk by ascending start decides whether [0, total) is covered, for any overlapping spans. */
  method Sweep(spans: seq<Span>, total: nat) returns (yes: bool)
    requires SortedByStart(spans)
    requires total > 0
    ensures yes <==> forall x :: 0 <= x < total ==> InSomeSpan(spans, x)
  {
    var covered: nat := 0;
    for i := 0 to |spans|
      invariant covered < total
      invariant forall j :: 0 <= j < i ==> spans[j].end <= covered
      invariant forall x :: 0 <= x < covered ==> InSomeSpan(spans[..i], x)
    {
      var s := spans[i];
      if s.start > covered {
        assert 0 <= covered < total && !InSomeSpan(spans, covered);
        return false;
      }
      var before := covered;
      if s.end > covered {
        covered := s.end;
      }
      forall x {:trigger InSomeSpan(spans[..i + 1], x)} | 0 <= x < covered
        ensures InSomeSpan(spans[..i + 1], x)
      {
        if x < before {
          assert InSomeSpan(spans[..i], x);
          var k :| 0 <= k < i && spans[..i][k].start <= x < spans[..i][k].end;
          assert spans[..i + 1][k] == spans[..i][k];
        } else {
          assert spans[..i + 1][i] == s;
        }
      }
      if covered >= total {
        forall x | 0 <= x < total
          ensures InSomeSpan(spans, x)
        {
          assert InSomeSpan(spans[..i + 1], x);
          var k :| 0 <= k < i + 1 && spans[..i + 1][k].start <= x < spans[..i + 1][k].end;
          assert spans[k] == spans[..i + 1][k];
        }
        return true;
      }
    }
    assert !InSomeSpan(spans, covered);
    return covered >= total;
  }

  lemma SameSpansSameCover(a: seq<Span>, b: seq<Span>, x: int)
    requires multiset(a) == multiset(b)
    ensures InSomeSpan(a, x) <==> InSomeSpan(b, x)
  {
    forall s | s in a || s in b
      ensures s in a && s in b
    {
      assert s in multiset(a) <==> s in multiset(b);
    }
    assert InSomeSpan(a, x) <==> exists s :: s in a && s.start <= x < s.end;
    assert InSomeSpan(b, x) <==> exists s :: s in b && s.start <= x < s.end;
  }

  method CoversWithin(prefixes: seq<CoverPrefix>, maxMetric: UInt32) returns (yes: bool)
    requires prefixes != [] && StoredTogether(prefixes)
    ensures yes <==> Covers(prefixes, maxMetric)
  {
    var bits := |prefixes[0].addr| * 8;
    var total := Pow2(bits);
    var spans: seq<Span> := [];
    for i := 0 to |prefixes|
      invariant forall x :: InSomeSpan(spans, x) <==> CoveredAt(prefixes[..i], maxMetric, x)
    {
      var p := prefixes[i];
      ghost var was := spans;
      if p.metric <= maxMetric {
        var start := BigEndian(p.addr);
        var size := Pow2(bits - p.ones);
        spans := spans + [Span(start, start + size)];
      }
      forall x
        ensures InSomeSpan(spans, x) <==> CoveredAt(prefixes[..i + 1], maxMetric, x)
      {
        CoveredByOneMore(prefixes, i, maxMetric, x);
        if p.metric <= maxMetric {
          InOneMoreSpan(was, Span(Start(p), Start(p) + Size(p)), x);
        }
      }
    }
    assert prefixes[..|prefixes|] == prefixes;
    var sorted := SortByStart(spans);
    forall x
      ensures InSomeSpan(sorted, x) <==> CoveredAt(prefixes, maxMetric, x)
    {
      SameSpansSameCover(sorted, spans, x);
    }
    yes := Sweep(sorted, total);
  }

  lemma CoveredByOneMore(ps: seq<CoverPrefix>, i: nat, metric: int, x: int)
    requires i < |ps|
    ensures CoveredAt(ps[..i + 1], metric, x) <==>
            CoveredAt(ps[..i], metric, x) || (ps[i].metric <= metric && Contains(ps[i], x))
  {
    assert ps[..i + 1] == ps[..i] + [ps[i]];
    CoveredByConcat(ps[..i], [ps[i]], metric, x);
    assert CoveredAt([ps[i]], metric, x) <==> ps[i].metric <= metric && Contains(ps[i], x) by {
      assert [ps[i]][0] == ps[i];
    }
  }

  lemma CoveredByConcat(a: seq<CoverPrefix>, b: seq<CoverPrefix>, metric: int, x: int)
    ensures CoveredAt(a + b, metric, x) <==> CoveredAt(a, metric, x) || CoveredAt(b, metric, x)
  {
    if CoveredAt(a, metric, x) {
      var k :| 0 <= k < |a| && a[k].metric <= metric && Contains(a[k], x);
      assert (a + b)[k] == a[k];
    }
    if CoveredAt(b, metric, x) {
      var k :| 0 <= k < |b| && b[k].metric <= metric && Contains(b[k], x);
      assert (a + b)[|a| + k] == b[k];
    }
  }

  lemma InOneMoreSpan(spans: seq<Span>, s: Span, x: int)
    ensures InSomeSpan(spans + [s], x) <==> InSomeSpan(spans, x) || s.start <= x < s.end
  {
    if InSomeSpan(spans, x) {
      var k :| 0 <= k < |spans| && spans[k].start <= x < spans[k].end;
      assert (spans + [s])[k] == spans[k];
    }
    assert (spans + [s])[|spans|] == s;
  }

  // ----- The least threshold -----

  method DistinctMetricsAscending(prefixes: seq<CoverPrefix>) returns (out: seq<UInt32>)
    ensures Ascending(out)
    ensures forall m: UInt32 :: m in out <==> exists i :: 0 <= i < |prefixes| && prefixes[i].metric == m
  {
    var seen: set<UInt32> := {};
    out := [];
    for n := 0 to |prefixes|
      invariant Ascending(out)
      invariant forall m: UInt32 :: m in out <==> m in seen
      invariant forall m: UInt32 :: m in seen <==> exists i :: 0 <= i < n && prefixes[i].metric == m
    {
      var metric := prefixes[n].metric;
      if metric !in seen {
        seen := seen + {metric};
        out := InsertAscending(out, metric);
      }
    }
  }

  predicate Ascending(s: seq<UInt32>) {
    forall i, j :: 0 <= i < j < |s| ==> s[i] < s[j]
  }

  function InsertAscending(s: seq<UInt32>, m: UInt32): (out: seq<UInt32>)
    requires Ascending(s) && m !in s
    ensures Ascending(out)
    ensures forall v: UInt32 :: v in out <==> v in s || v == m
  {
    if s == [] || m < s[0] then
      [m] + s
    else
      assert s == [s[0]] + s[1..];
      assert forall v :: v in s[1..] ==> s[0] < v;
      var rest := InsertAscending(s[1..], m);
      assert Ascending([s[0]] + rest) by {
        HeadIsLeast(s[0], rest);
      }
      [s[0]] + rest
  }

  lemma HeadIsLeast(head: UInt32, rest: seq<UInt32>)
    requires Ascending(rest) && forall v :: v in rest ==> head < v
    ensures Ascending([head] + rest)
  {
    var s := [head] + rest;
    forall i, j | 0 <= i < j < |s|
      ensures s[i] < s[j]
    {
      assert s[j] == rest[j - 1] && rest[j - 1] in rest;
      assert i > 0 ==> s[i] == rest[i - 1];
    }
  }

  /** A threshold admits the same routes as the best stored metric not above it. */
  lemma ThresholdRoundsDown(ps: seq<CoverPrefix>, t: int, m: int)
    requires m <= t
    requires forall i :: 0 <= i < |ps| ==> ps[i].metric <= m || t < ps[i].metric
    ensures Covers(ps, t) <==> Covers(ps, m)
  {
    forall x
      ensures CoveredAt(ps, t, x) <==> CoveredAt(ps, m, x)
    {
    }
  }

  lemma CoversIsMonotone(ps: seq<CoverPrefix>, m: int, t: int)
    requires m <= t && Covers(ps, m)
    ensures Covers(ps, t)
  {
    forall x | 0 <= x < SpaceSize(ps)
      ensures CoveredAt(ps, t, x)
    {
      assert CoveredAt(ps, m, x);
    }
  }

  method CoverMetric(prefixes: seq<CoverPrefix>) returns (m: UInt32, ok: bool)
    requires StoredTogether(prefixes)
    ensures IsCoverMetric(prefixes, m, ok)
  {
    if prefixes == [] {
      forall t
        ensures !Covers(prefixes, t)
      {
        assert !CoveredAt(prefixes, t, 0);
      }
      return 0, false;
    }
    var metrics := DistinctMetricsAscending(prefixes);
    for n := 0 to |metrics|
      invariant forall k :: 0 <= k < n ==> !Covers(prefixes, metrics[k])
    {
      var covers := CoversWithin(prefixes, metrics[n]);
      if covers {
        FirstCoverIsLeast(prefixes, metrics, n);
        return metrics[n], true;
      }
    }
    forall t
      ensures !Covers(prefixes, t)
    {
      NoThresholdBelow(prefixes, metrics, |metrics|, t);
    }
    return 0, false;
  }

  lemma FirstCoverIsLeast(ps: seq<CoverPrefix>, metrics: seq<UInt32>, n: nat)
    requires n < |metrics| && Ascending(metrics)
    requires forall i :: 0 <= i < |ps| ==> ps[i].metric in metrics
    requires forall k :: 0 <= k < n ==> !Covers(ps, metrics[k])
    requires Covers(ps, metrics[n])
    ensures IsCoverMetric(ps, metrics[n], true)
  {
    forall t: int | Covers(ps, t)
      ensures metrics[n] <= t
    {
      if t < metrics[n] {
        NoThresholdBelow(ps, metrics, n, t);
      }
    }
  }

  lemma {:induction false} NoThresholdBelow(ps: seq<CoverPrefix>, metrics: seq<UInt32>, n: nat, t: int)
    requires n <= |metrics| && Ascending(metrics)
    requires forall i :: 0 <= i < |ps| ==> ps[i].metric in metrics
    requires forall k :: 0 <= k < n ==> !Covers(ps, metrics[k])
    requires n < |metrics| ==> t < metrics[n]
    ensures !Covers(ps, t)
  {
    if n == 0 {
      assert !CoveredAt(ps, t, 0);
    } else if t < metrics[n - 1] {
      NoThresholdBelow(ps, metrics, n - 1, t);
    } else {
      ThresholdRoundsDown(ps, t, metrics[n - 1]);
    }
  }
}
