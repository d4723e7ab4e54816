/**
  The route table the tun-conflict guard accumulates (adapters/windows/routes_cover.go), and the
  laws of coverage: stored prefixes are aligned intervals inside the space, splitting a route in
  half changes nothing, adding a route never raises an answer and never touches another interface.
 */
module RouteTable {
  import opened Bits
  import opened RouteCover

  type RouteMap = map<CoverKey, seq<CoverPrefix>>

  /** The routes the table keeps: those whose destination is their own network address. */
  predicate Kept(dest: seq<Byte>, ones: int) {
    dest != [] && 0 <= ones <= |dest| * 8 && IsAligned(dest, ones)
  }

  /** Every key has routes, each a stored prefix. */
  predicate ValidCovers(covers: RouteMap) {
    forall k :: k in covers ==> covers[k] != [] && forall i :: 0 <= i < |covers[k]| ==> StoredPrefix(covers[k][i])
  }

  /** The routes of each key have one address width; RouteRead shows that the reader's table has. */
  predicate OneWidth(covers: RouteMap) {
    forall k :: k in covers ==> StoredTogether(covers[k])
  }

  function RoutesOf(covers: RouteMap, key: CoverKey): seq<CoverPrefix> {
    if key in covers then covers[key] else []
  }

  function Stored(covers: RouteMap, key: CoverKey, p: CoverPrefix): RouteMap {
    covers[key := RoutesOf(covers, key) + [p]]
  }

  /** The answer for every key: present exactly when its routes cover, with the least threshold. */
  ghost predicate AreDefaults(covers: RouteMap, out: map<CoverKey, UInt32>) {
    && (forall k :: k in out ==> k in covers && IsCoverMetric(covers[k], out[k], true))
    && (forall k :: k in covers && k !in out ==> IsCoverMetric(covers[k], 0, false))
  }

  class CoverTable {
    var covers: RouteMap

    predicate Valid()
      reads this
    {
      ValidCovers(covers)
    }

    constructor ()
      ensures Valid() && covers == map[]
    {
      covers := map[];
    }

    method Add(index: UInt32, family: nat, dest: seq<Byte>, ones: int, metric: UInt32)
      requires Valid()
      modifies this
      ensures Valid()
      ensures covers == if Kept(dest, ones)
                        then Stored(old(covers), CoverKey(index, family), CoverPrefix(ones, dest, metric))
                        else old(covers)
    {
      if |dest| == 0 || ones < 0 || ones > |dest| * 8 {
        return;
      }
      var network := IsNetworkAddress(dest, ones);
      if !network {
        return;
      }
      var key := CoverKey(index, family);
      if key !in covers {
        covers := covers[key := []];
      }
      covers := covers[key := covers[key] + [CoverPrefix(ones, dest, metric)]];
      assert covers == Stored(old(covers), key, CoverPrefix(ones, dest, metric));
    }

    method Defaults() returns (out: map<CoverKey, UInt32>)
      requires Valid() && OneWidth(covers)
      ensures AreDefaults(covers, out)
    {
      out := map[];
      var left := covers.Keys;
      while left != {}
        invariant left <= covers.Keys
        invariant out.Keys <= covers.Keys - left
        invariant forall k :: k in out ==> IsCoverMetric(covers[k], out[k], true)
        invariant forall k :: k in covers && k !in left && k !in out ==> IsCoverMetric(covers[k], 0, false)
        decreases left
      {
        var key :| key in left;
        left := left - {key};
        var m, ok := CoverMetric(covers[key]);
        if ok {
          out := out[key := m];
        }
      }
    }
  }

  // ----- A stored prefix is an aligned interval of the space -----

  /** What the table keeps is what a stored prefix has to be, whatever its metric: a length of zero included. */
  lemma KeptIffStored(dest: seq<Byte>, ones: int, m: UInt32)
    ensures Kept(dest, ones) <==> StoredPrefix(CoverPrefix(ones, dest, m))
    ensures Kept(dest, ones) <==>
            dest != [] && 0 <= ones <= 8 * |dest| && BigEndian(dest) % Pow2(8 * |dest| - ones) == 0
  {
  }

  lemma StoredPrefixIsInsideTheSpace(p: CoverPrefix)
    requires StoredPrefix(p)
    ensures Start(p) % Size(p) == 0
    ensures Start(p) + Size(p) <= Pow2(8 * |p.addr|)
  {
    var bits := 8 * |p.addr|;
    BigEndianBound(p.addr);
    Pow2Adds(p.ones, bits - p.ones);
    NextMultipleFits(Start(p), Size(p), Pow2(p.ones));
  }

  lemma NextMultipleFits(v: int, m: int, n: int)
    requires m > 0 && v % m == 0 && v < n * m
    ensures v + m <= n * m
  {
    var q := v / m;
    assert v == q * m;
    MultiplesKeepOrder(n, q, m);
    assert (q + 1) * m == v + m;
    MultiplesKeepOrder(q + 1, n, m);
  }

  // ----- The answer is unique, whatever the order of the routes -----

  lemma CoverMetricIsUnique(ps: seq<CoverPrefix>, m: int, ok: bool, m': int, ok': bool)
    requires IsCoverMetric(ps, m, ok) && IsCoverMetric(ps, m', ok')
    ensures m == m' && ok == ok'
  {
    if ok {
      assert Covers(ps, m);
    }
    if ok' {
      assert Covers(ps, m');
    }
  }

  /** Only which routes there are matters: any order, and any repetition, gives the same answer. */
  lemma OrderDoesNotMatter(a: seq<CoverPrefix>, b: seq<CoverPrefix>, m: int, ok: bool)
    requires StoredTogether(a) && StoredTogether(b)
    requires forall p :: p in a <==> p in b
    requires IsCoverMetric(a, m, ok)
    ensures IsCoverMetric(b, m, ok)
  {
    SameRoutesSameSpace(a, b);
    forall t: int, x: int
      ensures CoveredAt(a, t, x) <==> CoveredAt(b, t, x)
    {
      assert CoveredAt(a, t, x) <==> exists p :: p in a && p.metric <= t && Contains(p, x);
      assert CoveredAt(b, t, x) <==> exists p :: p in b && p.metric <= t && Contains(p, x);
    }
    forall t: int
      ensures Covers(a, t) <==> Covers(b, t)
    {
      SameCoverage(a, b, t);
    }
  }

  lemma SameRoutesSameSpace(a: seq<CoverPrefix>, b: seq<CoverPrefix>)
    requires StoredTogether(a) && StoredTogether(b)
    requires forall p :: p in a <==> p in b
    ensures SpaceSize(a) == SpaceSize(b)
  {
    assert a != [] ==> a[0] in b;
    assert b != [] ==> b[0] in a;
  }

  lemma SameCoverage(a: seq<CoverPrefix>, b: seq<CoverPrefix>, t: int)
    requires SpaceSize(a) == SpaceSize(b)
    requires forall x :: CoveredAt(a, t, x) <==> CoveredAt(b, t, x)
    ensures Covers(a, t) <==> Covers(b, t)
  {
  }

  // ----- Adding a route -----

  lemma AddingNeverRaises(ps: seq<CoverPrefix>, p: CoverPrefix, m: int, m': int, ok': bool)
    requires StoredTogether(ps + [p])
    requires IsCoverMetric(ps, m, true)
    requires IsCoverMetric(ps + [p], m', ok')
    ensures ok' && m' <= m
  {
    assert ps != [] by {
      assert CoveredAt(ps, m, 0);
    }
    assert (ps + [p])[0] == ps[0];
    forall x | 0 <= x < SpaceSize(ps)
      ensures CoveredAt(ps + [p], m, x)
    {
      assert CoveredAt(ps, m, x);
      CoveredByConcat(ps, [p], m, x);
    }
    assert Covers(ps + [p], m);
  }

  /** A route of one interface and family leaves the answers for every other key as they were. */
  lemma OtherKeysAreUntouched(covers: RouteMap, key: CoverKey, p: CoverPrefix,
                              out: map<CoverKey, UInt32>, out': map<CoverKey, UInt32>, k: CoverKey)
    requires AreDefaults(covers, out) && AreDefaults(Stored(covers, key, p), out')
    requires k != key
    ensures k in out <==> k in out'
    ensures k in out ==> out[k] == out'[k]
  {
    if k in covers {
      CoverMetricIsUnique(covers[k], if k in out then out[k] else 0, k in out,
                          if k in out' then out'[k] else 0, k in out');
    }
  }

  // ----- Halving a route -----

  function LowerHalf(p: CoverPrefix): CoverPrefix {
    p.(ones := p.ones + 1)
  }

  function UpperHalf(p: CoverPrefix): CoverPrefix
    requires StoredPrefix(p) && p.ones < 8 * |p.addr|
  {
    CoverPrefix(p.ones + 1, ToBigEndian(Start(p) + Pow2(8 * |p.addr| - p.ones - 1), |p.addr|), p.metric)
  }

  lemma HalfStepsAreAligned(v: nat, half: int)
    requires half > 0 && v % (2 * half) == 0
    ensures v % half == 0 && (v + half) % half == 0
  {
    var q := v / (2 * half);
    assert v == q * (2 * half);
    assert v == (2 * q) * half;
    RemainderIs(v, half, 2 * q, 0);
    assert v + half == (2 * q + 1) * half;
    RemainderIs(v + half, half, 2 * q + 1, 0);
  }

  lemma HalfTheSize(bits: int)
    requires bits > 0
    ensures Pow2(bits) == 2 * Pow2(bits - 1)
  {
  }

  /** The halves are prefixes of the table, and they split the addresses of the whole between them. */
  lemma HalvesArePrefixes(p: CoverPrefix)
    requires StoredPrefix(p) && p.ones < 8 * |p.addr|
    ensures StoredPrefix(LowerHalf(p)) && StoredPrefix(UpperHalf(p))
    ensures Size(LowerHalf(p)) == Size(UpperHalf(p)) && Size(p) == 2 * Size(LowerHalf(p))
    ensures Start(LowerHalf(p)) == Start(p) && Start(UpperHalf(p)) == Start(p) + Size(LowerHalf(p))
  {
    var half := Pow2(8 * |p.addr| - p.ones - 1);
    HalfTheSize(8 * |p.addr| - p.ones);
    StoredPrefixIsInsideTheSpace(p);
    HalfStepsAreAligned(Start(p), half);
    ToBigEndianReadsBack(Start(p) + half, |p.addr|);
  }

  /** Replacing a route by its two halves at the same metric never changes the answer. */
  lemma HalvingChangesNothing(before: seq<CoverPrefix>, p: CoverPrefix, after: seq<CoverPrefix>, m: int, ok: bool)
    requires StoredTogether(before + [p] + after) && StoredPrefix(p) && p.ones < 8 * |p.addr|
    ensures StoredTogether(before + [LowerHalf(p), UpperHalf(p)] + after)
    ensures IsCoverMetric(before + [p] + after, m, ok) <==>
            IsCoverMetric(before + [LowerHalf(p), UpperHalf(p)] + after, m, ok)
  {
    var whole, halves := before + [p] + after, before + [LowerHalf(p), UpperHalf(p)] + after;
    HalvesArePrefixes(p);
    assert whole[|before|] == p;
    assert forall i :: |before| < i < |whole| ==> whole[i] == after[i - |before| - 1];
    assert forall i :: 0 <= i < |before| ==> whole[i] == before[i] && halves[i] == before[i];
    assert forall i :: |before| + 2 <= i < |halves| ==> halves[i] == after[i - |before| - 2] == whole[i - 1];
    assert SpaceSize(whole) == SpaceSize(halves);
    forall t: int, x: int
      ensures CoveredAt(whole, t, x) <==> CoveredAt(halves, t, x)
    {
      CoveredByConcat(before + [p], after, t, x);
      CoveredByConcat(before, [p], t, x);
      CoveredByConcat(before + [LowerHalf(p), UpperHalf(p)], after, t, x);
      CoveredByConcat(before, [LowerHalf(p), UpperHalf(p)], t, x);
      HalvesCoverAlike(p, t, x);
    }
    forall t: int
      ensures Covers(whole, t) <==> Covers(halves, t)
    {
      SameCoverage(whole, halves, t);
    }
  }

  lemma HalvesCoverAlike(p: CoverPrefix, t: int, x: int)
    requires StoredPrefix(p) && p.ones < 8 * |p.addr|
    ensures CoveredAt([p], t, x) <==> CoveredAt([LowerHalf(p), UpperHalf(p)], t, x)
  {
    HalvesArePrefixes(p);
    var hs := [LowerHalf(p), UpperHalf(p)];
    assert hs[0] == LowerHalf(p) && hs[1] == UpperHalf(p);
    assert [p][0] == p;
  }

  // ----- Single routes -----

  /** One route alone is coverage exactly when it is the literal default route. */
  lemma OneRouteCoversOnlyAsDefault(p: CoverPrefix)
    requires StoredPrefix(p)
    ensures p.ones == 0 ==> IsCoverMetric([p], p.metric, true)
    ensures p.ones != 0 ==> IsCoverMetric([p], 0, false)
  {
    StoredPrefixIsInsideTheSpace(p);
    assert [p][0] == p;
    if p.ones == 0 {
      forall x | 0 <= x < SpaceSize([p])
        ensures CoveredAt([p], p.metric, x)
      {
      }
      forall t: int | Covers([p], t)
        ensures p.metric <= t
      {
        assert CoveredAt([p], t, 0);
      }
    } else {
      AtMostHalfTheSpace(p);
      var x := if Start(p) > 0 then 0 else Size(p);
      forall t: int
        ensures !Covers([p], t)
      {
        assert 0 <= x < SpaceSize([p]) && !CoveredAt([p], t, x);
      }
    }
  }

  lemma AtMostHalfTheSpace(p: CoverPrefix)
    requires StoredPrefix(p) && p.ones >= 1
    ensures 2 * Size(p) <= Pow2(8 * |p.addr|)
  {
    var bits := 8 * |p.addr|;
    Pow2Adds(p.ones - 1, bits - p.ones + 1);
    assert Pow2(bits - p.ones + 1) == 2 * Size(p);
    MultiplesKeepOrder(1, Pow2(p.ones - 1), 2 * Size(p));
  }
}
