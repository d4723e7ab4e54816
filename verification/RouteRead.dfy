/**
  From the operating system's two forwarding tables to each interface's default routes
  (adapters/windows/routes_windows.go): what the coverage table is filled with, and what is read off it.
 */
module RouteRead {
  import opened Bits
  import opened RouteCover
  import opened RouteTable
  import opened Wrappers

  const AF_INET: nat := 2
  const AF_INET6: nat := 23

  // ----- The rows -----

  /** A destination as the system's address union holds it: four bytes, sixteen, or a family the reader skips. */
  datatype RawAddress = V4(bytes: seq<Byte>) | V6(bytes: seq<Byte>) | Other

  predicate Sized(a: RawAddress) {
    (a.V4? ==> |a.bytes| == 4) && (a.V6? ==> |a.bytes| == 16)
  }

  type Address = a: RawAddress | Sized(a) witness Other

  datatype Row = Row(index: UInt32, dest: Address, ones: nat, metric: UInt32)

  datatype Adapter = Adapter(metric4: UInt32, metric6: UInt32)

  type Adapters = map<UInt32, Adapter>

  /** The metric of an adapter that is not listed is zero. */
  function InterfaceMetric(info: Adapters, index: UInt32, v6: bool): UInt32 {
    if index !in info then 0 else if v6 then info[index].metric6 else info[index].metric4
  }

  /** A saturating sum of the two metrics. */
  function AddMetric(route: UInt32, interface: UInt32): UInt32 {
    if route + interface > 0xffff_ffff then 0xffff_ffff else route + interface
  }

  function Effective(info: Adapters, r: Row): UInt32 {
    AddMetric(r.metric, InterfaceMetric(info, r.index, r.dest.V6?))
  }

  function FamilyKey(index: UInt32, v6: bool): CoverKey {
    CoverKey(index, if v6 then AF_INET6 else AF_INET)
  }

  function Width(v6: bool): nat {
    if v6 then 16 else 4
  }

  /** The row is one the table keeps, for this interface and family. */
  predicate Counts(r: Row, index: UInt32, v6: bool) {
    !r.dest.Other? && r.index == index && r.dest.V6? == v6 && Kept(r.dest.bytes, r.ones)
  }

  function PrefixOf(info: Adapters, r: Row): CoverPrefix
    requires !r.dest.Other?
  {
    CoverPrefix(r.ones, r.dest.bytes, Effective(info, r))
  }

  // ----- What the rows mean -----

  /** The route's metric and its interface's, saturated, are at most t; an interface that is not listed adds nothing. */
  predicate WithinMetric(r: Row, info: Adapters, v6: bool, t: int) {
    var added := if r.index !in info then 0 else if v6 then info[r.index].metric6 else info[r.index].metric4;
    r.metric + added <= t || 0xffff_ffff <= t
  }

  /**
    The row is well-formed - a prefix length within the address, and no bit of the address set below it - of this
    interface and family, of metric at most t, and contains address x.
   */
  predicate RowCovers(r: Row, info: Adapters, index: UInt32, v6: bool, t: int, x: int) {
    && r.index == index
    && (if v6 then r.dest.V6? else r.dest.V4?)
    && (var start, bits := BigEndian(r.dest.bytes), 8 * |r.dest.bytes|;
        && r.ones <= bits
        && start % Pow2(bits - r.ones) == 0
        && WithinMetric(r, info, v6, t)
        && start <= x < start + Pow2(bits - r.ones))
  }

  ghost predicate RowsCoverAt(rows: seq<Row>, info: Adapters, index: UInt32, v6: bool, t: int, x: int) {
    exists i :: 0 <= i < |rows| && RowCovers(rows[i], info, index, v6, t, x)
  }

  /** Every address of the family is in such a row. */
  ghost predicate RowsCover(rows: seq<Row>, info: Adapters, index: UInt32, v6: bool, t: int) {
    forall x :: 0 <= x < Pow2(8 * Width(v6)) ==> RowsCoverAt(rows, info, index, v6, t, x)
  }

  /** The interface can capture the whole family, and `metric` is the least threshold at which it does; or it cannot. */
  ghost predicate IsFamilyDefault(rows: seq<Row>, info: Adapters, index: UInt32, v6: bool, has: bool, metric: int) {
    if has then RowsCover(rows, info, index, v6, metric)
                && forall t :: RowsCover(rows, info, index, v6, t) ==> metric <= t
    else metric == 0 && forall t :: !RowsCover(rows, info, index, v6, t)
  }

  datatype FamilyDefault = FamilyDefault(has: bool, metric: UInt32)

  datatype InterfaceDefaults = InterfaceDefaults(v4: FamilyDefault, v6: FamilyDefault)

  const NO_ROUTE := FamilyDefault(false, 0)
  const NO_ROUTES := InterfaceDefaults(NO_ROUTE, NO_ROUTE)

  /** An interface that is absent has no default route in either family. */
  function Lookup(out: map<UInt32, InterfaceDefaults>, index: UInt32): InterfaceDefaults {
    if index in out then out[index] else NO_ROUTES
  }

  // ----- The table the rows fill -----

  function WithRow(covers: RouteMap, info: Adapters, r: Row): RouteMap {
    if !r.dest.Other? && Kept(r.dest.bytes, r.ones)
    then Stored(covers, FamilyKey(r.index, r.dest.V6?), PrefixOf(info, r))
    else covers
  }

  function Filled(covers: RouteMap, info: Adapters, rows: seq<Row>): RouteMap {
    if rows == [] then covers else WithRow(Filled(covers, info, rows[..|rows| - 1]), info, rows[|rows| - 1])
  }

  method ReadRoutes(rows: seq<Row>, info: Adapters, into: CoverTable)
    requires into.Valid()
    modifies into
    ensures into.Valid() && into.covers == Filled(old(into.covers), info, rows)
  {
    for i := 0 to |rows|
      invariant into.Valid() && into.covers == Filled(old(into.covers), info, rows[..i])
    {
      assert rows[..i + 1][..i] == rows[..i];
      var r := rows[i];
      match r.dest
      case V4(bytes) =>
        into.Add(r.index, AF_INET, bytes, r.ones, AddMetric(r.metric, InterfaceMetric(info, r.index, false)));
      case V6(bytes) =>
        into.Add(r.index, AF_INET6, bytes, r.ones, AddMetric(r.metric, InterfaceMetric(info, r.index, true)));
      case Other =>
    }
    assert rows[..|rows|] == rows;
  }

  /**
    Each interface's default routes, from the answers to the two queries for a forwarding table.  A family is
    present exactly when the well-formed rows of its table leave no address of it uncovered, and with the least
    metric at which they do.
   */
  method DefaultRoutes(table4: Option<seq<Row>>, table6: Option<seq<Row>>, info: Adapters)
    returns (r: Result<map<UInt32, InterfaceDefaults>, ()>)
    ensures r.Ok? <==> table4.Some? && table6.Some?
    ensures r.Ok? ==>
              forall index: UInt32 ::
                var rows, d := table4.value + table6.value, Lookup(r.value, index);
                && IsFamilyDefault(rows, info, index, false, d.v4.has, d.v4.metric)
                && IsFamilyDefault(rows, info, index, true, d.v6.has, d.v6.metric)
                && (index in r.value <==> d.v4.has || d.v6.has)
  {
    if table4.None? {
      return Err(());
    }
    var table := new CoverTable();
    ReadRoutes(table4.value, info, table);
    if table6.None? {
      return Err(());
    }
    ReadRoutes(table6.value, info, table);
    ghost var rows := table4.value + table6.value;
    FilledTwice(map[], info, table4.value, table6.value);
    FilledIsReadable(info, rows);
    var defaults := table.Defaults();
    var out := SplitByFamily(defaults);
    forall index: UInt32
      ensures IsFamilyDefault(rows, info, index, false, Lookup(out, index).v4.has, Lookup(out, index).v4.metric)
      ensures IsFamilyDefault(rows, info, index, true, Lookup(out, index).v6.has, Lookup(out, index).v6.metric)
    {
      DefaultsMeanTheRows(info, rows, defaults, index, false);
      DefaultsMeanTheRows(info, rows, defaults, index, true);
    }
    return Ok(out);
  }

  /** The entry of a key in the answer of the coverage table. */
  function Entry(defaults: map<CoverKey, UInt32>, key: CoverKey): FamilyDefault {
    if key in defaults then FamilyDefault(true, defaults[key]) else NO_ROUTE
  }

  predicate KnownFamilies(keys: set<CoverKey>) {
    forall key :: key in keys ==> key.family == AF_INET || key.family == AF_INET6
  }

  /** The answer with the two families of each interface brought together. */
  method SplitByFamily(defaults: map<CoverKey, UInt32>) returns (out: map<UInt32, InterfaceDefaults>)
    requires KnownFamilies(defaults.Keys)
    ensures forall index: UInt32 ::
              && Lookup(out, index).v4 == Entry(defaults, FamilyKey(index, false))
              && Lookup(out, index).v6 == Entry(defaults, FamilyKey(index, true))
              && (index in out <==> Lookup(out, index).v4.has || Lookup(out, index).v6.has)
  {
    out := map[];
    var left := defaults.Keys;
    while left != {}
      invariant left <= defaults.Keys
      invariant forall index: UInt32 ::
                  && Lookup(out, index).v4 == (if FamilyKey(index, false) in left then NO_ROUTE
                                               else Entry(defaults, FamilyKey(index, false)))
                  && Lookup(out, index).v6 == (if FamilyKey(index, true) in left then NO_ROUTE
                                               else Entry(defaults, FamilyKey(index, true)))
                  && (index in out <==> Lookup(out, index).v4.has || Lookup(out, index).v6.has)
      decreases left
    {
      var key :| key in left;
      left := left - {key};
      var d := Lookup(out, key.index);
      if key.family == AF_INET {
        d := d.(v4 := FamilyDefault(true, defaults[key]));
      } else if key.family == AF_INET6 {
        d := d.(v6 := FamilyDefault(true, defaults[key]));
      }
      out := out[key.index := d];
    }
  }

  // ----- The filled table is the rows -----

  lemma {:induction false} FilledTwice(covers: RouteMap, info: Adapters, a: seq<Row>, b: seq<Row>)
    ensures Filled(Filled(covers, info, a), info, b) == Filled(covers, info, a + b)
  {
    if b == [] {
      assert a + b == a;
    } else {
      var front := b[..|b| - 1];
      FilledTwice(covers, info, a, front);
      assert (a + b)[..|a + b| - 1] == a + front;
    }
  }

  /** The key is an interface's of one of the two families, and its routes are stored at that family's width. */
  predicate AtItsWidth(key: CoverKey, ps: seq<CoverPrefix>) {
    && (key.family == AF_INET || key.family == AF_INET6) && ps != []
    && forall i :: 0 <= i < |ps| ==> StoredPrefix(ps[i]) && |ps[i].addr| == Width(key.family == AF_INET6)
  }

  predicate Readable(covers: RouteMap) {
    forall key :: key in covers ==> AtItsWidth(key, covers[key])
  }

  lemma {:induction false} FilledIsReadable(info: Adapters, rows: seq<Row>)
    ensures Readable(Filled(map[], info, rows))
  {
    if rows == [] {
    } else {
      FilledIsReadable(info, rows[..|rows| - 1]);
      WithRowIsReadable(Filled(map[], info, rows[..|rows| - 1]), info, rows[|rows| - 1]);
    }
  }

  lemma WithRowIsReadable(covers: RouteMap, info: Adapters, r: Row)
    requires Readable(covers)
    ensures Readable(WithRow(covers, info, r))
  {
  }

  /** The saturating sum stays within a threshold exactly when the plain sum does, or the threshold is out of reach. */
  lemma EffectiveIsTheMetric(info: Adapters, r: Row, t: int)
    requires !r.dest.Other?
    ensures Effective(info, r) <= t <==> WithinMetric(r, info, r.dest.V6?, t)
  {
  }

  /** What the table keeps of a row covers what the row does. */
  lemma KeptRowsCover(r: Row, info: Adapters, index: UInt32, v6: bool, t: int, x: int)
    ensures RowCovers(r, info, index, v6, t, x)
            <==> Counts(r, index, v6) && Effective(info, r) <= t && Contains(PrefixOf(info, r), x)
  {
    if !r.dest.Other? {
      EffectiveIsTheMetric(info, r, t);
      KeptIffStored(r.dest.bytes, r.ones, Effective(info, r));
      assert r.ones <= 8 * |r.dest.bytes| ==>
          HostBits(8 * |r.dest.bytes|, r.ones) == 8 * |r.dest.bytes| - r.ones;
    }
  }

  /** A row among the first, or the last. */
  lemma CoveredByOneMoreRow(rows: seq<Row>, info: Adapters, r: Row, index: UInt32, v6: bool, t: int, x: int)
    ensures RowsCoverAt(rows + [r], info, index, v6, t, x)
            <==> RowsCoverAt(rows, info, index, v6, t, x) || RowCovers(r, info, index, v6, t, x)
  {
    var more := rows + [r];
    if RowsCoverAt(rows, info, index, v6, t, x) {
      var i :| 0 <= i < |rows| && RowCovers(rows[i], info, index, v6, t, x);
      assert more[i] == rows[i];
    }
    assert more[|rows|] == r;
  }

  /** The routes stored under a key cover an address exactly when the rows do. */
  lemma {:induction false} StoredCoverAsTheRows(info: Adapters, rows: seq<Row>, index: UInt32, v6: bool, t: int, x: int)
    ensures CoveredAt(RoutesOf(Filled(map[], info, rows), FamilyKey(index, v6)), t, x)
            <==> RowsCoverAt(rows, info, index, v6, t, x)
  {
    if rows == [] {
    } else {
      var front, r := rows[..|rows| - 1], rows[|rows| - 1];
      var covers, key := Filled(map[], info, front), FamilyKey(index, v6);
      StoredCoverAsTheRows(info, front, index, v6, t, x);
      CoveredByOneMoreRow(front, info, r, index, v6, t, x);
      KeptRowsCover(r, info, index, v6, t, x);
      assert rows == front + [r];
      if Counts(r, index, v6) {
        var p := PrefixOf(info, r);
        CoveredByConcat(RoutesOf(covers, key), [p], t, x);
        assert CoveredAt([p], t, x) <==> p.metric <= t && Contains(p, x) by {
          assert [p][0] == p;
        }
      }
    }
  }

  lemma StoredCoverAllAsTheRows(info: Adapters, rows: seq<Row>, index: UInt32, v6: bool, t: int)
    requires FamilyKey(index, v6) in Filled(map[], info, rows)
    ensures Covers(Filled(map[], info, rows)[FamilyKey(index, v6)], t) <==> RowsCover(rows, info, index, v6, t)
  {
    FilledIsReadable(info, rows);
    var ps := Filled(map[], info, rows)[FamilyKey(index, v6)];
    assert |ps[0].addr| == Width(v6);
    forall x
      ensures CoveredAt(ps, t, x) <==> RowsCoverAt(rows, info, index, v6, t, x)
    {
      StoredCoverAsTheRows(info, rows, index, v6, t, x);
    }
  }

  /** No route is stored under a key whose rows would cover so much as one address. */
  lemma NoRoutesNoCover(info: Adapters, rows: seq<Row>, index: UInt32, v6: bool, t: int)
    requires FamilyKey(index, v6) !in Filled(map[], info, rows)
    ensures !RowsCover(rows, info, index, v6, t)
  {
    StoredCoverAsTheRows(info, rows, index, v6, t, 0);
    assert !CoveredAt([], t, 0);
  }

  lemma DefaultsMeanTheRows(info: Adapters, rows: seq<Row>, defaults: map<CoverKey, UInt32>, index: UInt32, v6: bool)
    requires AreDefaults(Filled(map[], info, rows), defaults)
    ensures var d := Entry(defaults, FamilyKey(index, v6)); IsFamilyDefault(rows, info, index, v6, d.has, d.metric)
  {
    var covers, key := Filled(map[], info, rows), FamilyKey(index, v6);
    if key in covers {
      forall t: int
        ensures Covers(covers[key], t) <==> RowsCover(rows, info, index, v6, t)
      {
        StoredCoverAllAsTheRows(info, rows, index, v6, t);
      }
    } else {
      forall t: int
        ensures !RowsCover(rows, info, index, v6, t)
      {
        NoRoutesNoCover(info, rows, index, v6, t);
      }
    }
  }

  // ----- Rows that make a default route -----

  /** All bytes zero. */
  predicate IsZero(bytes: seq<Byte>) {
    forall i :: 0 <= i < |bytes| ==> bytes[i] == 0
  }

  lemma {:induction false} ZeroReadsAsZero(bytes: seq<Byte>)
    requires IsZero(bytes)
    ensures BigEndian(bytes) == 0
  {
    if bytes == [] {
    } else {
      ZeroReadsAsZero(bytes[..|bytes| - 1]);
    }
  }

  /** A literal default row, 0.0.0.0/0 or ::/0, gives its interface a default no worse than that row. */
  lemma ALiteralDefaultCounts(rows: seq<Row>, info: Adapters, i: nat, v6: bool, has: bool, metric: UInt32)
    requires i < |rows| && (if v6 then rows[i].dest.V6? else rows[i].dest.V4?)
    requires rows[i].ones == 0 && IsZero(rows[i].dest.bytes)
    requires IsFamilyDefault(rows, info, rows[i].index, v6, has, metric)
    ensures has
    ensures forall t :: WithinMetric(rows[i], info, v6, t) ==> metric <= t
  {
    var r := rows[i];
    ZeroReadsAsZero(r.dest.bytes);
    RemainderIs(0, Pow2(8 * |r.dest.bytes|), 0, 0);
    forall t | WithinMetric(r, info, v6, t)
      ensures RowsCover(rows, info, r.index, v6, t)
    {
      forall x | 0 <= x < Pow2(8 * Width(v6))
        ensures RowsCoverAt(rows, info, r.index, v6, t, x)
      {
        assert RowCovers(r, info, r.index, v6, t, x);
      }
    }
    assert WithinMetric(r, info, v6, 0xffff_ffff);
  }

  lemma HalfOfTheSpace(width: nat)
    requires width > 0
    ensures Pow2(8 * width) == 2 * Pow2(8 * width - 1)
  {
  }

  /** Two half-space rows, 0.0.0.0/1 with 128.0.0.0/1 or ::/1 with 8000::/1, make a default as good as the worse. */
  lemma TwoHalvesCount(rows: seq<Row>, info: Adapters, i: nat, j: nat, v6: bool, has: bool, metric: UInt32)
    requires i < |rows| && j < |rows| && rows[i].index == rows[j].index
    requires if v6 then rows[i].dest.V6? && rows[j].dest.V6? else rows[i].dest.V4? && rows[j].dest.V4?
    requires rows[i].ones == 1 && rows[j].ones == 1
    requires BigEndian(rows[i].dest.bytes) == 0
    requires BigEndian(rows[j].dest.bytes) == Pow2(8 * Width(v6) - 1)
    requires IsFamilyDefault(rows, info, rows[i].index, v6, has, metric)
    ensures has
    ensures forall t :: WithinMetric(rows[i], info, v6, t) && WithinMetric(rows[j], info, v6, t) ==> metric <= t
  {
    var half := Pow2(8 * Width(v6) - 1);
    HalfOfTheSpace(Width(v6));
    RemainderIs(0, half, 0, 0);
    RemainderIs(half, half, 1, 0);
    forall t | WithinMetric(rows[i], info, v6, t) && WithinMetric(rows[j], info, v6, t)
      ensures RowsCover(rows, info, rows[i].index, v6, t)
    {
      forall x | 0 <= x < Pow2(8 * Width(v6))
        ensures RowsCoverAt(rows, info, rows[i].index, v6, t, x)
      {
        assert RowCovers(rows[if x < half then i else j], info, rows[i].index, v6, t, x);
      }
    }
    assert WithinMetric(rows[i], info, v6, 0xffff_ffff) && WithinMetric(rows[j], info, v6, 0xffff_ffff);
  }
}
