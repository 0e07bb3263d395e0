/** Matching a packet with the position fix nearest to it in time. */
module NearestFix {
  import opened Options
  import opened Numerals
  import opened Sorting

  type I64 = n: int | I64_MIN <= n <= I64_MAX

  datatype GpsRecord = GpsRecord(packetTime: Option<I64>, systemTime: I64, lat: real, lon: real)

  datatype GpsPoint = GpsPoint(latitude: real, longitude: real, unixTs: I64)

  /** A record without a packet timestamp sorts first, like one from the beginning of time. */
  const Key: GpsRecord -> int := (r: GpsRecord) => if r.packetTime.Some? then r.packetTime.value else I64_MIN

  // Loading.

  datatype LineRead = Line(text: string) | Unreadable

  /** The records of the lines that parse, up to the first that cannot be read. */
  function Parsed(lines: seq<LineRead>, parse: string -> Option<GpsRecord>): seq<GpsRecord> {
    if lines == [] || lines[0].Unreadable? then []
    else
      (match parse(lines[0].text) case None => [] case Some(r) => [r]) + Parsed(lines[1..], parse)
  }

  /** The loader's loop, skipping malformed lines, and the stable sort after it. */
  method LoadGpsRecords(lines: seq<LineRead>, parse: string -> Option<GpsRecord>) returns (records: seq<GpsRecord>)
    ensures records == SortByKey(Parsed(lines, parse), Key)
    ensures SortedByKey(records, Key) && multiset(records) == multiset(Parsed(lines, parse))
    ensures forall k :: WithKey(records, Key, k) == WithKey(Parsed(lines, parse), Key, k)
  {
    records := [];
    var i := 0;
    while i < |lines| && lines[i].Line?
      invariant i <= |lines|
      invariant Parsed(lines, parse) == records + Parsed(lines[i..], parse)
    {
      assert lines[i..][1..] == lines[i + 1..];
      var r := parse(lines[i].text);
      ghost var rest := Parsed(lines[i + 1..], parse);
      if r.Some? {
        assert records + ([r.value] + rest) == (records + [r.value]) + rest;
        records := records + [r.value];
      } else {
        assert [] + rest == rest;
      }
      i := i + 1;
    }
    assert records + [] == records;
    SortByKeyIsStable(records, Key);
    records := SortByKey(records, Key);
  }

  // Searching.

  /** `partition_point`, on records in order: how many come no later than the packet. */
  function PartitionPoint(records: seq<GpsRecord>, t: I64): (p: nat)
    ensures p <= |records|
    ensures forall i :: 0 <= i < p ==> Key(records[i]) <= t
    ensures p < |records| ==> Key(records[p]) > t
  {
    if records == [] || Key(records[0]) > t then 0 else 1 + PartitionPoint(records[1..], t)
  }

  const I128_MAX: int := 0x7fff_ffff_ffff_ffff_ffff_ffff_ffff_ffff

  function Abs(n: int): nat { if n < 0 then -n else n }

  /** How far a record is from a packet, which in 128 bits cannot overflow. */
  function DistanceTo(r: GpsRecord, t: I64): (d: Option<nat>)
    ensures d.Some? <==> r.packetTime.Some?
    ensures d.Some? ==> d.value == Abs(t - r.packetTime.value) <= I64_MAX - I64_MIN < I128_MAX
  {
    match r.packetTime case None => None case Some(ts) => Some(Abs(t - ts))
  }

  /** Which record is chosen. */
  function NearestIndex(records: seq<GpsRecord>, t: I64): (i: nat)
    requires records != []
    ensures i < |records|
  {
    var p := PartitionPoint(records, t);
    if p == 0 then 0
    else if p >= |records| then |records| - 1
    else
      var before, after := p - 1, p;
      match (DistanceTo(records[before], t), DistanceTo(records[after], t))
      case (Some(b), Some(a)) => if b <= a then before else after
      case (Some(_), None) => before
      case (None, Some(_)) => after
      case (None, None) => before
  }

  function FindNearestGps(records: seq<GpsRecord>, t: I64): Option<GpsPoint> {
    if records == [] then None
    else
      var r := records[NearestIndex(records, t)];
      Some(GpsPoint(r.lat, r.lon, if r.packetTime.Some? then r.packetTime.value else r.systemTime))
  }

  /** Nearest of all the timestamped records, of two as near the earlier; one without a timestamp
      only if none has one. */
  ghost predicate IsNearest(records: seq<GpsRecord>, t: I64, i: nat)
    requires i < |records|
  {
    forall j :: 0 <= j < |records| && records[j].packetTime.Some? ==>
      && records[i].packetTime.Some?
      && NoFarther(records[i].packetTime.value, records[j].packetTime.value, t)
  }

  /** `a` is nearer to `t` than `b`, or as near and no later. */
  predicate NoFarther(a: I64, b: I64, t: I64) {
    Abs(t - a) < Abs(t - b) || (Abs(t - a) == Abs(t - b) && a <= b)
  }

  /** A record stamped with the earliest time of all is followed, at the end of those that sort
      like it, by one without a timestamp. */
  ghost predicate Ambiguous(records: seq<GpsRecord>) {
    exists i, j :: AmbiguousAt(records, i, j)
  }

  predicate AmbiguousAt(records: seq<GpsRecord>, i: int, j: int) {
    && 0 <= i < j < |records|
    && records[i].packetTime == Some(I64_MIN) && records[j].packetTime.None?
    && (j + 1 < |records| ==> Key(records[j + 1]) > I64_MIN)
  }

  lemma SearchIsRight(records: seq<GpsRecord>, t: I64)
    requires records != [] && SortedByKey(records, Key) && !Ambiguous(records)
    ensures IsNearest(records, t, NearestIndex(records, t))
  {
    var i := NearestIndex(records, t);
    var before: int := PartitionPoint(records, t) - 1;
    forall j | 0 <= j < |records| && records[j].packetTime.Some?
      ensures records[i].packetTime.Some?
      ensures NoFarther(records[i].packetTime.value, records[j].packetTime.value, t)
    {
      assert Key(records[j]) == records[j].packetTime.value;
      assert !AmbiguousAt(records, j, i) && !AmbiguousAt(records, j, before);
    }
  }

  ghost predicate PointOf(p: GpsPoint, r: GpsRecord) {
    && p.latitude == r.lat && p.longitude == r.lon
    && p.unixTs == (if r.packetTime.Some? then r.packetTime.value else r.systemTime)
  }

  /** The fix reported is that of a nearest record, stamped with the packet's clock if the record
      has it and with the system's if not; there is one unless there are no records. */
  lemma FixIsNearest(records: seq<GpsRecord>, t: I64)
    requires SortedByKey(records, Key) && !Ambiguous(records)
    ensures FindNearestGps(records, t).None? <==> records == []
    ensures records != [] ==>
              exists i :: 0 <= i < |records| && IsNearest(records, t, i)
                          && PointOf(FindNearestGps(records, t).value, records[i])
  {
    if records != [] {
      SearchIsRight(records, t);
    }
  }

  lemma SearchIsWrong(records: seq<GpsRecord>, i: int, j: int)
    requires SortedByKey(records, Key) && AmbiguousAt(records, i, j)
    ensures !IsNearest(records, I64_MIN, NearestIndex(records, I64_MIN))
  {
    assert Key(records[j]) == I64_MIN;
    assert PartitionPoint(records, I64_MIN) == j + 1;
    assert NearestIndex(records, I64_MIN) == if j + 1 < |records| then j + 1 else j;
    assert Key(records[i]) == I64_MIN;
  }

  /** On records as loaded, the search is right for every packet exactly when the records are not
      ambiguous; in particular when no timestamp is the earliest of all. */
  lemma SearchIsRightExactly(records: seq<GpsRecord>)
    requires records != [] && SortedByKey(records, Key)
    ensures (forall t: I64 :: IsNearest(records, t, NearestIndex(records, t))) <==> !Ambiguous(records)
    ensures (forall r :: r in records ==> r.packetTime != Some(I64_MIN)) ==> !Ambiguous(records)
  {
    if !Ambiguous(records) {
      forall t: I64 ensures IsNearest(records, t, NearestIndex(records, t)) {
        SearchIsRight(records, t);
      }
    } else {
      var i, j :| AmbiguousAt(records, i, j);
      SearchIsWrong(records, i, j);
    }
  }

  /** Loading keeps such a pair in the order of the file, so a file can be ambiguous: this one's
      timestamped record is never found. */
  lemma EarliestTimestampIsMissed(first: GpsRecord, second: GpsRecord, t: I64)
    requires first.packetTime == Some(I64_MIN) && second.packetTime.None?
    ensures SortByKey([first, second], Key) == [first, second]
    ensures NearestIndex([first, second], t) == 1 && !IsNearest([first, second], t, 1)
  {
    assert [first, second][1..] == [second] && [second][1..] == [];
    assert Insert(second, [], Key) == [second];
    assert PartitionPoint([second], t) == 1;
    assert [first, second][0].packetTime.Some?;
  }
}
