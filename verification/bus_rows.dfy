/**
 * The departure table of the bus feed: for each service, in feed order, the
 * first `k` departures (`service['departures'][:k]`), each appended as a row
 * tagged with the service's name. aggregated_live_dash.py takes three per
 * service, live_bus_times.py two. Nothing is re-sorted: rows stay grouped by
 * service, in feed order, and minutes and departure times are copied as they are.
 */
module BusRows {

  /** One entry of a service's `departures` list in the parsed feed. */
  datatype Departure = Departure(minutes: int, departureTime: string)

  /** One entry of the feed's `services` list. */
  datatype Service = Service(serviceName: string, departures: seq<Departure>)

  /** The parsed feed: `{ "services": [ … ] }`. */
  datatype Feed = Feed(services: seq<Service>)

  /** One row of the table: 'Service Name', 'Minutes Until Departure', 'Departure Time'. */
  datatype Row = Row(serviceName: string, minutesUntilDeparture: int, departureTime: string)

  /** Departures kept per service by `update_text_3` of aggregated_live_dash.py. */
  const DashboardTake: nat := 3
  /** Departures kept per service by live_bus_times.py. */
  const ScriptTake: nat := 2

  function Min(a: nat, b: nat): nat {
    if a <= b then a else b
  }

  /** Python's `s[:k]`: the slice is cut short when the list is shorter than `k`. */
  function TakePrefix<T>(s: seq<T>, k: nat): (p: seq<T>)
    ensures |p| == Min(k, |s|)
    ensures forall j | 0 <= j < |p| :: p[j] == s[j]
  {
    if k < |s| then s[..k] else s
  }

  /** The row appended for one departure of a service. */
  function RowFor(name: string, d: Departure): Row {
    Row(name, d.minutes, d.departureTime)
  }

  /** The rows appended for a list of departures, all tagged with one name. */
  function TagRows(name: string, ds: seq<Departure>): (rs: seq<Row>)
    ensures |rs| == |ds|
    ensures forall j | 0 <= j < |ds| :: rs[j] == RowFor(name, ds[j])
  {
    if ds == [] then [] else [RowFor(name, ds[0])] + TagRows(name, ds[1..])
  }

  /** The rows one service contributes: its first `k` departures, in order. */
  function ServiceRows(s: Service, k: nat): (rs: seq<Row>)
    ensures |rs| == Min(k, |s.departures|)
    ensures forall j | 0 <= j < |rs| :: rs[j] == RowFor(s.serviceName, s.departures[j])
  {
    TagRows(s.serviceName, TakePrefix(s.departures, k))
  }

  /** The whole table: each service's rows, services in feed order. */
  function Table(ss: seq<Service>, k: nat): seq<Row> {
    if ss == [] then [] else ServiceRows(ss[0], k) + Table(ss[1..], k)
  }

  /** Σ min(k, |departures|) over the services. */
  function TotalRows(ss: seq<Service>, k: nat): nat {
    if ss == [] then 0 else Min(k, |ss[0].departures|) + TotalRows(ss[1..], k)
  }

  /** The table of a concatenation of feeds is the concatenation of their tables. */
  lemma {:induction false} TableAppend(a: seq<Service>, b: seq<Service>, k: nat)
    ensures Table(a + b, k) == Table(a, k) + Table(b, k)
  {
    if a == [] {
      assert a + b == b;
    } else {
      assert (a + b)[1..] == a[1..] + b;
      TableAppend(a[1..], b, k);
    }
  }

  /** The table has Σ min(k, |departures|) rows. */
  lemma {:induction false} RowCount(ss: seq<Service>, k: nat)
    ensures |Table(ss, k)| == TotalRows(ss, k)
  {
    if ss != [] {
      RowCount(ss[1..], k);
    }
  }

  /** Where service `i`'s rows start in the table. */
  function Offset(ss: seq<Service>, i: nat, k: nat): nat
    requires i <= |ss|
  {
    |Table(ss[..i], k)|
  }

  /** Service `i` contributes a contiguous block of min(k, |departures|) rows,
      right after the blocks of the services before it. */
  lemma ServiceBlock(ss: seq<Service>, i: nat, k: nat)
    requires i < |ss|
    ensures Offset(ss, i + 1, k) == Offset(ss, i, k) + Min(k, |ss[i].departures|)
    ensures Offset(ss, i + 1, k) <= |Table(ss, k)|
    ensures Table(ss, k)[Offset(ss, i, k)..Offset(ss, i + 1, k)] == ServiceRows(ss[i], k)
  {
    assert ss == ss[..i] + [ss[i]] + ss[i + 1..];
    assert ss[..i + 1] == ss[..i] + [ss[i]];
    assert Table([ss[i]], k) == ServiceRows(ss[i], k);
    TableAppend(ss[..i], [ss[i]], k);
    TableAppend(ss[..i] + [ss[i]], ss[i + 1..], k);
  }

  /** Row `j` of service `i`'s block is that service's departure `j`, tagged
      with the service's name, minutes and departure time unchanged. */
  lemma RowAt(ss: seq<Service>, i: nat, j: nat, k: nat)
    requires i < |ss| && j < Min(k, |ss[i].departures|)
    ensures Offset(ss, i, k) + j < |Table(ss, k)|
    ensures Table(ss, k)[Offset(ss, i, k) + j] == RowFor(ss[i].serviceName, ss[i].departures[j])
  {
    ServiceBlock(ss, i, k);
    var lo := Offset(ss, i, k);
    assert Table(ss, k)[lo + j] == Table(ss, k)[lo..Offset(ss, i + 1, k)][j];
  }

  /** Blocks follow feed order: an earlier service's rows all precede a later one's. */
  lemma {:induction false} BlocksInFeedOrder(ss: seq<Service>, i: nat, i': nat, k: nat)
    requires i < i' <= |ss|
    ensures Offset(ss, i + 1, k) <= Offset(ss, i', k)
    decreases i' - i
  {
    if i + 1 < i' {
      BlocksInFeedOrder(ss, i + 1, i', k);
      ServiceBlock(ss, i + 1, k);
    }
  }

  /** `r` is one of the first `k` departures of some service, tagged with that service's name. */
  ghost predicate RowFrom(ss: seq<Service>, k: nat, r: Row) {
    exists i, j :: 0 <= i < |ss| && 0 <= j < Min(k, |ss[i].departures|)
      && r == RowFor(ss[i].serviceName, ss[i].departures[j])
  }

  /** Every row of the table comes from one of the first `k` departures of some service. */
  lemma {:induction false} RowsComeFromFeed(ss: seq<Service>, k: nat, p: nat)
    requires p < |Table(ss, k)|
    ensures RowFrom(ss, k, Table(ss, k)[p])
  {
    var head := ServiceRows(ss[0], k);
    if p < |head| {
      assert Table(ss, k)[p] == RowFor(ss[0].serviceName, ss[0].departures[p]);
    } else {
      RowsComeFromFeed(ss[1..], k, p - |head|);
      var i, j :| 0 <= i < |ss[1..]| && 0 <= j < Min(k, |ss[1..][i].departures|)
        && Table(ss[1..], k)[p - |head|] == RowFor(ss[1..][i].serviceName, ss[1..][i].departures[j]);
      assert ss[1..][i] == ss[i + 1];
    }
  }

  /** Taking fewer departures gives a prefix of each service's rows: the
      two-per-service table of live_bus_times.py keeps the first two of the
      three rows aggregated_live_dash.py shows for a service. */
  lemma ServiceRowsPrefix(s: Service, k: nat, k': nat)
    requires k <= k'
    ensures ServiceRows(s, k) == ServiceRows(s, k')[..|ServiceRows(s, k)|]
  {
  }

  /** The inner loop: append one row per kept departure of `service`. */
  method AppendServiceRows(rows: seq<Row>, service: Service, k: nat) returns (rows': seq<Row>)
    ensures rows' == rows + ServiceRows(service, k)
  {
    var departures := TakePrefix(service.departures, k);
    rows' := rows;
    var j := 0;
    while j < |departures|
      invariant 0 <= j <= |departures|
      invariant rows' == rows + TagRows(service.serviceName, departures[..j])
    {
      assert departures[..j + 1] == departures[..j] + [departures[j]];
      TagRowsAppend(service.serviceName, departures[..j], departures[j]);
      rows' := rows' + [RowFor(service.serviceName, departures[j])];
      j := j + 1;
    }
    assert departures[..j] == departures;
  }

  /** The loops of `update_text_3` (aggregated_live_dash.py) and of
      live_bus_times.py: append one row per kept departure, service by service. */
  method CollectRows(feed: Feed, k: nat) returns (rows: seq<Row>)
    ensures rows == Table(feed.services, k)
  {
    var ss := feed.services;
    rows := [];
    var i := 0;
    while i < |ss|
      invariant 0 <= i <= |ss|
      invariant rows == Table(ss[..i], k)
    {
      rows := AppendServiceRows(rows, ss[i], k);
      assert ss[..i + 1] == ss[..i] + [ss[i]];
      assert Table([ss[i]], k) == ServiceRows(ss[i], k) by {
        assert [ss[i]][1..] == [];
      }
      TableAppend(ss[..i], [ss[i]], k);
      i := i + 1;
    }
    assert ss[..i] == ss;
  }

  lemma TagRowsAppend(name: string, ds: seq<Departure>, d: Departure)
    ensures TagRows(name, ds + [d]) == TagRows(name, ds) + [RowFor(name, d)]
  {
  }

  /** The table of a one-service feed with two departures, taking two per service. */
  lemma SingleServiceExample()
    ensures Table([Service("X", [Departure(5, "10:05"), Departure(15, "10:15")])], ScriptTake)
         == [Row("X", 5, "10:05"), Row("X", 15, "10:15")]
  {
    var s := Service("X", [Departure(5, "10:05"), Departure(15, "10:15")]);
    assert [s][1..] == [];
  }
}
