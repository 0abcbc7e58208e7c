/** The ranking step of the best-seller report: per-name sales counts are
    sorted by count, highest first, and cut to the first few. */
module BestSellers {

  /** A name and how many units of it were sold. */
  datatype Tally = Tally(name: string, count: int)

  /** One line of the best-seller report. */
  datatype ReportRow = Seller(name: string, sold: int) | NoSalesData

  /** How many entries the report shows. */
  const ReportLimit: nat := 5

  ghost predicate NonIncreasing(s: seq<Tally>)
  {
    forall i, j :: 0 <= i < j < |s| ==> s[i].count >= s[j].count
  }

  ghost predicate DistinctNames(s: seq<Tally>)
  {
    forall i, j :: 0 <= i < j < |s| ==> s[i].name != s[j].name
  }

  /** Inserts `t` before the first entry with a smaller count, so that
      earlier entries win ties. */
  function Insert(t: Tally, s: seq<Tally>): seq<Tally>
  {
    if s == [] || t.count >= s[0].count then [t] + s
    else [s[0]] + Insert(t, s[1..])
  }

  /** Insertion adds exactly `t` to the entries. */
  lemma {:induction false} InsertPermutes(t: Tally, s: seq<Tally>)
    ensures multiset(Insert(t, s)) == multiset(s) + multiset{t}
  {
    if s != [] && t.count < s[0].count {
      InsertPermutes(t, s[1..]);
      assert s == [s[0]] + s[1..];
    }
  }

  /** Insertion into a non-increasing list keeps it non-increasing. */
  lemma {:induction false} InsertKeepsOrder(t: Tally, s: seq<Tally>)
    requires NonIncreasing(s)
    ensures NonIncreasing(Insert(t, s))
  {
    if s != [] && t.count < s[0].count {
      var rest := Insert(t, s[1..]);
      InsertKeepsOrder(t, s[1..]);
      InsertPermutes(t, s[1..]);
      forall k | 0 <= k < |rest| ensures rest[k].count <= s[0].count {
        assert rest[k] in multiset(s[1..]) + multiset{t};
        if rest[k] != t {
          assert rest[k] in s[1..];
        }
      }
    }
  }

  /** A stable sort by count, highest first. */
  function SortByCount(s: seq<Tally>): (r: seq<Tally>)
    ensures NonIncreasing(r)
    ensures multiset(r) == multiset(s)
  {
    if s == [] then []
    else
      var rest := SortByCount(s[1..]);
      InsertKeepsOrder(s[0], rest);
      InsertPermutes(s[0], rest);
      assert s == [s[0]] + s[1..];
      Insert(s[0], rest)
  }

  /** The report's ranking: the entries sorted by count, highest first, and
      the first `limit` of them. */
  function TopSellers(s: seq<Tally>, limit: nat): (top: seq<Tally>)
    ensures |top| == if |s| < limit then |s| else limit
    ensures NonIncreasing(top)
    ensures multiset(top) <= multiset(s)
  {
    var sorted := SortByCount(s);
    assert |sorted| == |multiset(sorted)| == |s|;
    if |sorted| <= limit then sorted
    else
      assert sorted == sorted[..limit] + sorted[limit..];
      sorted[..limit]
  }

  /** Insertion of an entry whose name is new keeps the names distinct. */
  lemma {:induction false} InsertKeepsDistinct(t: Tally, s: seq<Tally>)
    requires DistinctNames(s)
    requires forall u :: u in s ==> u.name != t.name
    ensures DistinctNames(Insert(t, s))
  {
    if s != [] && t.count < s[0].count {
      var rest := Insert(t, s[1..]);
      InsertKeepsDistinct(t, s[1..]);
      InsertPermutes(t, s[1..]);
      forall k | 0 <= k < |rest| ensures rest[k].name != s[0].name {
        assert rest[k] in multiset(s[1..]) + multiset{t};
        if rest[k] != t {
          assert rest[k] in s[1..];
        }
      }
    }
  }

  /** Sorting keeps the names distinct. */
  lemma {:induction false} SortKeepsDistinct(s: seq<Tally>)
    requires DistinctNames(s)
    ensures DistinctNames(SortByCount(s))
  {
    if s != [] {
      var rest := SortByCount(s[1..]);
      SortKeepsDistinct(s[1..]);
      forall u | u in rest ensures u.name != s[0].name {
        assert u in multiset(s[1..]);
      }
      InsertKeepsDistinct(s[0], rest);
    }
  }

  /** Entries with distinct names are ranked with distinct names, so no
      entry is reported twice. */
  lemma {:induction false} TopSellersDistinct(s: seq<Tally>, limit: nat)
    requires DistinctNames(s)
    ensures DistinctNames(TopSellers(s, limit))
  {
    SortKeepsDistinct(s);
  }

  /** Every reported entry comes from the input, and any input entry left
      out sold no more than every reported one; when fewer than `limit`
      entries are reported, none is left out. */
  lemma {:induction false} TopSellersAreTop(s: seq<Tally>, limit: nat)
    ensures forall t :: t in TopSellers(s, limit) ==> t in s
    ensures forall e, t :: e in s && e !in TopSellers(s, limit) && t in TopSellers(s, limit) ==> t.count >= e.count
    ensures |TopSellers(s, limit)| < limit ==> forall e :: e in s ==> e in TopSellers(s, limit)
  {
    var sorted := SortByCount(s);
    var top := TopSellers(s, limit);
    assert |sorted| == |multiset(sorted)| == |s|;
    assert top == sorted[..|top|];
    forall t | t in top ensures t in s {
      assert t in multiset(sorted);
    }
    forall e, t | e in s && e !in top && t in top ensures t.count >= e.count {
      assert e in multiset(sorted);
      var p :| 0 <= p < |sorted| && sorted[p] == e;
      var q :| 0 <= q < |top| && top[q] == t;
      if p < |top| {
        assert false;
      }
    }
    if |top| < limit {
      forall e | e in s ensures e in top {
        assert e in multiset(sorted);
      }
    }
  }

  /** The entries of a count map, in an order the map does not fix. */
  method Entries(m: map<string, int>) returns (entries: seq<Tally>)
    ensures forall t :: t in entries ==> t.name in m && m[t.name] == t.count
    ensures forall n :: n in m ==> Tally(n, m[n]) in entries
    ensures DistinctNames(entries)
  {
    entries := [];
    var rest := m.Keys;
    while rest != {}
      invariant rest <= m.Keys
      invariant forall t :: t in entries ==> t.name in m && t.name !in rest && m[t.name] == t.count
      invariant forall n :: n in m && n !in rest ==> Tally(n, m[n]) in entries
      invariant DistinctNames(entries)
      decreases |rest|
    {
      var n :| n in rest;
      entries := entries + [Tally(n, m[n])];
      rest := rest - {n};
    }
  }

  /** The report lines for ranked entries, one per entry, in order. */
  function Rows(top: seq<Tally>): (rows: seq<ReportRow>)
    ensures |rows| == |top|
    ensures forall i :: 0 <= i < |top| ==> rows[i] == Seller(top[i].name, top[i].count)
  {
    if top == [] then [] else [Seller(top[0].name, top[0].count)] + Rows(top[1..])
  }

  /** The report: the top entries as lines, or the single "no sales data"
      line when there is none. */
  function Report(entries: seq<Tally>): (report: seq<ReportRow>)
    ensures 1 <= |report| <= ReportLimit
    ensures report == [NoSalesData] <==> entries == []
  {
    var top := TopSellers(entries, ReportLimit);
    if top == [] then [NoSalesData] else Rows(top)
  }

  /** For the entries of a count map `m`: an empty map gives the "no sales
      data" line; otherwise at most `ReportLimit` lines, each a name of `m`
      with its count, highest first, and any name left out sold no more
      than every reported one, which happens only when the report is full. */
  lemma {:induction false} ReportRanks(m: map<string, int>, entries: seq<Tally>)
    requires forall t :: t in entries ==> t.name in m && m[t.name] == t.count
    requires forall n :: n in m ==> Tally(n, m[n]) in entries
    requires DistinctNames(entries)
    ensures m.Keys == {} ==> Report(entries) == [NoSalesData]
    ensures m.Keys != {} ==>
      var report := Report(entries);
      1 <= |report| <= ReportLimit &&
      (forall i :: 0 <= i < |report| ==>
        report[i].Seller? && report[i].name in m && report[i].sold == m[report[i].name]) &&
      (forall i, j :: 0 <= i < j < |report| ==> report[i].sold >= report[j].sold) &&
      (forall i, j :: 0 <= i < j < |report| ==> report[i].name != report[j].name) &&
      (forall n :: n in m && Seller(n, m[n]) !in report ==>
        |report| == ReportLimit && forall i :: 0 <= i < |report| ==> report[i].sold >= m[n])
  {
    var top := TopSellers(entries, ReportLimit);
    if m.Keys == {} {
      if entries != [] {
        assert false;
      }
    } else {
      var n0 :| n0 in m;
      assert Tally(n0, m[n0]) in entries;
      assert Report(entries) == Rows(top);
      RowsFromMap(m, entries);
      RowsOrdered(top);
      TopSellersDistinct(entries, ReportLimit);
      RowsDominate(m, entries);
    }
  }

  /** Every reported line names a key of `m` with its count. */
  lemma {:induction false} RowsFromMap(m: map<string, int>, entries: seq<Tally>)
    requires forall t :: t in entries ==> t.name in m && m[t.name] == t.count
    ensures var rows := Rows(TopSellers(entries, ReportLimit));
      forall i :: 0 <= i < |rows| ==>
        rows[i].Seller? && rows[i].name in m && rows[i].sold == m[rows[i].name]
  {
    var top := TopSellers(entries, ReportLimit);
    TopSellersAreTop(entries, ReportLimit);
    forall i | 0 <= i < |top| ensures top[i] in entries {
      assert top[i] in top;
    }
  }

  /** Lines for non-increasing entries are in non-increasing order of sales. */
  lemma {:induction false} RowsOrdered(top: seq<Tally>)
    requires NonIncreasing(top)
    ensures var rows := Rows(top);
      forall i, j :: 0 <= i < j < |rows| ==> rows[i].sold >= rows[j].sold
  {
    var rows := Rows(top);
    forall i, j | 0 <= i < j < |rows| ensures rows[i].sold >= rows[j].sold {
      assert rows[i].sold == top[i].count && rows[j].sold == top[j].count;
    }
  }

  /** A key of `m` without a line sold no more than every reported one, and
      its absence means the report is full. */
  lemma {:induction false} RowsDominate(m: map<string, int>, entries: seq<Tally>)
    requires forall n :: n in m ==> Tally(n, m[n]) in entries
    ensures var rows := Rows(TopSellers(entries, ReportLimit));
      forall n :: n in m && Seller(n, m[n]) !in rows ==>
        |rows| == ReportLimit && forall i :: 0 <= i < |rows| ==> rows[i].sold >= m[n]
  {
    var top := TopSellers(entries, ReportLimit);
    var rows := Rows(top);
    TopSellersAreTop(entries, ReportLimit);
    forall n | n in m && Seller(n, m[n]) !in rows
      ensures |rows| == ReportLimit && forall i :: 0 <= i < |rows| ==> rows[i].sold >= m[n]
    {
      var e := Tally(n, m[n]);
      assert e in entries;
      if e in top {
        assert false;
      }
      forall i | 0 <= i < |rows| ensures rows[i].sold >= m[n] {
        assert top[i] in top;
      }
    }
  }
}
