/**
 * The list logic of the agenda screen (`src/screens/ScheduleScreen.tsx`):
 * the today / upcoming / all filter, and the sections of one date each that
 * the filtered appointments are grouped into.
 */
module ScheduleScreen {
  import opened Types
  import opened Seqs
  import opened Helpers

  /** The chips above the agenda. */
  datatype ListFilter = TodayFilter | UpcomingFilter | AllFilter

  /**
   * `filteredAppointments`: today's appointments, those from today on (dates
   * compared as ISO strings), or all of them, always in the order given.
   */
  function FilteredAppointments(appointments: seq<Appointment>, filter: ListFilter, today: Date): (r: seq<Appointment>)
    ensures filter == TodayFilter ==> forall a :: a in r <==> a in appointments && a.date == today
    ensures filter == UpcomingFilter ==> forall a :: a in r <==> a in appointments && DateLe(today, a.date)
    ensures filter == AllFilter ==> r == appointments
    ensures multiset(r) <= multiset(appointments)
  {
    match filter
    case TodayFilter =>
      FilterSubMultiset(appointments, (a: Appointment) => a.date == today);
      OnDate(appointments, today)
    case UpcomingFilter =>
      FilterSubMultiset(appointments, (a: Appointment) => DateLe(today, a.date));
      Filter(appointments, (a: Appointment) => DateLe(today, a.date))
    case AllFilter => appointments
  }

  /** A section heading: 'Hoje' for today, the long date otherwise (its formatting is not modelled). */
  datatype SectionTitle = Hoje | LongDate(date: Date)

  function TitleFor(date: Date, today: Date): SectionTitle {
    if date == today then Hoje else LongDate(date)
  }

  datatype Section = Section(title: SectionTitle, date: Date, data: seq<Appointment>)

  /**
   * What `sections` promises of a list of sections: one per date that occurs,
   * none empty, ascending by date, each holding that date's appointments in
   * the order given.
   */
  ghost predicate IsGrouping(filtered: seq<Appointment>, today: Date, sections: seq<Section>) {
    && (forall i, j :: 0 <= i < j < |sections| ==> sections[i].date < sections[j].date)
    && (forall i :: 0 <= i < |sections| ==>
          && sections[i].data == OnDate(filtered, sections[i].date)
          && sections[i].data != []
          && sections[i].title == TitleFor(sections[i].date, today))
    && (forall a :: a in filtered ==> exists i :: 0 <= i < |sections| && sections[i].date == a.date)
  }

  /** Every filtered appointment lands in exactly one section, and sections hold nothing else. */
  lemma GroupingPartition(filtered: seq<Appointment>, today: Date, sections: seq<Section>, a: Appointment)
    requires IsGrouping(filtered, today, sections)
    ensures a in filtered ==> exists i :: 0 <= i < |sections| && a in sections[i].data
    ensures forall i, j :: 0 <= i < |sections| && 0 <= j < |sections| && a in sections[i].data && a in sections[j].data ==> i == j
    ensures forall i :: 0 <= i < |sections| && a in sections[i].data ==> a in filtered
  {
    if a in filtered {
      var i :| 0 <= i < |sections| && sections[i].date == a.date;
      assert a in sections[i].data;
    }
    forall i, j | 0 <= i < |sections| && 0 <= j < |sections| && a in sections[i].data && a in sections[j].data
      ensures i == j
    {
      assert sections[i].date == a.date == sections[j].date;
    }
  }

  /** Two strictly ascending lists with the same elements are the same list. */
  lemma {:induction false} AscendingUnique(a: seq<Date>, b: seq<Date>)
    requires forall i, j :: 0 <= i < j < |a| ==> a[i] < a[j]
    requires forall i, j :: 0 <= i < j < |b| ==> b[i] < b[j]
    requires forall d :: d in a <==> d in b
    ensures a == b
    decreases |a|
  {
    if a + b != [] {
      var x := (a + b)[0];
      assert x in a + b;
      assert x in a && x in b;
      assert a[0] in b && b[0] in a;
      var i :| 0 <= i < |b| && b[i] == a[0];
      var j :| 0 <= j < |a| && a[j] == b[0];
      assert a[0] <= a[j] && b[0] <= b[i];
      forall d ensures d in a[1..] <==> d in b[1..] {
        if d in a[1..] {
          var k :| 1 <= k < |a| && a[k] == d;
          assert d in b && d != b[0];
        }
        if d in b[1..] {
          var k :| 1 <= k < |b| && b[k] == d;
          assert d in a && d != a[0];
        }
      }
      AscendingUnique(a[1..], b[1..]);
      assert a == [a[0]] + a[1..] && b == [b[0]] + b[1..];
    }
  }

  /** The dates of the sections, in order. */
  function Dates(sections: seq<Section>): (r: seq<Date>)
    ensures |r| == |sections| && forall i :: 0 <= i < |r| ==> r[i] == sections[i].date
  {
    seq(|sections|, i requires 0 <= i < |sections| => sections[i].date)
  }

  /** A date with a section in one grouping of a list has one in any other. */
  lemma SectionDateShared(filtered: seq<Appointment>, today: Date, s1: seq<Section>, s2: seq<Section>, i: nat)
    requires IsGrouping(filtered, today, s1) && IsGrouping(filtered, today, s2)
    requires i < |s1|
    ensures s1[i].date in Dates(s2)
  {
    var a := s1[i].data[0];
    assert a in s1[i].data;
    var j :| 0 <= j < |s2| && s2[j].date == a.date;
    assert Dates(s2)[j] == s1[i].date;
  }

  /** The grouping of a list is determined by the list: there is only one. */
  lemma GroupingUnique(filtered: seq<Appointment>, today: Date, s1: seq<Section>, s2: seq<Section>)
    requires IsGrouping(filtered, today, s1) && IsGrouping(filtered, today, s2)
    ensures s1 == s2
  {
    var d1, d2 := Dates(s1), Dates(s2);
    forall d ensures d in d1 <==> d in d2 {
      if d in d1 {
        var i :| 0 <= i < |s1| && d1[i] == d;
        SectionDateShared(filtered, today, s1, s2, i);
      }
      if d in d2 {
        var i :| 0 <= i < |s2| && d2[i] == d;
        SectionDateShared(filtered, today, s2, s1, i);
      }
    }
    AscendingUnique(d1, d2);
    forall i | 0 <= i < |s1| ensures s1[i] == s2[i] {
      assert d1[i] == d2[i];
    }
  }

  lemma OnDateSnoc(s: seq<Appointment>, x: Appointment, d: Date)
    ensures OnDate(s + [x], d) == OnDate(s, d) + (if x.date == d then [x] else [])
  {
    FilterConcat(s, [x], (a: Appointment) => a.date == d);
    assert [x][1..] == [];
  }

  /** The keys are exactly the dates of `seen`. */
  ghost predicate KeysSeen(seen: seq<Appointment>, keys: seq<Date>) {
    forall d :: d in keys <==> exists j :: 0 <= j < |seen| && seen[j].date == d
  }

  /** Each key holds the appointments of `seen` on its date, in order. */
  ghost predicate GroupsSeen(seen: seq<Appointment>, grouped: map<Date, seq<Appointment>>) {
    forall d :: d in grouped ==> grouped[d] == OnDate(seen, d)
  }

  /**
   * The `grouped` record after the appointments of `seen`: a key per date
   * seen, in order of first appearance, holding that date's appointments in
   * order.
   */
  ghost predicate GroupedSoFar(seen: seq<Appointment>, grouped: map<Date, seq<Appointment>>, keys: seq<Date>) {
    && Distinct(keys)
    && (forall d :: d in grouped <==> d in keys)
    && KeysSeen(seen, keys)
    && GroupsSeen(seen, grouped)
  }

  lemma KeysStep(seen: seq<Appointment>, a: Appointment, keys: seq<Date>)
    requires KeysSeen(seen, keys)
    ensures a.date in keys ==> KeysSeen(seen + [a], keys)
    ensures a.date !in keys ==> KeysSeen(seen + [a], keys + [a.date])
  {
    var s := seen + [a];
    assert s[|seen|].date == a.date;
    forall d | d in keys ensures exists j :: 0 <= j < |s| && s[j].date == d {
      var j :| 0 <= j < |seen| && seen[j].date == d;
      assert s[j].date == d;
    }
    forall j | 0 <= j < |seen| ensures s[j].date in keys {
      assert seen[j].date == s[j].date;
    }
  }

  lemma NotSeen(seen: seq<Appointment>, d: Date)
    requires forall j :: 0 <= j < |seen| ==> seen[j].date != d
    ensures OnDate(seen, d) == []
  {
  }

  lemma GroupsStep(seen: seq<Appointment>, a: Appointment, grouped: map<Date, seq<Appointment>>)
    requires GroupsSeen(seen, grouped)
    requires a.date !in grouped ==> OnDate(seen, a.date) == []
    ensures var g := if a.date in grouped then grouped else grouped[a.date := []];
      GroupsSeen(seen + [a], g[a.date := g[a.date] + [a]])
  {
    var g := if a.date in grouped then grouped else grouped[a.date := []];
    assert g[a.date] == OnDate(seen, a.date);
    forall d | d in g[a.date := g[a.date] + [a]]
      ensures g[a.date := g[a.date] + [a]][d] == OnDate(seen + [a], d)
    {
      OnDateSnoc(seen, a, d);
    }
  }

  /** A key that is new keeps the keys free of repeats. */
  lemma DistinctSnoc(keys: seq<Date>, d: Date)
    requires Distinct(keys) && d !in keys
    ensures Distinct(keys + [d])
  {
    var k := keys + [d];
    forall i, j | 0 <= i < j < |k| ensures k[i] != k[j] {
      if j == |keys| {
        assert k[i] == keys[i];
      } else {
        assert k[i] == keys[i] && k[j] == keys[j];
      }
    }
  }

  /**
   * One pass of the `forEach` keeps the record in step with the appointments
   * seen: a missing date first gets an empty entry and a key, then the
   * appointment joins its date's entry.
   */
  lemma GroupStep(seen: seq<Appointment>, a: Appointment, grouped: map<Date, seq<Appointment>>, keys: seq<Date>)
    requires GroupedSoFar(seen, grouped, keys)
    ensures var g := if a.date in grouped then grouped else grouped[a.date := []];
      var k := if a.date in grouped then keys else keys + [a.date];
      GroupedSoFar(seen + [a], g[a.date := g[a.date] + [a]], k)
  {
    KeysStep(seen, a, keys);
    if a.date !in grouped {
      NotSeen(seen, a.date);
      DistinctSnoc(keys, a.date);
    }
    GroupsStep(seen, a, grouped);
  }

  /**
   * The `forEach` that fills the `grouped` record: each date seen gets a key,
   * in order of first appearance, holding that date's appointments in order.
   */
  method GroupByDate(filtered: seq<Appointment>) returns (grouped: map<Date, seq<Appointment>>, keys: seq<Date>)
    ensures GroupedSoFar(filtered, grouped, keys)
  {
    grouped := map[];
    keys := [];
    var i := 0;
    while i < |filtered|
      invariant 0 <= i <= |filtered|
      invariant GroupedSoFar(filtered[..i], grouped, keys)
    {
      var a := filtered[i];
      assert filtered[..i + 1] == filtered[..i] + [a];
      GroupStep(filtered[..i], a, grouped, keys);
      if a.date !in grouped {
        grouped := grouped[a.date := []];
        keys := keys + [a.date];
      }
      grouped := grouped[a.date := grouped[a.date] + [a]];
      i := i + 1;
    }
    assert filtered[..i] == filtered;
  }

  /** `Object.entries(grouped).sort(...)` on the keys: ascending, without repeats, the same dates. */
  lemma SortedKeys(keys: seq<Date>)
    requires Distinct(keys)
    ensures var sorted := Sort(keys, DateLe);
      && (forall i, j :: 0 <= i < j < |sorted| ==> sorted[i] < sorted[j])
      && (forall d :: d in sorted <==> d in keys)
  {
    var sorted := Sort(keys, DateLe);
    assert TotalPreorder(DateLe);
    SortSorted(keys, DateLe);
    PermutationDistinct(keys, sorted);
    forall d ensures d in sorted <==> d in keys {
      assert d in sorted <==> d in multiset(sorted);
    }
  }

  /** The `.map(...)` over the sorted keys: one titled section per key. */
  method ListSections(sorted: seq<Date>, grouped: map<Date, seq<Appointment>>, today: Date) returns (sections: seq<Section>)
    requires forall d :: d in sorted ==> d in grouped
    ensures |sections| == |sorted|
    ensures forall j :: 0 <= j < |sorted| ==>
      sections[j] == Section(TitleFor(sorted[j], today), sorted[j], grouped[sorted[j]])
  {
    sections := [];
    var k := 0;
    while k < |sorted|
      invariant 0 <= k <= |sorted| && |sections| == k
      invariant forall j :: 0 <= j < k ==> sections[j] == Section(TitleFor(sorted[j], today), sorted[j], grouped[sorted[j]])
    {
      sections := sections + [Section(TitleFor(sorted[k], today), sorted[k], grouped[sorted[k]])];
      k := k + 1;
    }
  }

  /** Sections listed from a complete record, in ascending key order, are the grouping. */
  lemma ListedSectionsGroup(filtered: seq<Appointment>, today: Date, grouped: map<Date, seq<Appointment>>,
                            keys: seq<Date>, sorted: seq<Date>, sections: seq<Section>)
    requires GroupedSoFar(filtered, grouped, keys)
    requires forall i, j :: 0 <= i < j < |sorted| ==> sorted[i] < sorted[j]
    requires forall d :: d in sorted <==> d in keys
    requires |sections| == |sorted|
    requires forall j :: 0 <= j < |sorted| ==>
      sections[j] == Section(TitleFor(sorted[j], today), sorted[j], grouped[sorted[j]])
    ensures IsGrouping(filtered, today, sections)
  {
    forall j | 0 <= j < |sections| ensures sections[j].data != [] {
      assert sorted[j] in keys;
      var m :| 0 <= m < |filtered| && filtered[m].date == sorted[j];
      assert filtered[m] in sections[j].data;
    }
    forall a | a in filtered ensures exists j :: 0 <= j < |sections| && sections[j].date == a.date {
      var m :| 0 <= m < |filtered| && filtered[m] == a;
      assert a.date in keys;
      var j :| 0 <= j < |sorted| && sorted[j] == a.date;
      assert sections[j].date == a.date;
    }
  }

  /**
   * `sections`: groups the appointments into a record keyed by date, adding
   * a key the first time its date is seen and appending to it, then lists
   * the keys in ascending order with their titles.
   */
  method BuildSections(filtered: seq<Appointment>, today: Date) returns (sections: seq<Section>)
    ensures IsGrouping(filtered, today, sections)
  {
    var grouped, keys := GroupByDate(filtered);
    var sorted := Sort(keys, DateLe);
    SortedKeys(keys);
    sections := ListSections(sorted, grouped, today);
    ListedSectionsGroup(filtered, today, grouped, keys, sorted, sections);
  }
}
