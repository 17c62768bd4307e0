/** Report.java: an ordered list of entries, matched by object identity. */
module Reports {
  import opened Dates
  import opened Entries

  /** List.indexOf under reference equality: the first position holding x, or -1. */
  function IndexOf<T(==)>(s: seq<T>, x: T): (i: int)
    ensures -1 <= i < |s|
    ensures i == -1 <==> x !in s
    ensures 0 <= i ==> s[i] == x && x !in s[..i]
  {
    if s == [] then -1
    else if s[0] == x then 0
    else
      var j := IndexOf(s[1..], x);
      if j == -1 then -1 else j + 1
  }

  /** The sum of the amounts, added up front to back as Report.sum's loop does. */
  function TotalAmount(es: seq<Entry>): (t: real)
    reads es
    ensures t >= 0.0
    ensures es == [] ==> t == 0.0
  {
    if es == [] then 0.0 else TotalAmount(es[..|es| - 1]) + es[|es| - 1].amount
  }

  /** The condition of getEntriesInRange's loop: neither before start nor after end. */
  predicate InRange(e: Entry, start: Date, end: Date)
    reads e
  {
    !(Before(e.date, start) || Before(end, e.date))
  }

  /** The entries that getEntriesInRange collects, in the order of es. */
  function EntriesInRange(es: seq<Entry>, start: Date, end: Date): (r: seq<Entry>)
    reads es
    ensures |r| <= |es|
    ensures forall i :: 0 <= i < |r| ==> InRange(r[i], start, end)
  {
    if es == [] then []
    else
      var prefix := EntriesInRange(es[..|es| - 1], start, end);
      if InRange(es[|es| - 1], start, end) then prefix + [es[|es| - 1]] else prefix
  }

  /** The fields of each entry of es, position by position. */
  function Snapshots(es: seq<Entry>): (fs: seq<EntryFields>)
    reads es
    ensures |fs| == |es|
  {
    if es == [] then [] else Snapshots(es[..|es| - 1]) + [es[|es| - 1].Fields()]
  }

  /** Position i of the snapshots holds the fields of the entry at position i. */
  lemma {:induction false} SnapshotsAt(es: seq<Entry>, i: nat)
    requires i < |es|
    ensures Snapshots(es)[i] == es[i].Fields()
  {
    if i < |es| - 1 {
      SnapshotsAt(es[..|es| - 1], i);
    }
  }

  /** Snapshots are the fields of the entries, position by position. */
  lemma {:induction false} SnapshotsOf(es: seq<Entry>, fs: seq<EntryFields>)
    requires |es| == |fs| && forall i :: 0 <= i < |es| ==> es[i].Fields() == fs[i]
    ensures Snapshots(es) == fs
  {
    if es != [] {
      var n := |es| - 1;
      SnapshotsOf(es[..n], fs[..n]);
      assert fs == fs[..n] + [fs[n]];
    }
  }

  /** All entries of es were created with kind k. */
  predicate AllOfKind(es: seq<Entry>, k: Kind) {
    forall i :: 0 <= i < |es| ==> es[i].kind == k
  }

  lemma AllOfKindAppend(es: seq<Entry>, e: Entry, k: Kind)
    requires AllOfKind(es, k) && e.kind == k
    ensures AllOfKind(es + [e], k)
  {
  }

  /** a can be obtained from b by deleting elements: a keeps b's order. */
  ghost predicate IsSubsequence<T>(a: seq<T>, b: seq<T>) {
    if a == [] then true
    else if b == [] then false
    else (a[|a| - 1] == b[|b| - 1] && IsSubsequence(a[..|a| - 1], b[..|b| - 1]))
         || IsSubsequence(a, b[..|b| - 1])
  }

  /** Appending an entry adds its amount to the total. */
  lemma TotalAmountAppend(es: seq<Entry>, e: Entry)
    ensures TotalAmount(es + [e]) == TotalAmount(es) + e.amount
  {
    assert (es + [e])[..|es|] == es;
  }

  /** One more entry: it joins the range query's result exactly when its date is in range. */
  lemma EntriesInRangeAppend(es: seq<Entry>, e: Entry, start: Date, end: Date)
    ensures EntriesInRange(es + [e], start, end) ==
      EntriesInRange(es, start, end) + (if InRange(e, start, end) then [e] else [])
  {
    assert (es + [e])[..|es|] == es;
  }

  /** getEntriesInRange keeps exactly the entries dated from start to end, both ends included. */
  lemma {:induction false} EntriesInRangeMembers(es: seq<Entry>, start: Date, end: Date)
    ensures forall e :: e in EntriesInRange(es, start, end) <==>
      e in es && AtOrBefore(start, e.date) && AtOrBefore(e.date, end)
  {
    if es != [] {
      var init := es[..|es| - 1];
      EntriesInRangeMembers(init, start, end);
      assert es == init + [es[|es| - 1]];
    }
  }

  /**
   * getEntriesInRange keeps every copy of an in-range entry (the same object may have been
   * added more than once) and no copy of any other.
   */
  lemma {:induction false} EntriesInRangeCount(es: seq<Entry>, e: Entry, start: Date, end: Date)
    ensures multiset(EntriesInRange(es, start, end))[e] == if InRange(e, start, end) then multiset(es)[e] else 0
  {
    if es != [] {
      var init := es[..|es| - 1];
      EntriesInRangeCount(init, e, start, end);
      assert es == init + [es[|es| - 1]];
    }
  }

  /** getEntriesInRange keeps the order of the report. */
  lemma {:induction false} EntriesInRangeOrdered(es: seq<Entry>, start: Date, end: Date)
    ensures IsSubsequence(EntriesInRange(es, start, end), es)
  {
    if es != [] {
      var init := es[..|es| - 1];
      EntriesInRangeOrdered(init, start, end);
      var r := EntriesInRange(es, start, end);
      var p := EntriesInRange(init, start, end);
      if InRange(es[|es| - 1], start, end) {
        assert r[..|r| - 1] == p;
      } else if r != [] {
        assert r == p;
      }
    }
  }

  /** A report in which every entry is in range yields all of it. */
  lemma {:induction false} EntriesInRangeAll(es: seq<Entry>, start: Date, end: Date)
    requires forall i :: 0 <= i < |es| ==> InRange(es[i], start, end)
    ensures EntriesInRange(es, start, end) == es
  {
    if es != [] {
      var init := es[..|es| - 1];
      assert forall i :: 0 <= i < |init| ==> init[i] == es[i];
      EntriesInRangeAll(init, start, end);
      assert es == init + [es[|es| - 1]];
    }
  }

  /** A report in which no entry is in range yields nothing. */
  lemma {:induction false} EntriesInRangeNone(es: seq<Entry>, start: Date, end: Date)
    requires forall i :: 0 <= i < |es| ==> !InRange(es[i], start, end)
    ensures EntriesInRange(es, start, end) == []
  {
    if es != [] {
      var init := es[..|es| - 1];
      assert forall i :: 0 <= i < |init| ==> init[i] == es[i];
      EntriesInRangeNone(init, start, end);
    }
  }

  /** Closing the gap at position i removes exactly one copy of s[i]. */
  lemma RemoveAt<T>(s: seq<T>, i: nat)
    requires i < |s|
    ensures |s[..i] + s[i + 1..]| == |s| - 1
    ensures multiset(s[..i] + s[i + 1..]) == multiset(s) - multiset{s[i]}
  {
    assert s == s[..i] + [s[i]] + s[i + 1..];
  }

  class Report {
    var entries: seq<Entry>

    /** A new report holds no entries. */
    constructor ()
      ensures entries == []
    {
      entries := [];
    }

    /** addEntry: appends e. */
    method AddEntry(e: Entry)
      modifies this
      ensures entries == old(entries) + [e]
    {
      entries := entries + [e];
    }

    /**
     * deleteEntry: List.remove(Object) takes out the first element identical to e and
     * closes the gap; when e is absent nothing changes.
     */
    method DeleteEntry(e: Entry)
      modifies this
      ensures e !in old(entries) ==> entries == old(entries)
      ensures e in old(entries) ==>
        var i := IndexOf(old(entries), e);
        old(entries)[i] == e && e !in old(entries)[..i] &&
        entries == old(entries)[..i] + old(entries)[i + 1..]
      ensures e in old(entries) ==>
        |entries| == |old(entries)| - 1 && multiset(entries) == multiset(old(entries)) - multiset{e}
    {
      var i := IndexOf(entries, e);
      if i >= 0 {
        RemoveAt(entries, i);
        entries := entries[..i] + entries[i + 1..];
      }
    }

    /** size: the number of entries. */
    method Size() returns (n: int)
      ensures n == |entries|
    {
      n := |entries|;
    }

    /** contains: whether this very entry object is in the report. */
    method Contains(e: Entry) returns (b: bool)
      ensures b <==> e in entries
      ensures b <==> IndexOf(entries, e) >= 0
    {
      b := e in entries;
    }

    /** getEntriesInRange: the entries dated from start to end inclusive, in report order. */
    method GetEntriesInRange(start: Date, end: Date) returns (r: seq<Entry>)
      ensures r == EntriesInRange(entries, start, end)
      ensures forall e :: e in r <==> e in entries && AtOrBefore(start, e.date) && AtOrBefore(e.date, end)
    {
      r := [];
      for i := 0 to |entries|
        invariant r == EntriesInRange(entries[..i], start, end)
      {
        var e := entries[i];
        assert entries[..i + 1][..i] == entries[..i];
        if !(Before(e.date, start) || Before(end, e.date)) {
          r := r + [e];
        }
      }
      assert entries[..|entries|] == entries;
      EntriesInRangeMembers(entries, start, end);
    }

    /** getAllEntries: the entries in insertion order. */
    method GetAllEntries() returns (es: seq<Entry>)
      ensures es == entries
    {
      es := entries;
    }

    /** sum: the total of the amounts, 0 for an empty report and never negative. */
    method Sum() returns (result: real)
      ensures result == TotalAmount(entries)
      ensures result >= 0.0
    {
      result := 0.0;
      for i := 0 to |entries|
        invariant result == TotalAmount(entries[..i])
      {
        assert entries[..i + 1][..i] == entries[..i];
        result := result + entries[i].amount;
      }
      assert entries[..|entries|] == entries;
    }

    /** isEmpty: whether the report has no entries. */
    method IsEmpty() returns (b: bool)
      ensures b <==> |entries| == 0
    {
      b := |entries| == 0;
    }
  }
}
