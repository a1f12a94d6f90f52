/** Which records a resource listing pages through, crates/mcp/src/resource.rs: those of servers the
    host shows, in a stable order by server and URI. */
module Listing {
  import opened Wrappers
  import opened PageReader
  import opened Pagination

  /** A resource or template with its serialized JSON. */
  datatype Record = Record(server: string, uri: string, text: string)

  /** Lexicographic order of byte strings. */
  predicate Before(a: string, b: string) {
    a == "" || (b != "" && (a[0] < b[0] || (a[0] == b[0] && Before(a[1..], b[1..]))))
  }

  predicate InOrder(x: Record, y: Record) {
    if x.server == y.server then Before(x.uri, y.uri) else Before(x.server, y.server)
  }

  predicate SameKey(x: Record, y: Record) {
    x.server == y.server && x.uri == y.uri
  }

  predicate IsListed(record: Record, filter: Option<string>, shown: string -> bool) {
    (filter.None? || filter.value == record.server) && shown(record.server)
  }

  function Filtered(records: seq<Record>, keep: Record -> bool): seq<Record> {
    if records == [] then []
    else
      var front, last := Filtered(records[..|records| - 1], keep), records[|records| - 1];
      if keep(last) then front + [last] else front
  }

  /** After every record that is not greater. */
  function Insert(sorted: seq<Record>, record: Record): seq<Record> {
    if sorted == [] then [record]
    else
      var last := sorted[|sorted| - 1];
      if InOrder(last, record) then sorted + [record] else Insert(sorted[..|sorted| - 1], record) + [last]
  }

  function Sort(records: seq<Record>): seq<Record> {
    if records == [] then [] else Insert(Sort(records[..|records| - 1]), records[|records| - 1])
  }

  lemma {:induction false} BeforeTotal(a: string, b: string)
    ensures Before(a, b) || Before(b, a)
    ensures Before(a, b) && Before(b, a) ==> a == b
  {
    if a != "" && b != "" {
      BeforeTotal(a[1..], b[1..]);
      assert a == [a[0]] + a[1..] && b == [b[0]] + b[1..];
    }
  }

  lemma {:induction false} BeforeTransitive(a: string, b: string, c: string)
    requires Before(a, b) && Before(b, c)
    ensures Before(a, c)
  {
    if a != "" && b != "" && c != "" && a[0] == b[0] == c[0] {
      BeforeTransitive(a[1..], b[1..], c[1..]);
    }
  }

  lemma InOrderTotal(x: Record, y: Record)
    ensures InOrder(x, y) || InOrder(y, x)
    ensures InOrder(x, y) && InOrder(y, x) ==> SameKey(x, y)
    ensures SameKey(x, y) ==> InOrder(x, y)
  {
    BeforeTotal(x.server, y.server);
    BeforeTotal(x.uri, y.uri);
    BeforeTotal(x.uri, x.uri);
  }

  lemma InOrderTransitive(x: Record, y: Record, z: Record)
    requires InOrder(x, y) && InOrder(y, z)
    ensures InOrder(x, z)
  {
    if x.server == y.server == z.server {
      BeforeTransitive(x.uri, y.uri, z.uri);
    } else if x.server != y.server && y.server != z.server {
      BeforeTransitive(x.server, y.server, z.server);
      BeforeTotal(x.server, y.server);
    }
  }

  ghost predicate Ordered(records: seq<Record>) {
    forall i, k :: 0 <= i < k < |records| ==> InOrder(records[i], records[k])
  }

  lemma {:induction false} InsertMembers(sorted: seq<Record>, record: Record)
    ensures multiset(Insert(sorted, record)) == multiset(sorted) + multiset{record}
    ensures forall x :: x in Insert(sorted, record) <==> x in sorted || x == record
  {
    if sorted != [] {
      var front, last := sorted[..|sorted| - 1], sorted[|sorted| - 1];
      assert sorted == front + [last];
      InsertMembers(front, record);
    }
  }

  lemma {:induction false} InsertOrders(sorted: seq<Record>, record: Record)
    requires Ordered(sorted)
    ensures Ordered(Insert(sorted, record))
  {
    if sorted != [] {
      var front, last := sorted[..|sorted| - 1], sorted[|sorted| - 1];
      InOrderTotal(last, record);
      if InOrder(last, record) {
        forall i | 0 <= i < |sorted|
          ensures InOrder(sorted[i], record)
        {
          if i < |front| {
            InOrderTransitive(sorted[i], last, record);
          }
        }
      } else {
        InsertOrders(front, record);
        InsertMembers(front, record);
        var inserted := Insert(front, record);
        forall i | 0 <= i < |inserted|
          ensures InOrder(inserted[i], last)
        {
          assert inserted[i] in inserted;
        }
      }
    }
  }

  /** The records that share a key with a given one. */
  function Alike(records: seq<Record>, key: Record): seq<Record> {
    Filtered(records, (x: Record) => SameKey(x, key))
  }

  lemma AlikeLast(records: seq<Record>, last: Record, key: Record)
    ensures Alike(records + [last], key) == Alike(records, key) + if SameKey(last, key) then [last] else []
  {
    assert (records + [last])[..|records|] == records;
  }

  lemma {:induction false} InsertStable(sorted: seq<Record>, record: Record, key: Record)
    ensures Alike(Insert(sorted, record), key) == Alike(sorted + [record], key)
  {
    if sorted == [] {
      assert sorted + [record] == [record];
    } else {
      var front, last := sorted[..|sorted| - 1], sorted[|sorted| - 1];
      if !InOrder(last, record) {
        InOrderTotal(last, record);
        InsertStable(front, record, key);
        AlikeLast(Insert(front, record), last, key);
        AlikeLast(front, record, key);
        AlikeLast(sorted, record, key);
        AlikeLast(front, last, key);
        assert front + [last] == sorted;
      }
    }
  }

  /** Sorting orders the records, keeps exactly them, and keeps equal keys in their original order. */
  lemma {:induction false} SortIsStable(records: seq<Record>, key: Record)
    ensures Ordered(Sort(records)) && multiset(Sort(records)) == multiset(records)
    ensures Alike(Sort(records), key) == Alike(records, key)
  {
    if records != [] {
      var front, last := records[..|records| - 1], records[|records| - 1];
      SortIsStable(front, key);
      InsertOrders(Sort(front), last);
      InsertMembers(Sort(front), last);
      InsertStable(Sort(front), last, key);
      AlikeLast(Sort(front), last, key);
      AlikeLast(front, last, key);
      assert front + [last] == records;
    }
  }

  function Texts(records: seq<Record>): (r: seq<string>)
    ensures |r| == |records| && forall i :: 0 <= i < |r| ==> r[i] == records[i].text
  {
    seq(|records|, i requires 0 <= i < |records| => records[i].text)
  }

  /** The records one request pages through. */
  function Listed(records: seq<Record>, filter: Option<string>, shown: string -> bool): seq<Record> {
    Sort(Filtered(records, (x: Record) => IsListed(x, filter, shown)))
  }

  lemma {:induction false} FilteredMembers(records: seq<Record>, keep: Record -> bool, record: Record)
    ensures multiset(Filtered(records, keep))[record] == if keep(record) then multiset(records)[record] else 0
  {
    if records != [] {
      FilteredMembers(records[..|records| - 1], keep, record);
      assert records == records[..|records| - 1] + [records[|records| - 1]];
    }
  }

  lemma {:induction false} FilteredSubset(records: seq<Record>, keep: Record -> bool)
    ensures forall r :: r in Filtered(records, keep) ==> r in records
  {
    if records != [] {
      FilteredSubset(records[..|records| - 1], keep);
    }
  }

  lemma ListedAreObjects(records: seq<Record>, filter: Option<string>, shown: string -> bool)
    requires forall r :: r in records ==> IsObject(r.text)
    ensures AreObjects(Texts(Listed(records, filter, shown)))
  {
    var kept := Filtered(records, (x: Record) => IsListed(x, filter, shown));
    FilteredSubset(records, (x: Record) => IsListed(x, filter, shown));
    var listed := Sort(kept);
    forall i | 0 <= i < |listed|
      ensures IsObject(listed[i].text)
    {
      SortIsStable(kept, listed[i]);
      assert listed[i] in multiset(listed);
      assert listed[i] in kept;
    }
  }

  /** Where two byte strings part decides their order: `a` comes no later than `b`. */
  ghost predicate PartsBefore(a: string, b: string, k: int) {
    && 0 <= k <= |a| && k <= |b| && a[..k] == b[..k]
    && (k == |a| || (k < |b| && a[k] < b[k]))
  }

  lemma {:induction false} BeforeIsLexicographic(a: string, b: string)
    ensures Before(a, b) <==> exists k :: PartsBefore(a, b, k)
  {
    if a == "" {
      assert PartsBefore(a, b, 0);
    } else if b != "" {
      BeforeIsLexicographic(a[1..], b[1..]);
      if a[0] < b[0] {
        assert PartsBefore(a, b, 0);
      }
      if a[0] == b[0] && Before(a[1..], b[1..]) {
        var k :| PartsBefore(a[1..], b[1..], k);
        assert a[..k + 1] == [a[0]] + a[1..][..k] && b[..k + 1] == [b[0]] + b[1..][..k];
        assert PartsBefore(a, b, k + 1);
      }
      if k :| PartsBefore(a, b, k) {
        if k > 0 {
          assert a[..k][0] == a[0] && b[..k][0] == b[0];
          assert a[1..][..k - 1] == a[..k][1..] && b[1..][..k - 1] == b[..k][1..];
          assert PartsBefore(a[1..], b[1..], k - 1);
        }
      }
    }
  }

  /** Records are listed by server, and by URI within a server, each in the order of their bytes. */
  lemma ListedInOrder(records: seq<Record>, filter: Option<string>, shown: string -> bool, i: nat, k: nat)
    requires i < k < |Listed(records, filter, shown)|
    ensures var x, y := Listed(records, filter, shown)[i], Listed(records, filter, shown)[k];
            if x.server == y.server then exists n :: PartsBefore(x.uri, y.uri, n) else exists n :: PartsBefore(x.server, y.server, n)
  {
    var listed := Listed(records, filter, shown);
    SortIsStable(Filtered(records, (x: Record) => IsListed(x, filter, shown)), listed[i]);
    BeforeIsLexicographic(listed[i].uri, listed[k].uri);
    BeforeIsLexicographic(listed[i].server, listed[k].server);
  }

  /** A completed chain of cursors lists, in order, every record of a shown server that the filter
      admits as often as the catalog holds it, and nothing else. */
  lemma ChainListsShownRecords(ctx: Context, records: seq<Record>, shown: string -> bool, limits: nat -> Option<nat>, record: Record)
    requires var items := Texts(Listed(records, ctx.server, shown)); Pagination.Listing(ctx, items)
    requires ValidLimits(limits) && forall r :: r in records ==> IsObject(r.text)
    ensures AreObjects(Texts(Listed(records, ctx.server, shown)))
    ensures var listed := Listed(records, ctx.server, shown);
            && Ordered(listed)
            && multiset(listed)[record] == (if shown(record.server) && (ctx.server == None || ctx.server == Some(record.server))
                                            then multiset(records)[record] else 0)
            && (Walk(ctx, Texts(listed), None, limits, 0).complete ==> Walk(ctx, Texts(listed), None, limits, 0).records == Texts(listed))
  {
    var keep := (x: Record) => IsListed(x, ctx.server, shown);
    FilteredMembers(records, keep, record);
    SortIsStable(Filtered(records, keep), record);
    ListedAreObjects(records, ctx.server, shown);
    var stop := ChainCoversTheList(ctx, Texts(Listed(records, ctx.server, shown)), limits);
  }
}
