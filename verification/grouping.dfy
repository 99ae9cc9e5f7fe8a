/**
 * `df.groupby(['Ticket Number', 'Date'])['Duration'].sum()` in `process_data`.
 * pandas drops rows whose key holds NaN and sorts the groups by key.
 */
module Grouping {
  import opened Options
  import opened StringOrder

  /** One row after `load_data`: extracted ticket (or NaN), raw `Start date`, duration. */
  datatype Entry = Entry(ticket: Option<string>, date: string, seconds: nat)

  /** The group key `(Ticket Number, Date)`. */
  datatype Key = Key(ticket: string, date: string)

  /** One row of the grouped frame: its key and the summed duration. */
  datatype Group = Group(key: Key, total: nat)

  /** Tuple order on keys, as pandas sorts them. */
  predicate KeyLess(x: Key, y: Key)
  {
    LexLess(x.ticket, y.ticket) || (x.ticket == y.ticket && LexLess(x.date, y.date))
  }

  predicate HasKey(e: Entry, k: Key)
  {
    e.ticket == Some(k.ticket) && e.date == k.date
  }

  /** Keys in strictly ascending order (hence pairwise distinct). */
  predicate Sorted(gs: seq<Group>)
  {
    forall i, j :: 0 <= i < j < |gs| ==> KeyLess(gs[i].key, gs[j].key)
  }

  function GroupKeys(gs: seq<Group>): set<Key>
  {
    set i | 0 <= i < |gs| :: gs[i].key
  }

  /** The distinct keys among the entries that have a ticket. */
  function EntryKeys(entries: seq<Entry>): set<Key>
  {
    set j | 0 <= j < |entries| && entries[j].ticket.Some? :: Key(entries[j].ticket.value, entries[j].date)
  }

  /** The key an entry is grouped under; none when its ticket is NaN. */
  function OwnKey(e: Entry): set<Key>
  {
    if e.ticket.Some? then {Key(e.ticket.value, e.date)} else {}
  }

  /** Sum of the durations of the entries with key `k`. */
  function SumFor(entries: seq<Entry>, k: Key): nat
  {
    if |entries| == 0 then 0
    else (if HasKey(entries[0], k) then entries[0].seconds else 0) + SumFor(entries[1..], k)
  }

  /** Sum of the durations of every entry that has a ticket. */
  function TicketedTotal(entries: seq<Entry>): nat
  {
    if |entries| == 0 then 0
    else (if entries[0].ticket.Some? then entries[0].seconds else 0) + TicketedTotal(entries[1..])
  }

  function SumTotals(gs: seq<Group>): nat
  {
    if |gs| == 0 then 0 else gs[0].total + SumTotals(gs[1..])
  }

  /** The total recorded under `k`, or 0 when no group has that key. */
  function Lookup(gs: seq<Group>, k: Key): nat
  {
    if |gs| == 0 then 0 else if gs[0].key == k then gs[0].total else Lookup(gs[1..], k)
  }

  lemma KeyIrreflexive(x: Key)
    ensures !KeyLess(x, x)
  {
    LexIrreflexive(x.ticket);
    LexIrreflexive(x.date);
  }

  lemma KeyTransitive(x: Key, y: Key, z: Key)
    requires KeyLess(x, y) && KeyLess(y, z)
    ensures KeyLess(x, z)
  {
    if LexLess(x.ticket, y.ticket) && LexLess(y.ticket, z.ticket) {
      LexTransitive(x.ticket, y.ticket, z.ticket);
    } else if x.ticket == y.ticket && y.ticket == z.ticket {
      LexTransitive(x.date, y.date, z.date);
    }
  }

  lemma KeyTotal(x: Key, y: Key)
    requires x != y
    ensures KeyLess(x, y) || KeyLess(y, x)
  {
    if x.ticket != y.ticket {
      LexTotal(x.ticket, y.ticket);
    } else {
      LexTotal(x.date, y.date);
    }
  }

  lemma {:induction false} LookupAbsent(gs: seq<Group>, k: Key)
    requires k !in GroupKeys(gs)
    ensures Lookup(gs, k) == 0
  {
    if |gs| > 0 {
      assert GroupKeys(gs[1..]) <= GroupKeys(gs) by {
        forall x | x in GroupKeys(gs[1..]) ensures x in GroupKeys(gs) {
          var i :| 0 <= i < |gs[1..]| && gs[1..][i].key == x;
          assert gs[i + 1].key == x;
        }
      }
      assert gs[0].key in GroupKeys(gs);
      LookupAbsent(gs[1..], k);
    }
  }

  lemma GroupKeysCons(g: Group, gs: seq<Group>)
    ensures GroupKeys([g] + gs) == {g.key} + GroupKeys(gs)
  {
    var r := [g] + gs;
    forall x ensures x in GroupKeys(r) <==> x in {g.key} + GroupKeys(gs) {
      if x in GroupKeys(r) {
        var i :| 0 <= i < |r| && r[i].key == x;
        if i > 0 { assert gs[i - 1].key == x; }
      }
      if x in GroupKeys(gs) {
        var i :| 0 <= i < |gs| && gs[i].key == x;
        assert r[i + 1].key == x;
      }
      assert r[0].key == g.key;
    }
  }

  /** A sorted list stays sorted under a new head below all its keys. */
  lemma SortedCons(g: Group, gs: seq<Group>)
    requires Sorted(gs)
    requires forall x :: x in GroupKeys(gs) ==> KeyLess(g.key, x)
    ensures Sorted([g] + gs)
  {
    var r := [g] + gs;
    forall i, j | 0 <= i < j < |r| ensures KeyLess(r[i].key, r[j].key) {
      assert r[j] == gs[j - 1];
      if i > 0 {
        assert r[i] == gs[i - 1];
      } else {
        assert gs[j - 1].key in GroupKeys(gs);
      }
    }
  }

  /** The head of a sorted list is below every key of its tail. */
  lemma SortedHead(gs: seq<Group>)
    requires Sorted(gs) && |gs| > 0
    ensures Sorted(gs[1..])
    ensures forall x :: x in GroupKeys(gs[1..]) ==> KeyLess(gs[0].key, x)
    ensures gs[0].key !in GroupKeys(gs[1..])
  {
    forall x | x in GroupKeys(gs[1..]) ensures KeyLess(gs[0].key, x) {
      var i :| 0 <= i < |gs[1..]| && gs[1..][i].key == x;
      assert gs[i + 1].key == x;
    }
    KeyIrreflexive(gs[0].key);
  }

  /** Adds `seconds` to the group keyed `k`, opening it in key order when absent. */
  function Insert(gs: seq<Group>, k: Key, seconds: nat): (r: seq<Group>)
    requires Sorted(gs)
    ensures Sorted(r)
    ensures GroupKeys(r) == GroupKeys(gs) + {k}
    ensures forall k' :: Lookup(r, k') == Lookup(gs, k') + (if k' == k then seconds else 0)
    ensures SumTotals(r) == SumTotals(gs) + seconds
  {
    if |gs| == 0 then
      assert GroupKeys([Group(k, seconds)]) == {k} by { GroupKeysCons(Group(k, seconds), []); }
      [Group(k, seconds)]
    else
      var g, tail := gs[0], gs[1..];
      assert gs == [g] + tail;
      SortedHead(gs);
      GroupKeysCons(g, tail);
      if g.key == k then
        var h := Group(k, g.total + seconds);
        GroupKeysCons(h, tail);
        SortedCons(h, tail);
        assert ([h] + tail)[1..] == tail;
        [h] + tail
      else if KeyLess(k, g.key) then
        var h := Group(k, seconds);
        forall x | x in GroupKeys(gs) ensures KeyLess(k, x) {
          if x != g.key { KeyTransitive(k, g.key, x); }
        }
        KeyIrreflexive(k);
        LookupAbsent(gs, k);
        GroupKeysCons(h, gs);
        SortedCons(h, gs);
        assert ([h] + gs)[1..] == gs;
        [h] + gs
      else
        KeyTotal(k, g.key);
        var rest := Insert(tail, k, seconds);
        GroupKeysCons(g, rest);
        SortedCons(g, rest);
        assert ([g] + rest)[1..] == rest;
        [g] + rest
  }

  lemma EntryKeysCons(entries: seq<Entry>)
    requires |entries| > 0
    ensures EntryKeys(entries) == OwnKey(entries[0]) + EntryKeys(entries[1..])
  {
    var tail := entries[1..];
    forall x ensures x in EntryKeys(entries) <==> x in OwnKey(entries[0]) + EntryKeys(tail) {
      if x in EntryKeys(entries) {
        var j :| 0 <= j < |entries| && entries[j].ticket.Some?
                 && x == Key(entries[j].ticket.value, entries[j].date);
        if j > 0 { assert tail[j - 1] == entries[j]; }
      }
      if x in EntryKeys(tail) {
        var j :| 0 <= j < |tail| && tail[j].ticket.Some?
                 && x == Key(tail[j].ticket.value, tail[j].date);
        assert entries[j + 1] == tail[j];
      }
    }
  }

  /**
   * The grouped frame: one group per distinct key among the ticketed
   * entries, in ascending key order, holding the sum of that key's durations.
   */
  function GroupAndSum(entries: seq<Entry>): (r: seq<Group>)
    ensures Sorted(r)
    ensures GroupKeys(r) == EntryKeys(entries)
    ensures forall k :: Lookup(r, k) == SumFor(entries, k)
    ensures SumTotals(r) == TicketedTotal(entries)
  {
    if |entries| == 0 then []
    else
      var e := entries[0];
      var rest := GroupAndSum(entries[1..]);
      EntryKeysCons(entries);
      match e.ticket
      case None => rest
      case Some(t) => Insert(rest, Key(t, e.date), e.seconds)
  }

  /** In a sorted list the lookup of a present key finds that very group. */
  lemma {:induction false} LookupSorted(gs: seq<Group>, i: nat)
    requires Sorted(gs) && i < |gs|
    ensures Lookup(gs, gs[i].key) == gs[i].total
  {
    if i > 0 {
      KeyIrreflexive(gs[0].key);
      assert gs[1..][i - 1] == gs[i];
      LookupSorted(gs[1..], i - 1);
    }
  }

  /**
   * Grouping yields exactly one group per distinct `(ticket, date)` pair of
   * the ticketed entries, in strictly ascending key order, each holding the
   * sum of its entries' durations; the groups together hold every ticketed
   * second and nothing else.
   */
  lemma GroupAndSumCorrect(entries: seq<Entry>)
    ensures var r := GroupAndSum(entries);
      && (forall i, j :: 0 <= i < j < |r| ==> KeyLess(r[i].key, r[j].key) && r[i].key != r[j].key)
      && (forall i :: 0 <= i < |r| ==> r[i].total == SumFor(entries, r[i].key))
      && (forall k :: k in GroupKeys(r) <==> exists j :: 0 <= j < |entries| && HasKey(entries[j], k))
      && SumTotals(r) == TicketedTotal(entries)
  {
    var r := GroupAndSum(entries);
    forall i, j | 0 <= i < j < |r| ensures r[i].key != r[j].key {
      KeyIrreflexive(r[i].key);
    }
    forall i | 0 <= i < |r| ensures r[i].total == SumFor(entries, r[i].key) {
      LookupSorted(r, i);
    }
    forall k ensures k in GroupKeys(r) <==> exists j :: 0 <= j < |entries| && HasKey(entries[j], k) {
      if k in EntryKeys(entries) {
        var j :| 0 <= j < |entries| && entries[j].ticket.Some?
                 && k == Key(entries[j].ticket.value, entries[j].date);
        assert HasKey(entries[j], k);
      }
      if exists j :: 0 <= j < |entries| && HasKey(entries[j], k) {
        var j :| 0 <= j < |entries| && HasKey(entries[j], k);
        assert k == Key(entries[j].ticket.value, entries[j].date);
      }
    }
  }

  /** Two rows of one ticket and day merge; the other ticket sorts after them. */
  lemma GroupAndSumExample()
    ensures GroupAndSum([Entry(Some("ABC-123"), "2024-01-01", 600),
                         Entry(Some("ABC-123"), "2024-01-01", 1200),
                         Entry(Some("XYZ-9"), "2024-01-01", 300)])
         == [Group(Key("ABC-123", "2024-01-01"), 1800), Group(Key("XYZ-9", "2024-01-01"), 300)]
  {
    var abc, xyz := Key("ABC-123", "2024-01-01"), Key("XYZ-9", "2024-01-01");
    var e1, e2, e3 := Entry(Some("ABC-123"), "2024-01-01", 600),
                      Entry(Some("ABC-123"), "2024-01-01", 1200),
                      Entry(Some("XYZ-9"), "2024-01-01", 300);
    var entries := [e1, e2, e3];
    assert entries[1..] == [e2, e3] && entries[1..][1..] == [e3] && [e3][1..] == [];
    var g3 := GroupAndSum([e3]);
    assert g3 == Insert([], xyz, 300) == [Group(xyz, 300)];
    assert LexLess("ABC-123", "XYZ-9");
    assert abc != xyz && KeyLess(abc, xyz);
    var g2 := GroupAndSum([e2, e3]);
    assert g2 == Insert(g3, abc, 1200) == [Group(abc, 1200), Group(xyz, 300)];
    assert GroupAndSum(entries) == Insert(g2, abc, 600);
  }
}
