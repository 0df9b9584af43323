/** The partitioner: `groupby([field, 'month_year'])` over the fetched records,
    where `month_year` is a timestamp field formatted `%Y_%m`. */
module Partition {
  import opened Values
  import opened Naming

  /** The grouping field (`cardUsed`, `employeeName` or `project`) and the
      timestamp field whose `%Y_%m` form is the period. */
  datatype Grouping = Grouping(field: string, clock: string)

  /** What one ledger is kept for: the grouping field's value (card, employee
      or project) and the period string. */
  datatype LedgerKey = LedgerKey(group: Cell, period: string)

  /** The group a record falls into. None when the grouping field or the
      timestamp is null: pandas leaves such rows out of every group. */
  function KeyOf(g: Grouping, r: Record): Option<LedgerKey>
  {
    if Field(r, g.field) != Null && StampOf(r, g.clock).Some? then
      Some(LedgerKey(Field(r, g.field), PeriodKey(StampOf(r, g.clock).value)))
    else None
  }

  /** The distinct keys of `rs`, in order of first appearance. */
  function Keys(g: Grouping, rs: seq<Record>): (ks: seq<LedgerKey>)
    ensures forall i, j :: 0 <= i < j < |ks| ==> ks[i] != ks[j]
    ensures forall k :: k in ks <==> exists i :: 0 <= i < |rs| && KeyOf(g, rs[i]) == Some(k)
    decreases |rs|
  {
    if rs == [] then []
    else
      var init := rs[..|rs| - 1];
      var ks := Keys(g, init);
      assert forall i :: 0 <= i < |init| ==> init[i] == rs[i];
      match KeyOf(g, rs[|rs| - 1])
      case Some(k) => if k in ks then ks else ks + [k]
      case None => ks
  }

  /** The records of group `k`, in source order. */
  function Group(g: Grouping, rs: seq<Record>, k: LedgerKey): (grp: seq<Record>)
    ensures |grp| <= |rs|
    ensures forall x :: x in grp <==> x in rs && KeyOf(g, x) == Some(k)
  {
    if rs == [] then []
    else (if KeyOf(g, rs[0]) == Some(k) then [rs[0]] else []) + Group(g, rs[1..], k)
  }

  /** Grouping is stable: the group of a concatenation is the concatenation of the groups. */
  lemma {:induction false} GroupAppend(g: Grouping, rs1: seq<Record>, rs2: seq<Record>, k: LedgerKey)
    ensures Group(g, rs1 + rs2, k) == Group(g, rs1, k) + Group(g, rs2, k)
  {
    if rs1 != [] {
      assert (rs1 + rs2)[0] == rs1[0];
      assert (rs1 + rs2)[1..] == rs1[1..] + rs2;
      GroupAppend(g, rs1[1..], rs2, k);
      var h := if KeyOf(g, rs1[0]) == Some(k) then [rs1[0]] else [];
      assert Group(g, rs1 + rs2, k) == h + Group(g, rs1[1..] + rs2, k);
      assert Group(g, rs1, k) == h + Group(g, rs1[1..], k);
      assert h + (Group(g, rs1[1..], k) + Group(g, rs2, k))
          == (h + Group(g, rs1[1..], k)) + Group(g, rs2, k);
    } else {
      assert rs1 + rs2 == rs2;
    }
  }

  /** A record occurs in its own group as often as in the input, and in no other group. */
  lemma {:induction false} GroupCount(g: Grouping, rs: seq<Record>, k: LedgerKey, x: Record)
    ensures multiset(Group(g, rs, k))[x] == if KeyOf(g, x) == Some(k) then multiset(rs)[x] else 0
  {
    if rs != [] {
      GroupCount(g, rs[1..], k, x);
      assert rs == [rs[0]] + rs[1..];
    }
  }

  /** Partition stability: reordering the records changes neither the set of
      keys nor the records of any group. */
  lemma PartitionIgnoresOrder(g: Grouping, rs1: seq<Record>, rs2: seq<Record>)
    requires multiset(rs1) == multiset(rs2)
    ensures forall k :: k in Keys(g, rs1) <==> k in Keys(g, rs2)
    ensures forall k :: multiset(Group(g, rs1, k)) == multiset(Group(g, rs2, k))
  {
    forall k ensures k in Keys(g, rs1) ==> k in Keys(g, rs2) {
      KeyMoves(g, rs1, rs2, k);
    }
    forall k ensures k in Keys(g, rs2) ==> k in Keys(g, rs1) {
      KeyMoves(g, rs2, rs1, k);
    }
    forall k ensures multiset(Group(g, rs1, k)) == multiset(Group(g, rs2, k)) {
      forall x ensures multiset(Group(g, rs1, k))[x] == multiset(Group(g, rs2, k))[x] {
        GroupCount(g, rs1, k, x);
        GroupCount(g, rs2, k, x);
      }
    }
  }

  lemma KeyMoves(g: Grouping, rs1: seq<Record>, rs2: seq<Record>, k: LedgerKey)
    requires multiset(rs1) == multiset(rs2)
    ensures k in Keys(g, rs1) ==> k in Keys(g, rs2)
  {
    if k in Keys(g, rs1) {
      var i :| 0 <= i < |rs1| && KeyOf(g, rs1[i]) == Some(k);
      assert rs1[i] in multiset(rs2);
      var j :| 0 <= j < |rs2| && rs2[j] == rs1[i];
    }
  }

  /** The groups of the keys `ks`, one after another. */
  function Concat(g: Grouping, rs: seq<Record>, ks: seq<LedgerKey>): seq<Record>
  {
    if ks == [] then [] else Group(g, rs, ks[0]) + Concat(g, rs, ks[1..])
  }

  lemma {:induction false} ConcatCount(g: Grouping, rs: seq<Record>, ks: seq<LedgerKey>, x: Record)
    requires forall i, j :: 0 <= i < j < |ks| ==> ks[i] != ks[j]
    ensures multiset(Concat(g, rs, ks))[x]
         == if KeyOf(g, x).Some? && KeyOf(g, x).value in ks then multiset(rs)[x] else 0
  {
    if ks != [] {
      ConcatCount(g, rs, ks[1..], x);
      GroupCount(g, rs, ks[0], x);
      assert ks == [ks[0]] + ks[1..];
    }
  }

  /** The groups together hold every keyed record exactly as often as the
      input does, and no record whose key is null. */
  lemma GroupsCoverRecords(g: Grouping, rs: seq<Record>)
    ensures forall x :: multiset(Concat(g, rs, Keys(g, rs)))[x]
                     == if KeyOf(g, x).Some? then multiset(rs)[x] else 0
  {
    var ks := Keys(g, rs);
    forall x
      ensures multiset(Concat(g, rs, ks))[x] == if KeyOf(g, x).Some? then multiset(rs)[x] else 0
    {
      ConcatCount(g, rs, ks, x);
      if KeyOf(g, x).Some? && x in rs {
        var i :| 0 <= i < |rs| && rs[i] == x;
        assert KeyOf(g, rs[i]) == KeyOf(g, x);
      }
    }
  }

  /** Every key names a non-empty group. */
  lemma GroupOfKey(g: Grouping, rs: seq<Record>, k: LedgerKey)
    requires k in Keys(g, rs)
    ensures Group(g, rs, k) != []
  {
    var i :| 0 <= i < |rs| && KeyOf(g, rs[i]) == Some(k);
    assert rs[i] in Group(g, rs, k);
  }
}
