/** The revision chain of a production: a walk along the latest revision pointers that survives cycles. */
module Lineage {
  import opened Optional

  type Id = string

  datatype Record = Record(id: Id, firm: string, production: Id, sourceRefs: seq<string>, actor: string,
                           revisedFrom: Option<Id>)

  datatype Key = Key(firm: string, production: Id)

  type Records = map<Key, seq<Record>>

  datatype Explanation = Explanation(production: Id, origins: seq<Record>, chain: seq<Id>)

  function RecordsOf(records: Records, firm: string, id: Id): seq<Record> {
    if Key(firm, id) in records then records[Key(firm, id)] else []
  }

  /** What a production was last said to be a revision of. */
  function Parent(records: Records, firm: string, id: Id): Option<Id> {
    var all := RecordsOf(records, firm, id);
    if all == [] then None else all[|all| - 1].revisedFrom
  }

  class LineageStore {
    var records: Records

    constructor ()
      ensures records == map[]
    {
      records := map[];
    }

    /** A new record becomes the latest of its production and concerns no other. */
    method Add(record: Record)
      modifies this
      ensures RecordsOf(records, record.firm, record.production)
              == RecordsOf(old(records), record.firm, record.production) + [record]
      ensures Parent(records, record.firm, record.production) == record.revisedFrom
      ensures forall f, id :: (f, id) != (record.firm, record.production) ==>
                RecordsOf(records, f, id) == RecordsOf(old(records), f, id)
    {
      var key := Key(record.firm, record.production);
      if key !in records {
        records := records[key := []];
      }
      records := records[key := records[key] + [record]];
    }

    method ListForProduction(firm: string, id: Id) returns (found: seq<Record>)
      ensures found == RecordsOf(records, firm, id)
    {
      found := if Key(firm, id) in records then records[Key(firm, id)] else [];
    }

    method GetLatest(firm: string, id: Id) returns (latest: Option<Record>)
      ensures latest.None? <==> RecordsOf(records, firm, id) == []
      ensures latest.Some? ==> latest.value == RecordsOf(records, firm, id)[|RecordsOf(records, firm, id)| - 1]
      ensures Parent(records, firm, id) == if latest.Some? then latest.value.revisedFrom else None
    {
      var found := ListForProduction(firm, id);
      latest := if found == [] then None else Some(found[|found| - 1]);
    }
  }

  // ---------- the chain ----------

  ghost predicate NoRepeats(chain: seq<Id>) {
    forall i, j :: 0 <= i < j < |chain| ==> chain[i] != chain[j]
  }

  /** Each link is the latest revision pointer of its successor. */
  ghost predicate Linked(records: Records, firm: string, chain: seq<Id>) {
    forall i :: 0 <= i < |chain| - 1 ==> Parent(records, firm, chain[i + 1]) == Some(chain[i])
  }

  /** The chain cannot be extended: its first production revises nothing, or one of the chain. */
  ghost predicate Exhausted(records: Records, firm: string, chain: seq<Id>) {
    chain != [] && (var p := Parent(records, firm, chain[0]); p == None || p.value in chain)
  }

  function Reversed(s: seq<Id>): seq<Id> {
    if s == [] then [] else Reversed(s[1..]) + [s[0]]
  }

  lemma {:induction false} ReversedAt(s: seq<Id>)
    ensures |Reversed(s)| == |s| && forall i :: 0 <= i < |s| ==> Reversed(s)[i] == s[|s| - 1 - i]
  {
    if s != [] { ReversedAt(s[1..]); }
  }

  /** The walk so far, from `id` backwards, and where it goes next. */
  ghost predicate Walked(records: Records, firm: string, id: Id, chain: seq<Id>, next: Option<Id>) {
    && NoRepeats(chain)
    && (if chain == [] then next == Some(id) else chain[0] == id && next == Parent(records, firm, chain[|chain| - 1]))
    && forall i :: 0 <= i < |chain| - 1 ==> Parent(records, firm, chain[i]) == Some(chain[i + 1])
  }

  lemma {:induction false} WalkStarts(records: Records, firm: string, id: Id)
    ensures Walked(records, firm, id, [], Some(id))
  {
  }

  lemma {:induction false} WalkOn(records: Records, firm: string, id: Id, chain: seq<Id>, here: Id)
    requires Walked(records, firm, id, chain, Some(here)) && here !in chain
    ensures Walked(records, firm, id, chain + [here], Parent(records, firm, here))
  {
    hide Parent;
  }

  lemma {:induction false} WalkReversed(records: Records, firm: string, id: Id, chain: seq<Id>, next: Option<Id>)
    requires Walked(records, firm, id, chain, next) && (next.Some? ==> next.value in chain)
    ensures var r := Reversed(chain);
            && NoRepeats(r) && Linked(records, firm, r) && Exhausted(records, firm, r) && r[|r| - 1] == id
  {
    hide Parent, Reversed;
    ReversedAt(chain);
    var r := Reversed(chain);
    forall i | 0 <= i < |r| - 1 ensures Parent(records, firm, r[i + 1]) == Some(r[i]) {
      var j := |chain| - 2 - i;
      assert r[i + 1] == chain[j] && r[i] == chain[j + 1];
    }
    if next.Some? {
      var k :| 0 <= k < |chain| && chain[k] == next.value;
      assert r[|chain| - 1 - k] == next.value;
    }
  }

  class LineageEngine {
    const store: LineageStore

    constructor (store: LineageStore)
      ensures this.store == store
    {
      this.store := store;
    }

    /** `newId` stands for the random identifier of the record. */
    method RecordOrigin(newId: Id, firm: string, id: Id, sourceRefs: seq<string>, actor: string,
                        revisedFrom: Option<Id>)
      returns (record: Record)
      modifies store
      ensures record == Record(newId, firm, id, sourceRefs, actor, revisedFrom)
      ensures RecordsOf(store.records, firm, id) == RecordsOf(old(store.records), firm, id) + [record]
      ensures Parent(store.records, firm, id) == revisedFrom
      ensures forall f, i :: (f, i) != (firm, id) ==> Parent(store.records, f, i) == Parent(old(store.records), f, i)
    {
      record := Record(newId, firm, id, sourceRefs, actor, revisedFrom);
      store.Add(record);
    }

    /** The walk ends on every store, cyclic ones included. */
    method Explain(firm: string, id: Id) returns (e: Explanation)
      ensures e.production == id && e.origins == RecordsOf(store.records, firm, id)
      ensures NoRepeats(e.chain) && Linked(store.records, firm, e.chain) && Exhausted(store.records, firm, e.chain)
      ensures e.chain[|e.chain| - 1] == id
    {
      hide Walked, NoRepeats, Linked, Exhausted, Reversed;
      var origins := store.ListForProduction(firm, id);
      var chain: seq<Id>, visited: set<Id>, current := [], {}, Some(id);
      WalkStarts(store.records, firm, id);
      ghost var recorded := set k | k in store.records && k.firm == firm :: k.production;
      while current.Some? && current.value !in visited
        invariant forall x :: x in visited <==> x in chain
        invariant Walked(store.records, firm, id, chain, current)
        decreases recorded - visited, current.Some?
      {
        var here := current.value;
        WalkOn(store.records, firm, id, chain, here);
        visited := visited + {here};
        chain := chain + [here];
        var latest := store.GetLatest(firm, here);
        current := if latest.Some? then latest.value.revisedFrom else None;
        if latest.Some? {
          assert Key(firm, here) in store.records;
          assert here in recorded;
        }
      }
      WalkReversed(store.records, firm, id, chain, current);
      e := Explanation(id, origins, Reversed(chain));
    }
  }

  // ---------- acyclic stores ----------

  /** Revisions always lead to productions of lower rank: nothing revises itself, however indirectly. */
  ghost predicate Acyclic(records: Records, firm: string, rank: Id -> nat) {
    forall id :: Parent(records, firm, id).Some? ==> rank(Parent(records, firm, id).value) < rank(id)
  }

  /** All ancestors of a production, from the root on, and the production itself. */
  ghost function Ancestry(records: Records, firm: string, rank: Id -> nat, id: Id): seq<Id>
    requires Acyclic(records, firm, rank)
    decreases rank(id)
  {
    var p := Parent(records, firm, id);
    if p.None? then [id] else Ancestry(records, firm, rank, p.value) + [id]
  }

  lemma {:induction false} RanksRise(records: Records, firm: string, rank: Id -> nat, chain: seq<Id>, i: nat)
    requires Acyclic(records, firm, rank) && Linked(records, firm, chain) && i < |chain|
    ensures rank(chain[0]) <= rank(chain[i])
  {
    if i > 0 {
      RanksRise(records, firm, rank, chain, i - 1);
      assert Parent(records, firm, chain[i - 1 + 1]) == Some(chain[i - 1]);
    }
  }

  lemma {:induction false} ChainPrefixIsAncestry(records: Records, firm: string, rank: Id -> nat, chain: seq<Id>,
                                                 n: nat)
    requires Acyclic(records, firm, rank) && Linked(records, firm, chain) && 1 <= n <= |chain|
    requires Parent(records, firm, chain[0]) == None
    ensures chain[..n] == Ancestry(records, firm, rank, chain[n - 1])
  {
    if n > 1 {
      ChainPrefixIsAncestry(records, firm, rank, chain, n - 1);
      assert Parent(records, firm, chain[n - 2 + 1]) == Some(chain[n - 2]);
      assert chain[..n] == chain[..n - 1] + [chain[n - 1]];
    }
  }

  /** On an acyclic store a chain as `Explain` returns it is the whole path from the root ancestor. */
  lemma {:induction false} ChainIsAncestry(records: Records, firm: string, rank: Id -> nat, chain: seq<Id>)
    requires Acyclic(records, firm, rank) && Linked(records, firm, chain) && Exhausted(records, firm, chain)
    ensures Parent(records, firm, chain[0]) == None
    ensures chain == Ancestry(records, firm, rank, chain[|chain| - 1])
  {
    var p := Parent(records, firm, chain[0]);
    if p.Some? {
      var i :| 0 <= i < |chain| && chain[i] == p.value;
      RanksRise(records, firm, rank, chain, i);
      assert false;
    }
    ChainPrefixIsAncestry(records, firm, rank, chain, |chain|);
    assert chain[..|chain|] == chain;
  }
}
