/** The migration that gives every stored document the firm of its case: row-by-row updates by
    (document, version), then a purge of the rows without a resolvable case. */
module Backfill {
  import opened Optional

  /** The JSON payload of a row: a dictionary with or without a case id, or anything else. */
  datatype Payload = Mapping(caseId: Option<string>) | NotADictionary

  datatype Row = Row(documentId: string, version: int, payload: Payload, firmId: Option<string>)

  datatype Key = Key(documentId: string, version: int)

  type Table = seq<Row>

  function KeyOf(r: Row): Key {
    Key(r.documentId, r.version)
  }

  /** Rows are told apart by document and version. */
  lemma {:induction false} KeysMean(r: Row, s: Row)
    ensures KeyOf(r) == KeyOf(s) <==> r.documentId == s.documentId && r.version == s.version
  {
  }

  // ---------- resolving the firm of a row ----------

  /** Canonical forms of identifiers, None for text that is not one. */
  type Normalize = string -> Option<string>

  function FirmText(normalize: Normalize, firm: string): string {
    var n := normalize(firm);
    if n.Some? then n.value else firm
  }

  /** The `cases` rows as (id, firm); a later row with the same canonical id wins. */
  function FirmOfCase(normalize: Normalize, cases: seq<(string, string)>, caseId: string): Option<string> {
    if cases == [] then None
    else if normalize(cases[|cases| - 1].0) == Some(caseId) then Some(FirmText(normalize, cases[|cases| - 1].1))
    else FirmOfCase(normalize, cases[..|cases| - 1], caseId)
  }

  function FirmOf(normalize: Normalize, cases: seq<(string, string)>, payload: Payload): Option<string> {
    if payload.NotADictionary? || payload.caseId.None? || payload.caseId.value == "" then None
    else
      var id := normalize(payload.caseId.value);
      if id.None? then None else FirmOfCase(normalize, cases, id.value)
  }

  /** The firm of the last row of `cases` whose identifier has this canonical form, in canonical form itself if it
      has one. */
  lemma {:induction false} FirmOfCaseMeans(normalize: Normalize, cases: seq<(string, string)>, caseId: string,
                                           firm: string)
    ensures FirmOfCase(normalize, cases, caseId) == Some(firm) <==>
            exists i: nat :: LastNamed(normalize, cases, caseId, i)
                             && (match normalize(cases[i].1) case Some(n) => firm == n case None => firm == cases[i].1)
  {
    if cases != [] {
      var n := |cases| - 1;
      FirmOfCaseMeans(normalize, cases[..n], caseId, firm);
      if normalize(cases[n].0) == Some(caseId) {
        assert LastNamed(normalize, cases, caseId, n);
      } else {
        forall i: nat ensures LastNamed(normalize, cases, caseId, i) <==> LastNamed(normalize, cases[..n], caseId, i) {}
      }
    }
  }

  ghost predicate LastNamed(normalize: Normalize, cases: seq<(string, string)>, caseId: string, i: nat) {
    && i < |cases| && normalize(cases[i].0) == Some(caseId)
    && forall j :: i < j < |cases| ==> normalize(cases[j].0) != Some(caseId)
  }

  /** A row resolves if its payload is a dictionary with an identifier, and that is the identifier of a case. */
  lemma {:induction false} FirmOfMeans(normalize: Normalize, cases: seq<(string, string)>, payload: Payload,
                                       firm: string)
    ensures FirmOf(normalize, cases, payload) == Some(firm) <==>
            && payload.Mapping? && payload.caseId.Some? && payload.caseId.value != ""
            && normalize(payload.caseId.value).Some?
            && FirmOfCase(normalize, cases, normalize(payload.caseId.value).value) == Some(firm)
  {
  }

  method FirmsByCase(normalize: Normalize, cases: seq<(string, string)>) returns (firms: map<string, string>)
    ensures forall id :: FirmOfCase(normalize, cases, id) == if id in firms then Some(firms[id]) else None
  {
    firms := map[];
    for i := 0 to |cases|
      invariant forall id :: FirmOfCase(normalize, cases[..i], id) == if id in firms then Some(firms[id]) else None
    {
      assert cases[..i + 1][..i] == cases[..i];
      var id := normalize(cases[i].0);
      if id.Some? {
        firms := firms[id.value := FirmText(normalize, cases[i].1)];
      }
    }
    assert cases[..|cases|] == cases;
  }

  // ---------- the two statements ----------

  function Update(table: Table, key: Key, firm: string): (t: Table)
    ensures |t| == |table| && forall j :: 0 <= j < |t| ==>
                                t[j] == if KeyOf(table[j]) == key then table[j].(firmId := Some(firm)) else table[j]
  {
    seq(|table|, j requires 0 <= j < |table| =>
      if KeyOf(table[j]) == key then table[j].(firmId := Some(firm)) else table[j])
  }

  function Delete(table: Table, key: Key): Table {
    if table == [] then []
    else Delete(table[..|table| - 1], key) + if KeyOf(table[|table| - 1]) == key then [] else [table[|table| - 1]]
  }

  // ---------- what the migration amounts to ----------

  /** The firm that the updates leave on the rows of a key: that of the last resolvable row fetched. */
  function LastFirm(normalize: Normalize, cases: seq<(string, string)>, fetched: Table, key: Key): Option<string> {
    if fetched == [] then None
    else
      var r := fetched[|fetched| - 1];
      var firm := FirmOf(normalize, cases, r.payload);
      if KeyOf(r) == key && firm.Some? then firm else LastFirm(normalize, cases, fetched[..|fetched| - 1], key)
  }

  /** The last row of the key that resolves. */
  ghost predicate LastResolved(normalize: Normalize, cases: seq<(string, string)>, fetched: Table, key: Key, i: nat) {
    && i < |fetched| && KeyOf(fetched[i]) == key && FirmOf(normalize, cases, fetched[i].payload).Some?
    && forall j :: i < j < |fetched| && KeyOf(fetched[j]) == key ==>
         FirmOf(normalize, cases, fetched[j].payload) == None
  }

  lemma {:induction false} LastFirmMeans(normalize: Normalize, cases: seq<(string, string)>, fetched: Table, key: Key,
                                         firm: string)
    ensures LastFirm(normalize, cases, fetched, key) == Some(firm) <==>
            exists i: nat :: LastResolved(normalize, cases, fetched, key, i)
                             && FirmOf(normalize, cases, fetched[i].payload) == Some(firm)
  {
    hide FirmOf;
    if fetched != [] {
      var n := |fetched| - 1;
      LastFirmMeans(normalize, cases, fetched[..n], key, firm);
      if KeyOf(fetched[n]) == key && FirmOf(normalize, cases, fetched[n].payload).Some? {
        assert LastResolved(normalize, cases, fetched, key, n);
      } else {
        forall i: nat
          ensures LastResolved(normalize, cases, fetched, key, i) <==>
                  LastResolved(normalize, cases, fetched[..n], key, i)
        {
        }
      }
    }
  }

  predicate Orphaned(normalize: Normalize, cases: seq<(string, string)>, fetched: Table, key: Key) {
    exists i :: 0 <= i < |fetched| && KeyOf(fetched[i]) == key && FirmOf(normalize, cases, fetched[i].payload) == None
  }

  /** Every row whose key no unresolvable row shares, with the firm of the last row of that key. */
  function Migrated(normalize: Normalize, cases: seq<(string, string)>, fetched: Table, table: Table): Table {
    if table == [] then []
    else
      var r := table[|table| - 1];
      Migrated(normalize, cases, fetched, table[..|table| - 1])
      + if Orphaned(normalize, cases, fetched, KeyOf(r)) then []
        else [r.(firmId := LastFirm(normalize, cases, fetched, KeyOf(r)))]
  }

  lemma {:induction false} MigratedMeans(normalize: Normalize, cases: seq<(string, string)>, fetched: Table,
                                         table: Table, r: Row)
    ensures r in Migrated(normalize, cases, fetched, table) <==>
            exists s :: s in table && r == s.(firmId := LastFirm(normalize, cases, fetched, KeyOf(s)))
                        && !Orphaned(normalize, cases, fetched, KeyOf(s))
  {
    hide LastFirm, Orphaned;
    if table != [] {
      var n := |table| - 1;
      MigratedMeans(normalize, cases, fetched, table[..n], r);
      assert table == table[..n] + [table[n]];
      assert r in Migrated(normalize, cases, fetched, table) <==>
             r in Migrated(normalize, cases, fetched, table[..n])
             || (r == table[n].(firmId := LastFirm(normalize, cases, fetched, KeyOf(table[n])))
                 && !Orphaned(normalize, cases, fetched, KeyOf(table[n])));
    }
  }

  lemma {:induction false} OrphanedMeans(normalize: Normalize, cases: seq<(string, string)>, fetched: Table, key: Key)
    ensures Orphaned(normalize, cases, fetched, key) <==>
            exists r :: r in fetched && KeyOf(r) == key && FirmOf(normalize, cases, r.payload) == None
  {
    hide FirmOf;
    if r :| r in fetched && KeyOf(r) == key && FirmOf(normalize, cases, r.payload) == None {
      var i :| 0 <= i < |fetched| && fetched[i] == r;
    }
  }

  ghost function Survivors(table: Table, keys: set<Key>): Table {
    if table == [] then []
    else Survivors(table[..|table| - 1], keys) + if KeyOf(table[|table| - 1]) in keys then [] else [table[|table| - 1]]
  }

  lemma {:induction false} DeleteSurvivors(table: Table, keys: set<Key>, key: Key)
    ensures Delete(Survivors(table, keys), key) == Survivors(table, keys + {key})
  {
    if table != [] {
      var n := |table| - 1;
      DeleteSurvivors(table[..n], keys, key);
      var kept := Survivors(table[..n], keys);
      if KeyOf(table[n]) in keys { assert kept + [] == kept; } else { assert (kept + [table[n]])[..|kept|] == kept; }
    }
  }

  /** The table after the updates: `table` with the column filled from the rows fetched so far. */
  ghost predicate Filled(normalize: Normalize, cases: seq<(string, string)>, fetched: Table, table: Table, now: Table) {
    && |now| == |table|
    && forall j :: 0 <= j < |table|
        ==> now[j] == table[j].(firmId := LastFirm(normalize, cases, fetched, KeyOf(table[j])))
  }

  lemma {:induction false} SurvivorsAreMigrated(normalize: Normalize, cases: seq<(string, string)>, fetched: Table,
                                                table: Table, now: Table, keys: set<Key>)
    requires Filled(normalize, cases, fetched, table, now)
    requires forall k :: k in keys <==> Orphaned(normalize, cases, fetched, k)
    ensures Survivors(now, keys) == Migrated(normalize, cases, fetched, table)
  {
    if table != [] {
      var n := |table| - 1;
      hide LastFirm, Orphaned;
      SurvivorsAreMigrated(normalize, cases, fetched, table[..n], now[..n], keys);
      assert KeyOf(now[n]) == KeyOf(table[n]);
    }
  }

  lemma {:induction false} NothingDeleted(table: Table)
    ensures Survivors(table, {}) == table
  {
    if table != [] {
      NothingDeleted(table[..|table| - 1]);
      assert table == table[..|table| - 1] + [table[|table| - 1]];
    }
  }

  /** `fetched` are the rows of the table in the order the database returned them; the new column is
      empty to begin with. */
  method Upgrade(normalize: Normalize, cases: seq<(string, string)>, table: Table, fetched: Table)
    returns (migrated: Table)
    requires forall r :: r in table ==> r.firmId == None
    ensures migrated == Migrated(normalize, cases, fetched, table)
  {
    hide FirmOf, FirmOfCase;
    var firms := FirmsByCase(normalize, cases);
    migrated := table;
    var orphanKeys: seq<Key> := [];
    for i := 0 to |fetched|
      invariant Filled(normalize, cases, fetched[..i], table, migrated)
      invariant forall k :: k in orphanKeys <==> Orphaned(normalize, cases, fetched[..i], k)
    {
      var r := fetched[i];
      ghost var before := fetched[..i];
      assert fetched[..i + 1] == before + [r] && (before + [r])[..i] == before;
      var firm := Lookup(normalize, cases, firms, r.payload);
      OrphanedMore(normalize, cases, before, r);
      if firm.Some? {
        migrated := Update(migrated, KeyOf(r), firm.value);
      } else {
        orphanKeys := orphanKeys + [KeyOf(r)];
      }
    }
    assert fetched[..|fetched|] == fetched;
    ghost var filled := migrated;
    migrated := Purge(migrated, orphanKeys);
    SurvivorsAreMigrated(normalize, cases, fetched, table, filled, KeySet(orphanKeys));
  }

  function KeySet(keys: seq<Key>): set<Key> {
    set k | k in keys
  }

  method Purge(table: Table, keys: seq<Key>) returns (purged: Table)
    ensures purged == Survivors(table, KeySet(keys))
  {
    purged := table;
    NothingDeleted(table);
    assert KeySet(keys[..0]) == {};
    for i := 0 to |keys|
      invariant purged == Survivors(table, KeySet(keys[..i]))
    {
      DeleteSurvivors(table, KeySet(keys[..i]), keys[i]);
      assert keys[..i + 1] == keys[..i] + [keys[i]];
      assert KeySet(keys[..i + 1]) == KeySet(keys[..i]) + {keys[i]};
      purged := Delete(purged, keys[i]);
    }
    assert keys[..|keys|] == keys;
  }

  method Lookup(normalize: Normalize, cases: seq<(string, string)>, firms: map<string, string>, payload: Payload)
    returns (firm: Option<string>)
    requires forall id :: FirmOfCase(normalize, cases, id) == if id in firms then Some(firms[id]) else None
    ensures firm == FirmOf(normalize, cases, payload)
  {
    var caseId := if payload.Mapping? then payload.caseId else None;
    var id := if caseId.Some? && caseId.value != "" then normalize(caseId.value) else None;
    firm := if id.Some? && id.value in firms then Some(firms[id.value]) else None;
  }

  lemma {:induction false} OrphanedMore(normalize: Normalize, cases: seq<(string, string)>, fetched: Table, r: Row)
    ensures forall k :: Orphaned(normalize, cases, fetched + [r], k) <==>
              Orphaned(normalize, cases, fetched, k) || (k == KeyOf(r) && FirmOf(normalize, cases, r.payload) == None)
  {
    hide FirmOf;
    var more := fetched + [r];
    forall k ensures Orphaned(normalize, cases, more, k) <==>
                     Orphaned(normalize, cases, fetched, k)
                     || (k == KeyOf(r) && FirmOf(normalize, cases, r.payload) == None) {
      if Orphaned(normalize, cases, fetched, k) {
        var i :| 0 <= i < |fetched| && KeyOf(fetched[i]) == k && FirmOf(normalize, cases, fetched[i].payload) == None;
        assert more[i] == fetched[i];
      }
      assert more[|fetched|] == r;
    }
  }

  // ---------- what a caller gets ----------

  lemma {:induction false} LastFirmExists(normalize: Normalize, cases: seq<(string, string)>, fetched: Table, r: Row)
    requires r in fetched && !Orphaned(normalize, cases, fetched, KeyOf(r))
    ensures LastFirm(normalize, cases, fetched, KeyOf(r)).Some?
  {
    var n := |fetched| - 1;
    assert fetched == fetched[..n] + [fetched[n]];
    OrphanedMore(normalize, cases, fetched[..n], fetched[n]);
    hide FirmOf, Orphaned;
    if KeyOf(fetched[n]) != KeyOf(r) { LastFirmExists(normalize, cases, fetched[..n], r); }
  }

  /** After the migration the column can be made non-null, also when rows share their key. */
  lemma {:induction false} NoNullFirm(normalize: Normalize, cases: seq<(string, string)>, fetched: Table, table: Table)
    requires forall r :: r in table ==> r in fetched
    ensures forall r :: r in Migrated(normalize, cases, fetched, table) ==> r.firmId.Some?
  {
    if table != [] {
      var n := |table| - 1;
      assert table == table[..n] + [table[n]];
      NoNullFirm(normalize, cases, fetched, table[..n]);
      hide LastFirm, Orphaned;
      if !Orphaned(normalize, cases, fetched, KeyOf(table[n])) {
        LastFirmExists(normalize, cases, fetched, table[n]);
      }
    }
  }

  /** The rows whose case resolves, each with its own case's firm. */
  function Resolved(normalize: Normalize, cases: seq<(string, string)>, table: Table): Table {
    if table == [] then []
    else
      var r := table[|table| - 1];
      var firm := FirmOf(normalize, cases, r.payload);
      Resolved(normalize, cases, table[..|table| - 1]) + if firm.None? then [] else [r.(firmId := firm)]
  }

  /** Rows that share their key resolve to the same firm, or none does. */
  ghost predicate KeysAgree(normalize: Normalize, cases: seq<(string, string)>, table: Table) {
    forall r, s :: r in table && s in table && KeyOf(r) == KeyOf(s) ==>
      FirmOf(normalize, cases, r.payload) == FirmOf(normalize, cases, s.payload)
  }

  lemma {:induction false} LastFirmAgrees(normalize: Normalize, cases: seq<(string, string)>, fetched: Table, key: Key,
                                          firm: Option<string>)
    requires forall r :: r in fetched && KeyOf(r) == key ==> FirmOf(normalize, cases, r.payload) == firm
    ensures LastFirm(normalize, cases, fetched, key) ==
            if exists r :: r in fetched && KeyOf(r) == key then firm else None
  {
    hide FirmOf;
    if fetched != [] {
      var n := |fetched| - 1;
      assert fetched == fetched[..n] + [fetched[n]];
      LastFirmAgrees(normalize, cases, fetched[..n], key, firm);
      assert fetched[n] in fetched;
    }
  }

  lemma {:induction false} FirmWhenAgreed(normalize: Normalize, cases: seq<(string, string)>, fetched: Table, r: Row)
    requires KeysAgree(normalize, cases, fetched) && r in fetched
    ensures LastFirm(normalize, cases, fetched, KeyOf(r)) == FirmOf(normalize, cases, r.payload)
    ensures Orphaned(normalize, cases, fetched, KeyOf(r)) <==> FirmOf(normalize, cases, r.payload) == None
  {
    hide FirmOf, LastFirm;
    LastFirmAgrees(normalize, cases, fetched, KeyOf(r), FirmOf(normalize, cases, r.payload));
    var i :| 0 <= i < |fetched| && fetched[i] == r;
  }

  lemma {:induction false} AgreedIsResolved(normalize: Normalize, cases: seq<(string, string)>, fetched: Table,
                                            table: Table)
    requires KeysAgree(normalize, cases, fetched) && forall r :: r in table ==> r in fetched
    ensures Migrated(normalize, cases, fetched, table) == Resolved(normalize, cases, table)
  {
    hide KeysAgree, FirmOf, LastFirm, Orphaned;
    if table != [] {
      var n := |table| - 1;
      assert table == table[..n] + [table[n]];
      AgreedIsResolved(normalize, cases, fetched, table[..n]);
      FirmWhenAgreed(normalize, cases, fetched, table[n]);
    }
  }

  lemma {:induction false} MigratedFirm(normalize: Normalize, cases: seq<(string, string)>, fetched: Table,
                                        table: Table, r: Row)
    requires r in Migrated(normalize, cases, fetched, table)
    ensures !Orphaned(normalize, cases, fetched, KeyOf(r)) && r.firmId == LastFirm(normalize, cases, fetched, KeyOf(r))
  {
    hide FirmOf, LastFirm, Orphaned;
    var n := |table| - 1;
    if r in Migrated(normalize, cases, fetched, table[..n]) {
      MigratedFirm(normalize, cases, fetched, table[..n], r);
    }
  }

  lemma {:induction false} ResolvedHas(normalize: Normalize, cases: seq<(string, string)>, table: Table, r: Row)
    requires r in table && FirmOf(normalize, cases, r.payload).Some?
    ensures r.(firmId := FirmOf(normalize, cases, r.payload)) in Resolved(normalize, cases, table)
  {
    hide FirmOf;
    var n := |table| - 1;
    assert table == table[..n] + [table[n]];
    if r in table[..n] { ResolvedHas(normalize, cases, table[..n], r); }
  }

  lemma {:induction false} ResolvedFirm(normalize: Normalize, cases: seq<(string, string)>, fetched: Table,
                                        table: Table, r: Row)
    requires Migrated(normalize, cases, fetched, table) == Resolved(normalize, cases, table)
    requires r in table && FirmOf(normalize, cases, r.payload).Some?
    ensures !Orphaned(normalize, cases, fetched, KeyOf(r))
    ensures LastFirm(normalize, cases, fetched, KeyOf(r)) == FirmOf(normalize, cases, r.payload)
  {
    hide FirmOf, LastFirm, Orphaned, Migrated, Resolved;
    ResolvedHas(normalize, cases, table, r);
    MigratedFirm(normalize, cases, fetched, table, r.(firmId := FirmOf(normalize, cases, r.payload)));
  }

  /** The survivors are exactly the rows whose case resolves, in table order, each with its own case's firm
      and otherwise unchanged, if and only if rows that share their key agree. */
  lemma {:induction false} KeepsExactlyResolvedIff(normalize: Normalize, cases: seq<(string, string)>, fetched: Table,
                                                   table: Table)
    requires forall r :: r in table <==> r in fetched
    ensures Migrated(normalize, cases, fetched, table) == Resolved(normalize, cases, table)
            <==> KeysAgree(normalize, cases, table)
  {
    hide FirmOf, LastFirm, Migrated, Resolved;
    if KeysAgree(normalize, cases, table) {
      AgreedIsResolved(normalize, cases, fetched, table);
    }
    if Migrated(normalize, cases, fetched, table) == Resolved(normalize, cases, table) {
      forall r, s | r in table && s in table && KeyOf(r) == KeyOf(s)
        ensures FirmOf(normalize, cases, r.payload) == FirmOf(normalize, cases, s.payload)
      {
        if FirmOf(normalize, cases, r.payload).Some? { ResolvedFirm(normalize, cases, fetched, table, r); }
        if FirmOf(normalize, cases, s.payload).Some? { ResolvedFirm(normalize, cases, fetched, table, s); }
        assert r in fetched && s in fetched;
      }
    }
  }

  ghost predicate UniqueKeys(table: Table) {
    forall i, j :: 0 <= i < j < |table| ==> KeyOf(table[i]) != KeyOf(table[j])
  }

  lemma {:induction false} UniqueKeysAgree(normalize: Normalize, cases: seq<(string, string)>, table: Table)
    requires UniqueKeys(table)
    ensures KeysAgree(normalize, cases, table)
  {
    hide FirmOf;
    forall r, s | r in table && s in table && KeyOf(r) == KeyOf(s) ensures r == s {
      var i :| 0 <= i < |table| && table[i] == r;
      var j :| 0 <= j < |table| && table[j] == s;
    }
  }

  lemma {:induction false} UniqueKeysKeepExactlyResolved(normalize: Normalize, cases: seq<(string, string)>,
                                                         fetched: Table, table: Table)
    requires UniqueKeys(fetched) && forall r :: r in table ==> r in fetched
    ensures Migrated(normalize, cases, fetched, table) == Resolved(normalize, cases, table)
  {
    UniqueKeysAgree(normalize, cases, fetched);
    AgreedIsResolved(normalize, cases, fetched, table);
  }

  /** Without unique keys a resolvable row is lost exactly if an unresolvable row shares its key. */
  lemma {:induction false} LostIffSharesOrphanKey(normalize: Normalize, cases: seq<(string, string)>, fetched: Table,
                                                  table: Table, key: Key)
    ensures (exists r :: r in Migrated(normalize, cases, fetched, table) && KeyOf(r) == key) <==>
            (exists r :: r in table && KeyOf(r) == key) && !Orphaned(normalize, cases, fetched, key)
  {
    hide Orphaned, LastFirm;
    if table != [] {
      var n := |table| - 1;
      assert table == table[..n] + [table[n]];
      LostIffSharesOrphanKey(normalize, cases, fetched, table[..n], key);
      var last := table[n].(firmId := LastFirm(normalize, cases, fetched, KeyOf(table[n])));
      var before, now := Migrated(normalize, cases, fetched, table[..n]), Migrated(normalize, cases, fetched, table);
      assert forall r :: r in now <==>
                           r in before || (r == last && !Orphaned(normalize, cases, fetched, KeyOf(table[n])));
      assert KeyOf(last) == KeyOf(table[n]);
    }
  }
}
