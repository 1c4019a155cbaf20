/**
 * Migrating an old knowledge graph: per-document anchors and per-object chunk tracking are computed from
 * the source lists in the graph. Nodes and edges go through the same code, so the key is a parameter:
 * an entity name, or the sorted pair of a relation's ends.
 */
module Migration {
  import opened Basics
  import opened Sources

  type DocId = string
  type Chunk = string

  /** A node or an edge as the graph lists it; the key is missing when the record does not name one. */
  datatype Record<K> = Record(key: Option<K>, sources: seq<Chunk>)

  /** A processed document and its chunk list. */
  datatype Doc = Doc(id: DocId, chunks: seq<Chunk>)

  const BATCH_SIZE := 500

  // ---------------------------------------------------------------- which document owns a chunk

  function Assign(owners: map<Chunk, DocId>, chunks: seq<Chunk>, d: DocId): map<Chunk, DocId> {
    owners + map c | c in chunks :: d
  }

  function Owners(docs: seq<Doc>): map<Chunk, DocId> {
    if docs == [] then map[] else Assign(Owners(docs[..|docs| - 1]), docs[|docs| - 1].chunks, docs[|docs| - 1].id)
  }

  /** Each chunk belongs to one document, and ids are not empty. */
  ghost predicate OneOwner(docs: seq<Doc>) {
    && (forall i, j, c | 0 <= i < |docs| && 0 <= j < |docs| && c in docs[i].chunks && c in docs[j].chunks :: docs[i].id == docs[j].id)
    && forall d | d in docs :: "" !in d.chunks
  }

  predicate Owns(docs: seq<Doc>, d: DocId, c: Chunk) {
    exists x :: x in docs && x.id == d && c in x.chunks
  }

  lemma {:induction false} OwnersAre(docs: seq<Doc>)
    ensures forall c | c in Owners(docs) :: Owns(docs, Owners(docs)[c], c)
    ensures forall d, c | Owns(docs, d, c) :: c in Owners(docs)
  {
    if docs != [] {
      var init, last := docs[..|docs| - 1], docs[|docs| - 1];
      assert docs == init + [last];
      OwnersAre(init);
      assert last in docs;
      forall c | c in Owners(docs)
        ensures Owns(docs, Owners(docs)[c], c)
      {
        if c !in last.chunks {
          assert Owns(init, Owners(init)[c], c);
          var x :| x in init && x.id == Owners(init)[c] && c in x.chunks;
          assert x in docs;
        }
      }
      forall d, c | Owns(docs, d, c)
        ensures c in Owners(docs)
      {
        var x :| x in docs && x.id == d && c in x.chunks;
        if x in init {
          assert Owns(init, d, c);
        }
      }
    }
  }

  /** A chunk belongs to the last document that lists it. */
  lemma {:induction false} OwnerIsLast(docs: seq<Doc>, c: Chunk) returns (i: nat)
    requires c in Owners(docs)
    ensures i < |docs| && c in docs[i].chunks && Owners(docs)[c] == docs[i].id && forall j | i < j < |docs| :: c !in docs[j].chunks
  {
    i := |docs| - 1;
    if c !in docs[i].chunks {
      i := OwnerIsLast(docs[..i], c);
    }
  }

  lemma OwnerIsUnique(docs: seq<Doc>, d: DocId, c: Chunk)
    requires OneOwner(docs)
    ensures Owns(docs, d, c) <==> c in Owners(docs) && Owners(docs)[c] == d
  {
    OwnersAre(docs);
    if Owns(docs, d, c) {
      assert Owns(docs, Owners(docs)[c], c);
    }
  }

  // ---------------------------------------------------------------- anchors

  /** What one source id adds: the key, to the anchors of the document that owns the chunk. */
  function AddAnchor<K>(anchors: map<DocId, set<K>>, owners: map<Chunk, DocId>, k: K, c: Chunk): map<DocId, set<K>> {
    if c !in owners then anchors
    else anchors[owners[c] := (if owners[c] in anchors then anchors[owners[c]] else {}) + {k}]
  }

  function AnchorSources<K>(anchors: map<DocId, set<K>>, owners: map<Chunk, DocId>, k: K, sources: seq<Chunk>): map<DocId, set<K>>
    decreases |sources|
  {
    if sources == [] then anchors else AnchorSources(AddAnchor(anchors, owners, k, sources[0]), owners, k, sources[1..])
  }

  function Anchors<K>(owners: map<Chunk, DocId>, listing: seq<Record<K>>): map<DocId, set<K>> {
    if listing == [] then map[]
    else
      var before, r := Anchors(owners, listing[..|listing| - 1]), listing[|listing| - 1];
      if r.key.None? then before else AnchorSources(before, owners, r.key.value, r.sources)
  }

  function Row<K>(anchors: map<DocId, set<K>>, d: DocId): set<K> {
    if d in anchors then anchors[d] else {}
  }

  lemma {:induction false} AnchorSourcesAre<K>(anchors: map<DocId, set<K>>, owners: map<Chunk, DocId>, k: K, sources: seq<Chunk>, d: DocId)
    ensures Row(AnchorSources(anchors, owners, k, sources), d)
         == Row(anchors, d) + (if exists c :: c in sources && c in owners && owners[c] == d then {k} else {})
    decreases |sources|
  {
    if sources != [] {
      AnchorSourcesAre(AddAnchor(anchors, owners, k, sources[0]), owners, k, sources[1..], d);
      assert sources == [sources[0]] + sources[1..];
    }
  }

  /** Some record of the object lists a chunk of the document. */
  predicate Contributes<K(==)>(owners: map<Chunk, DocId>, listing: seq<Record<K>>, d: DocId, k: K) {
    exists r, c :: r in listing && r.key == Some(k) && c in r.sources && c in owners && owners[c] == d
  }

  lemma {:induction false} AnchorsAre<K>(owners: map<Chunk, DocId>, listing: seq<Record<K>>, d: DocId, k: K)
    ensures k in Row(Anchors(owners, listing), d) <==> Contributes(owners, listing, d, k)
  {
    if listing != [] {
      var init, last := listing[..|listing| - 1], listing[|listing| - 1];
      assert listing == init + [last] && last in listing;
      AnchorsAre(owners, init, d, k);
      if last.key.Some? {
        AnchorSourcesAre(Anchors(owners, init), owners, last.key.value, last.sources, d);
      }
      if Contributes(owners, listing, d, k) && !Contributes(owners, init, d, k) {
        var r, c :| r in listing && r.key == Some(k) && c in r.sources && c in owners && owners[c] == d;
        assert r == last;
      }
    }
  }

  /** The anchors store behind the migration: documents with contributions get their row, others keep theirs. */
  function RowsAfter<K>(docs: seq<Doc>, listing: seq<Record<K>>, stored: map<DocId, set<K>>): map<DocId, set<K>> {
    stored + Anchors(Owners(docs), listing)
  }

  method AssignChunks(owners: map<Chunk, DocId>, chunks: seq<Chunk>, d: DocId) returns (more: map<Chunk, DocId>)
    ensures more == Assign(owners, chunks, d)
  {
    more := owners;
    for j := 0 to |chunks|
      invariant more == Assign(owners, chunks[..j], d)
    {
      AssignNext(owners, chunks, j, d);
      more := more[chunks[j] := d];
    }
    assert chunks[..|chunks|] == chunks;
  }

  lemma AssignNext(owners: map<Chunk, DocId>, chunks: seq<Chunk>, j: nat, d: DocId)
    requires j < |chunks|
    ensures Assign(owners, chunks[..j + 1], d) == Assign(owners, chunks[..j], d)[chunks[j] := d]
  {
    assert chunks[..j + 1] == chunks[..j] + [chunks[j]];
  }

  method ChunkOwners(docs: seq<Doc>) returns (owners: map<Chunk, DocId>)
    ensures owners == Owners(docs)
  {
    owners := map[];
    for i := 0 to |docs|
      invariant owners == Owners(docs[..i])
    {
      assert docs[..i + 1][..i] == docs[..i] && docs[..i + 1][i] == docs[i];
      owners := AssignChunks(owners, docs[i].chunks, docs[i].id);
    }
    assert docs[..|docs|] == docs;
  }

  /**
   * `_migrate_entity_relation_data`, for nodes or for edges: documents with contributions get their row,
   * the rows of other documents stay as they were.
   */
  method MigrateAnchors<K(==)>(docs: seq<Doc>, listing: seq<Record<K>>, stored: map<DocId, set<K>>)
    returns (rows: map<DocId, set<K>>)
    ensures rows == RowsAfter(docs, listing, stored)
  {
    var owners := ChunkOwners(docs);
    var anchors: map<DocId, set<K>> := map[];
    for i := 0 to |listing|
      invariant anchors == Anchors(owners, listing[..i])
    {
      assert listing[..i + 1][..i] == listing[..i] && listing[..i + 1][i] == listing[i];
      if listing[i].key.Some? {
        anchors := AnchorRecord(anchors, owners, listing[i].key.value, listing[i].sources);
      }
    }
    assert listing[..|listing|] == listing;
    rows := stored + anchors;
  }

  method AnchorRecord<K(==)>(anchors: map<DocId, set<K>>, owners: map<Chunk, DocId>, k: K, sources: seq<Chunk>)
    returns (more: map<DocId, set<K>>)
    ensures more == AnchorSources(anchors, owners, k, sources)
  {
    more := anchors;
    for j := 0 to |sources|
      invariant AnchorSources(more, owners, k, sources[j..]) == AnchorSources(anchors, owners, k, sources)
    {
      assert sources[j..][0] == sources[j] && sources[j..][1..] == sources[j + 1..];
      if sources[j] in owners {
        var d := owners[sources[j]];
        more := more[d := (if d in more then more[d] else {}) + {k}];
      }
    }
  }

  // ---------------------------------------------------------------- tracking

  function Listed<K>(r: Record<K>): seq<Chunk> {
    Subtract(r.sources, {""})
  }

  /** The tracking rows of a listing: a later record of the same object replaces an earlier one. */
  function Tracking<K>(listing: seq<Record<K>>): map<K, seq<Chunk>> {
    if listing == [] then map[]
    else
      var before, r := Tracking(listing[..|listing| - 1]), listing[|listing| - 1];
      if r.key.None? || Listed(r) == [] then before else before[r.key.value := Listed(r)]
  }

  lemma {:induction false} TrackingConcat<K>(a: seq<Record<K>>, b: seq<Record<K>>)
    ensures Tracking(a + b) == Tracking(a) + Tracking(b)
    decreases |b|
  {
    if b == [] {
      assert a + b == a;
    } else {
      assert (a + b)[..|a + b| - 1] == a + b[..|b| - 1];
      TrackingConcat(a, b[..|b| - 1]);
    }
  }

  lemma {:induction false} TrackingComesFrom<K>(listing: seq<Record<K>>, k: K)
    ensures k in Tracking(listing) ==>
      exists r :: r in listing && r.key == Some(k) && Listed(r) != [] && Tracking(listing)[k] == Listed(r)
    ensures (exists r :: r in listing && r.key == Some(k) && Listed(r) != []) ==> k in Tracking(listing)
  {
    if listing != [] {
      var init, last := listing[..|listing| - 1], listing[|listing| - 1];
      assert listing == init + [last] && last in listing;
      TrackingComesFrom(init, k);
    }
  }

  method BatchPayload<K(==)>(batch: seq<Record<K>>) returns (payload: map<K, seq<Chunk>>)
    ensures payload == Tracking(batch)
  {
    payload := map[];
    for i := 0 to |batch|
      invariant payload == Tracking(batch[..i])
    {
      assert batch[..i + 1][..i] == batch[..i] && batch[..i + 1][i] == batch[i];
      if batch[i].key.Some? {
        var chunks := SubtractSourceIds(batch[i].sources, {""});
        if chunks != [] {
          payload := payload[batch[i].key.value := chunks];
        }
      }
    }
    assert batch[..|batch|] == batch;
  }

  /** The tracking store behind the migration, which fills an empty store only. */
  function TrackingAfter<K(==)>(listing: seq<Record<K>>, stored: map<K, seq<Chunk>>): map<K, seq<Chunk>> {
    if stored == map[] then Tracking(listing) else stored
  }

  /** `_migrate_chunk_tracking_storage`, for nodes or for edges: batch by batch, into an empty store only. */
  method MigrateTracking<K(==)>(listing: seq<Record<K>>, stored: map<K, seq<Chunk>>) returns (tracking: map<K, seq<Chunk>>)
    ensures tracking == TrackingAfter(listing, stored)
  {
    tracking := stored;
    if stored != map[] { return; }
    var batches := (|listing| + BATCH_SIZE - 1) / BATCH_SIZE;
    for b := 0 to batches
      invariant tracking == Tracking(listing[..Min(b * BATCH_SIZE, |listing|)])
    {
      var start, end := Min(b * BATCH_SIZE, |listing|), Min((b + 1) * BATCH_SIZE, |listing|);
      var payload := BatchPayload(listing[start..end]);
      assert listing[..end] == listing[..start] + listing[start..end];
      TrackingConcat(listing[..start], listing[start..end]);
      if payload != map[] {
        tracking := tracking + payload;
      }
    }
    assert listing[..|listing|] == listing;
  }

  // ---------------------------------------------------------------- the recovery invariant

  /** The object's tracking row meets the document's chunks. */
  predicate Meets<K(==)>(tracking: map<K, seq<Chunk>>, docs: seq<Doc>, d: DocId, k: K) {
    k in tracking && exists c :: c in tracking[k] && Owns(docs, d, c)
  }

  /** The record is the object's and lists a chunk of the document. */
  predicate Lists<K(==)>(docs: seq<Doc>, r: Record<K>, d: DocId, k: K) {
    r.key == Some(k) && exists c :: c in r.sources && Owns(docs, d, c)
  }

  /** The last record of the object that lists anything at all. */
  predicate IsLast<K(==)>(listing: seq<Record<K>>, i: nat, k: K) {
    && i < |listing| && listing[i].key == Some(k) && Listed(listing[i]) != []
    && forall j | i < j < |listing| && listing[j].key == Some(k) :: Listed(listing[j]) == []
  }

  lemma ListedSources<K>(r: Record<K>, c: Chunk)
    ensures c in Listed(r) <==> c in r.sources && c != ""
  {
    SubtractElems(r.sources, {""});
    assert c in Elems(Listed(r)) <==> c in Elems(r.sources) - {""};
  }

  lemma OwnedIsNotEmpty(docs: seq<Doc>, d: DocId, c: Chunk)
    requires OneOwner(docs) && Owns(docs, d, c)
    ensures c != ""
  {
  }

  /** The tracking row of an object is that of its last record with chunks. */
  lemma {:induction false} TrackingIsLast<K>(listing: seq<Record<K>>, k: K)
    ensures forall i: nat | IsLast(listing, i, k) :: k in Tracking(listing) && Tracking(listing)[k] == Listed(listing[i])
    ensures k in Tracking(listing) ==> exists i: nat :: IsLast(listing, i, k)
  {
    if listing != [] {
      var n := |listing| - 1;
      var init, last := listing[..n], listing[n];
      TrackingIsLast(init, k);
      if last.key == Some(k) && Listed(last) != [] {
        assert IsLast(listing, n, k);
        forall i: nat | IsLast(listing, i, k)
          ensures i == n
        {
        }
      } else {
        forall i: nat
          ensures IsLast(listing, i, k) <==> IsLast(init, i, k)
        {
          assert i < n ==> init[i] == listing[i];
          assert IsLast(init, i, k) ==> forall j | i < j < n :: init[j] == listing[j];
          assert IsLast(listing, i, k) ==> i < n;
        }
      }
    }
  }

  /** Tracking attributes the object to the document exactly when its last record with chunks lists one of them. */
  lemma MeetsIsLast<K>(docs: seq<Doc>, listing: seq<Record<K>>, d: DocId, k: K)
    requires OneOwner(docs)
    ensures Meets(Tracking(listing), docs, d, k) <==> exists i: nat :: IsLast(listing, i, k) && Lists(docs, listing[i], d, k)
  {
    TrackingIsLast(listing, k);
    if Meets(Tracking(listing), docs, d, k) {
      var i: nat :| IsLast(listing, i, k);
      var c :| c in Tracking(listing)[k] && Owns(docs, d, c);
      ListedSources(listing[i], c);
      assert Lists(docs, listing[i], d, k);
    }
    if i: nat :| IsLast(listing, i, k) && Lists(docs, listing[i], d, k) {
      var c :| c in listing[i].sources && Owns(docs, d, c);
      OwnedIsNotEmpty(docs, d, c);
      ListedSources(listing[i], c);
      assert c in Tracking(listing)[k];
    }
  }

  /** The computed anchors name the object exactly when one of its records lists a chunk of the document. */
  lemma AnchoredIsListed<K>(docs: seq<Doc>, listing: seq<Record<K>>, d: DocId, k: K)
    requires OneOwner(docs)
    ensures k in Row(Anchors(Owners(docs), listing), d) <==> exists r :: r in listing && Lists(docs, r, d, k)
  {
    AnchorsAre(Owners(docs), listing, d, k);
    if Contributes(Owners(docs), listing, d, k) {
      var r, c :| r in listing && r.key == Some(k) && c in r.sources && c in Owners(docs) && Owners(docs)[c] == d;
      OwnerIsUnique(docs, d, c);
      assert Lists(docs, r, d, k);
    }
    if r :| r in listing && Lists(docs, r, d, k) {
      var c :| c in r.sources && Owns(docs, d, c);
      OwnerIsUnique(docs, d, c);
    }
  }

  ghost predicate NoEmptyRow<K>(rows: map<DocId, set<K>>) {
    forall d | d in rows :: rows[d] != {}
  }

  lemma AddedNotEmpty<K>(rows: map<DocId, set<K>>, owners: map<Chunk, DocId>, k: K, c: Chunk)
    requires NoEmptyRow(rows)
    ensures NoEmptyRow(AddAnchor(rows, owners, k, c))
  {
    var more := AddAnchor(rows, owners, k, c);
    forall d | d in more
      ensures more[d] != {}
    {
      if c in owners && d == owners[c] {
        assert k in more[d];
      }
    }
  }

  lemma {:induction false} SourcesNotEmpty<K>(rows: map<DocId, set<K>>, owners: map<Chunk, DocId>, k: K, sources: seq<Chunk>)
    requires NoEmptyRow(rows)
    ensures NoEmptyRow(AnchorSources(rows, owners, k, sources))
    decreases |sources|
  {
    if sources != [] {
      AddedNotEmpty(rows, owners, k, sources[0]);
      SourcesNotEmpty(AddAnchor(rows, owners, k, sources[0]), owners, k, sources[1..]);
    }
  }

  /** A computed row is never empty: only documents with contributions get one. */
  lemma {:induction false} RowsNotEmpty<K>(owners: map<Chunk, DocId>, listing: seq<Record<K>>)
    ensures NoEmptyRow(Anchors(owners, listing))
  {
    if listing != [] {
      var init, r := listing[..|listing| - 1], listing[|listing| - 1];
      RowsNotEmpty(owners, init);
      if r.key.Some? {
        SourcesNotEmpty(Anchors(owners, init), owners, r.key.value, r.sources);
      }
    }
  }

  /** Some object in the graph lists a chunk of the document. */
  predicate HasContributions<K(==)>(docs: seq<Doc>, listing: seq<Record<K>>, d: DocId) {
    exists r, c :: r in listing && r.key.Some? && c in r.sources && Owns(docs, d, c)
  }

  lemma RowsAre<K>(docs: seq<Doc>, listing: seq<Record<K>>, stored: map<DocId, set<K>>, d: DocId, k: K)
    requires OneOwner(docs)
    ensures k in Row(RowsAfter(docs, listing, stored), d) <==>
      if HasContributions(docs, listing, d) then exists r :: r in listing && Lists(docs, r, d, k) else k in Row(stored, d)
  {
    var anchors := Anchors(Owners(docs), listing);
    AnchoredIsListed(docs, listing, d, k);
    RowsNotEmpty(Owners(docs), listing);
    if HasContributions(docs, listing, d) {
      var r, c :| r in listing && r.key.Some? && c in r.sources && Owns(docs, d, c);
      AnchoredIsListed(docs, listing, d, r.key.value);
      assert Lists(docs, r, d, r.key.value);
      assert d in anchors;
    } else if d in anchors {
      var x :| x in anchors[d];
      AnchoredIsListed(docs, listing, d, x);
    }
  }

  /**
   * When the stored rows and the graph's listing lead to the recovery invariant for one object: into an empty
   * tracking store, the last record of the object that lists chunks must list one of the document whenever any
   * record does, and a document without contributions must not have had the object in its row before. A
   * tracking store that is not empty is not touched, so it must agree already.
   */
  ghost predicate Agreeing<K>(docs: seq<Doc>, listing: seq<Record<K>>, rows: map<DocId, set<K>>, tracking: map<K, seq<Chunk>>, d: DocId, k: K) {
    if tracking != map[] then
      (Meets(tracking, docs, d, k) <==>
         if HasContributions(docs, listing, d) then exists r :: r in listing && Lists(docs, r, d, k) else k in Row(rows, d))
    else if HasContributions(docs, listing, d) then
      (exists r :: r in listing && Lists(docs, r, d, k)) ==> exists i: nat :: IsLast(listing, i, k) && Lists(docs, listing[i], d, k)
    else k !in Row(rows, d)
  }

  /**
   * After both migrations a name or pair is in a document's stored row exactly when its stored tracking row
   * meets the document's chunks, if and only if what was stored and listed before agrees on it.
   */
  lemma MigrationEstablishesAnchors<K>(docs: seq<Doc>, listing: seq<Record<K>>, rows: map<DocId, set<K>>, tracking: map<K, seq<Chunk>>, d: DocId, k: K)
    requires OneOwner(docs)
    ensures (k in Row(RowsAfter(docs, listing, rows), d) <==> Meets(TrackingAfter(listing, tracking), docs, d, k))
       <==> Agreeing(docs, listing, rows, tracking, d, k)
  {
    RowsAre(docs, listing, rows, d, k);
    MeetsIsLast(docs, listing, d, k);
    if i: nat :| IsLast(listing, i, k) && Lists(docs, listing[i], d, k) {
      assert listing[i] in listing;
      assert HasContributions(docs, listing, d);
    }
  }

  /** The anchors always cover what a fresh tracking store attributes to a document. */
  lemma AnchorsCoverTracking<K>(docs: seq<Doc>, listing: seq<Record<K>>, rows: map<DocId, set<K>>, d: DocId, k: K)
    requires OneOwner(docs) && Meets(TrackingAfter(listing, map[]), docs, d, k)
    ensures k in Row(RowsAfter(docs, listing, rows), d)
  {
    RowsAre(docs, listing, rows, d, k);
    MeetsIsLast(docs, listing, d, k);
    var i: nat :| IsLast(listing, i, k) && Lists(docs, listing[i], d, k);
    assert listing[i] in listing && HasContributions(docs, listing, d);
  }

  /** Records of the same object carry the same sources, as both directions of one edge do. */
  ghost predicate Consistent<K>(listing: seq<Record<K>>) {
    forall r, q | r in listing && q in listing && r.key.Some? && r.key == q.key :: r.sources == q.sources
  }

  /** A first migration, of a graph that lists its objects consistently, always establishes the invariant. */
  lemma FirstMigrationAgrees<K>(docs: seq<Doc>, listing: seq<Record<K>>, d: DocId, k: K)
    requires OneOwner(docs) && Consistent(listing)
    ensures Agreeing(docs, listing, map[], map[], d, k)
  {
    if r :| r in listing && Lists(docs, r, d, k) {
      var c :| c in r.sources && Owns(docs, d, c);
      OwnedIsNotEmpty(docs, d, c);
      ListedSources(r, c);
      TrackingComesFrom(listing, k);
      TrackingIsLast(listing, k);
      var i: nat :| IsLast(listing, i, k);
      assert listing[i] in listing;
      assert Lists(docs, listing[i], d, k);
    }
  }

  /**
   * Where the listing is not consistent the condition does fail: a later record hides an earlier one in tracking,
   * and a document of which only the earlier record lists a chunk is anchored without being tracked.
   */
  lemma LaterRecordHidesEarlier<K>(docs: seq<Doc>, init: seq<Record<K>>, early: Record<K>, last: Record<K>, rows: map<DocId, set<K>>, d: DocId, k: K)
    requires OneOwner(docs) && early in init && Lists(docs, early, d, k)
    requires last.key == Some(k) && Listed(last) != [] && !Lists(docs, last, d, k)
    ensures !Agreeing(docs, init + [last], rows, map[], d, k)
    ensures k in Row(RowsAfter(docs, init + [last], rows), d) && !Meets(TrackingAfter(init + [last], map[]), docs, d, k)
  {
    var listing := init + [last];
    assert early in listing && listing[|init|] == last;
    assert HasContributions(docs, listing, d);
    forall i: nat | IsLast(listing, i, k)
      ensures i == |init|
    {
    }
    RowsAre(docs, listing, rows, d, k);
    MeetsIsLast(docs, listing, d, k);
  }
}
