/** The durable stores of the knowledge-graph protocol, as one value. */
module Stores {
  import opened Basics
  import opened Sources

  type DocId = string
  type Name = string

  /** A chunk id hashes the length-prefixed pair (document, text), so it stands for that pair. */
  datatype ChunkId = ChunkId(doc: DocId, text: string)

  /** A graph object: a node, or an undirected edge named by its unordered pair of ends. */
  datatype Candidate = Entity(name: Name) | Relation(ends: set<Name>)

  datatype Status = Pending | Processing | Processed | Failed
  datatype Mode = Create | Patch
  datatype Phase = Prepared | Applying | Interrupted

  /** The write-ahead record of a custom-chunk operation. The operation id hashes the ordered ids `op`. */
  datatype Journal = Journal(op: seq<ChunkId>, mode: Mode, chunks: seq<ChunkId>, cands: set<Candidate>, phase: Phase)

  datatype Row = Row(status: Status, chunks: seq<ChunkId>, journal: Option<Journal>)

  /**
   * rows: doc_status; bodies: full_docs; text: text_chunks (chunks_vdb follows it);
   * anchors: full_entities and full_relations; tracking: entity_chunks and relation_chunks;
   * graph: the `source_id` list of every node and edge; index: the same field in the two vector stores.
   * cap and fifo: the limit on `source_id` lists and its method.
   */
  datatype Store = Store(
    rows: map<DocId, Row>,
    bodies: set<DocId>,
    text: set<ChunkId>,
    anchors: map<DocId, set<Candidate>>,
    tracking: map<Candidate, seq<ChunkId>>,
    graph: map<Candidate, seq<ChunkId>>,
    index: map<Candidate, seq<ChunkId>>,
    cap: nat,
    fifo: bool)
  {
    function Limit(s: seq<ChunkId>): seq<ChunkId> {
      Limited(s, cap, fifo)
    }

    function Tracked(c: Candidate): seq<ChunkId> {
      if c in tracking then tracking[c] else []
    }

    function AnchorsOf(d: DocId): set<Candidate> {
      if d in anchors then anchors[d] else {}
    }

    function JournalOf(d: DocId): Option<Journal> {
      if d in rows then rows[d].journal else None
    }

    /** Every chunk the document's row lists, committed or staged. */
    function OwnedChunks(d: DocId): set<ChunkId> {
      if d !in rows then {}
      else Elems(rows[d].chunks) + if rows[d].journal.Some? then Elems(rows[d].journal.value.chunks) else {}
    }

    /** Every graph object the document's durable records name. */
    function Named(d: DocId): set<Candidate> {
      AnchorsOf(d) + if JournalOf(d).Some? then JournalOf(d).value.cands else {}
    }

    /** The stores hold the same objects, and no tracking row is empty. */
    ghost predicate Aligned() {
      && tracking.Keys == graph.Keys == index.Keys
      && forall c | c in tracking :: tracking[c] != []
    }

    /** The graph and the vector stores carry exactly the limited tracking list. */
    ghost predicate Synced() {
      && cap > 0
      && Aligned()
      && index == graph
      && forall c | c in graph :: graph[c] == Limit(tracking[c])
    }

    ghost predicate EndpointsExist() {
      forall c, n | c in graph && c.Relation? && n in c.ends :: Entity(n) in graph
    }

    /** Both ends of an edge carry every source that the edge records. */
    ghost predicate SourcesNested() {
      forall c, n | c in graph && c.Relation? && n in c.ends ::
        Elems(Tracked(c)) <= Elems(Tracked(Entity(n)))
    }

    /** No graph object refers to a chunk that is no longer stored. */
    ghost predicate NoDangling() {
      forall c, ch | c in graph && ch in graph[c] :: ch in text
    }
  }

  /** Every object that records one of the chunks is among the candidates. */
  ghost predicate Complete(s: Store, ids: set<ChunkId>, cands: set<Candidate>) {
    forall c | c in s.tracking && !(Elems(s.tracking[c]) !! ids) :: c in cands
  }

  /**
   * What removing chunks means, said without any protocol: drop the ids from every source list,
   * drop the objects whose list becomes empty, drop the chunks themselves.
   */
  function Survivors(s: Store, ids: set<ChunkId>): set<Candidate> {
    set c | c in s.tracking && Subtract(s.tracking[c], ids) != []
  }

  function Erase(s: Store, ids: set<ChunkId>): Store {
    var kept := map c | c in Survivors(s, ids) :: Subtract(s.tracking[c], ids);
    var limited := map c | c in kept :: s.Limit(kept[c]);
    s.(tracking := kept, graph := limited, index := limited, text := s.text - ids)
  }

  lemma EraseKeepsInvariants(s: Store, ids: set<ChunkId>)
    requires s.Synced() && s.EndpointsExist() && s.SourcesNested()
    ensures Erase(s, ids).Synced()
    ensures Erase(s, ids).EndpointsExist()
    ensures Erase(s, ids).SourcesNested()
    ensures s.text >= (set c, ch | c in s.tracking && ch in s.tracking[c] :: ch) ==> Erase(s, ids).NoDangling()
  {
    var e := Erase(s, ids);
    forall c | c in e.tracking
      ensures Elems(e.tracking[c]) == Elems(s.tracking[c]) - ids
      ensures e.graph[c] == e.Limit(e.tracking[c]) && Elems(e.graph[c]) <= Elems(e.tracking[c])
    {
      SubtractElems(s.tracking[c], ids);
      LimitedElems(e.tracking[c], s.cap, s.fifo);
    }
    forall c, n | c in e.graph && c.Relation? && n in c.ends
      ensures Entity(n) in e.graph && Elems(e.Tracked(c)) <= Elems(e.Tracked(Entity(n)))
    {
      SubtractElems(s.tracking[Entity(n)], ids);
      var kept := e.tracking[c];
      assert kept[0] in Elems(kept);
      assert kept[0] in Elems(s.Tracked(c));
      assert kept[0] in Elems(Subtract(s.tracking[Entity(n)], ids));
    }
    if s.text >= (set c, ch | c in s.tracking && ch in s.tracking[c] :: ch) {
      forall c, ch | c in e.graph && ch in e.graph[c]
        ensures ch in e.text
      {
        assert ch in Elems(e.graph[c]);
        assert ch in Elems(s.tracking[c]) && ch !in ids;
      }
    }
  }
}
