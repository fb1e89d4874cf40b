// backend/app/services/storage_service.py: the registry of per-document
// vector indexes, with duplicate documents linked to an original's index.

module StorageService {
  import opened Common
  import MapSum

  /** A retrieved text node; its content is opaque here. */
  datatype Node = Node(id: string)

  /** A vector index over a document's nodes, opaque apart from its nodes. */
  datatype VectorIndex = VectorIndex(nodes: seq<Node>)

  /** One `_metadata` entry; `linkedTo` is present only for links. */
  datatype IndexMeta = IndexMeta(createdAt: int, nodeCount: nat, documentId: string, linkedTo: Option<string>)

  datatype StorageInfo = StorageInfo(
    totalIndexes: nat,
    totalDocuments: nat,
    totalNodes: nat,
    linkedDocuments: nat,
    indexIds: set<string>,
    links: map<string, string>)

  function NodeCount(m: IndexMeta): nat { m.nodeCount }

  function Lookup(m: map<string, VectorIndex>, key: string): (r: Option<VectorIndex>)
    ensures r.Some? <==> key in m
    ensures r.Some? ==> r.value == m[key]
  {
    if key in m then Some(m[key]) else None
  }

  class Storage {
    var indexes: map<string, VectorIndex>
    var metadata: map<string, IndexMeta>
    /** duplicate document id -> original document id */
    var links: map<string, string>

    /** Every link points at a document that has an index. */
    ghost predicate Valid()
      reads this
    {
      forall d :: d in links ==> links[d] in indexes
    }

    constructor()
      ensures Valid()
      ensures indexes == map[] && metadata == map[] && links == map[]
    {
      indexes := map[];
      metadata := map[];
      links := map[];
    }

    /** `create_index`: stores the index and its metadata under the id. */
    method CreateIndex(documentId: string, nodes: seq<Node>, now: int) returns (id: string)
      requires Valid()
      modifies this
      ensures Valid()
      ensures id == documentId
      ensures indexes == old(indexes)[documentId := VectorIndex(nodes)]
      ensures metadata == old(metadata)[documentId := IndexMeta(now, |nodes|, documentId, None)]
      ensures links == old(links)
    {
      indexes := indexes[documentId := VectorIndex(nodes)];
      metadata := metadata[documentId := IndexMeta(now, |nodes|, documentId, None)];
      return documentId;
    }

    /** `link_index`. The link is written before the original's metadata is
      * read, so when the original has an index but no metadata (its own
      * metadata was dropped by `delete_index` while others linked to it) the
      * KeyError makes the call return false with the link already in place. */
    method LinkIndex(newId: string, existingId: string, now: int) returns (ok: bool)
      requires Valid()
      modifies this
      ensures Valid()
      ensures indexes == old(indexes)
      ensures existingId !in old(indexes) ==>
        !ok && links == old(links) && metadata == old(metadata)
      ensures existingId in old(indexes) ==> links == old(links)[newId := existingId]
      ensures existingId in old(indexes) && existingId !in old(metadata) ==>
        !ok && metadata == old(metadata)
      ensures ok <==> existingId in old(indexes) && existingId in old(metadata)
      ensures ok ==> metadata == old(metadata)[newId :=
        IndexMeta(now, old(metadata)[existingId].nodeCount, newId, Some(existingId))]
    {
      if existingId !in indexes {
        return false;
      }
      links := links[newId := existingId];
      if existingId !in metadata {
        return false;
      }
      metadata := metadata[newId := IndexMeta(now, metadata[existingId].nodeCount, newId, Some(existingId))];
      return true;
    }

    /** `get_index`: a linked id resolves through its link. */
    method GetIndex(documentId: string) returns (r: Option<VectorIndex>)
      ensures documentId in links ==> r == Lookup(indexes, links[documentId])
      ensures documentId !in links ==> r == Lookup(indexes, documentId)
      ensures Valid() && documentId in links ==> r == Some(indexes[links[documentId]])
    {
      if documentId in links {
        r := Lookup(indexes, links[documentId]);
      } else {
        r := Lookup(indexes, documentId);
      }
    }

    /** `delete_index`: a link loses its link and metadata; an original that
      * others link to keeps its index and loses only its metadata; any other
      * document loses its index and metadata. */
    method DeleteIndex(documentId: string) returns (ok: bool)
      requires Valid()
      modifies this
      ensures Valid()
      ensures ok
      ensures documentId in old(links) ==>
        links == old(links) - {documentId} && metadata == old(metadata) - {documentId}
        && indexes == old(indexes)
      ensures documentId !in old(links) && (exists d :: d in old(links) && old(links)[d] == documentId) ==>
        links == old(links) && metadata == old(metadata) - {documentId} && indexes == old(indexes)
      ensures documentId !in old(links) && (forall d :: d in old(links) ==> old(links)[d] != documentId) ==>
        links == old(links) && metadata == old(metadata) - {documentId}
        && indexes == old(indexes) - {documentId}
    {
      if documentId in links {
        links := links - {documentId};
        metadata := metadata - {documentId};
      } else if exists d :: d in links && links[d] == documentId {
        metadata := metadata - {documentId};
      } else {
        indexes := indexes - {documentId};
        metadata := metadata - {documentId};
      }
      return true;
    }

    /** `get_total_chunks`: the node counts summed over every metadata entry. */
    method GetTotalChunks() returns (total: nat)
      ensures total == MapSum.Sum(metadata, NodeCount)
    {
      total := 0;
      var rest := metadata;
      while rest != map[]
        invariant total + MapSum.Sum(rest, NodeCount) == MapSum.Sum(metadata, NodeCount)
        decreases |rest|
      {
        var k :| k in rest;
        MapSum.SumRemove(rest, NodeCount, k);
        MapSum.RemoveShrinks(rest, k);
        total := total + rest[k].nodeCount;
        rest := rest - {k};
      }
    }

    /** `get_storage_info` */
    method GetStorageInfo() returns (info: StorageInfo)
      ensures info.totalIndexes == |indexes| && info.totalDocuments == |metadata|
      ensures info.linkedDocuments == |links| && info.links == links
      ensures info.indexIds == indexes.Keys
      ensures info.totalNodes == MapSum.Sum(metadata, NodeCount)
    {
      var total := GetTotalChunks();
      info := StorageInfo(|indexes|, |metadata|, total, |links|, indexes.Keys, links);
    }
  }

  /** Deleting an original that others still link to leaves its index but no
    * metadata; a later link to it is then written although the call fails. */
  method LinkAfterDeletingLinkedOriginal() returns (ok: bool, linkWritten: bool, metadataWritten: bool)
    ensures !ok && linkWritten && !metadataWritten
  {
    var s := new Storage();
    var _ := s.CreateIndex("orig", [Node("n1")], 1);
    var ok1 := s.LinkIndex("dup", "orig", 2);
    assert ok1 && "orig" !in s.links && s.links["dup"] == "orig";
    var _ := s.DeleteIndex("orig");
    assert "orig" in s.indexes && "orig" !in s.metadata;
    ok := s.LinkIndex("dup2", "orig", 3);
    linkWritten := "dup2" in s.links;
    metadataWritten := "dup2" in s.metadata;
  }
}
