/**
 * The download store of generated documents (rag-juridique/api/routes/downloads.py): an
 * in-memory dictionary from download id to document, each entry expiring 24 hours after
 * it was stored.
 *
 * Times are integer seconds passed in as `now`; the id of a new entry is the parameter
 * `freshId` (a random UUID in the service). HTTP failures are the status codes 404, 410
 * and 500. Whether `base64.b64decode` accepts a content, and whether the temporary file
 * of a download can be written, are parameters.
 */
module Downloads {
  import opened Wrappers
  import opened Strings

  /** How long a stored document can be downloaded, in seconds (24 hours). */
  const DownloadExpiry: int := 24 * 60 * 60

  const NotFound: int := 404
  const Expired: int := 410
  const ServerError: int := 500

  datatype StoredDocument = StoredDocument(
    content: string,
    filename: string,
    contentType: string,
    createdAt: int,
    expiresAt: int)

  /** What `store_document` answers. */
  datatype StoreReceipt = StoreReceipt(documentId: string, downloadUrl: string, expiresAt: int)

  /** A document has expired once the clock is strictly past its expiry time. */
  predicate IsExpired(doc: StoredDocument, now: int) {
    now > doc.expiresAt
  }

  /** The entries a sweep at `now` keeps. */
  function Unexpired(docs: map<string, StoredDocument>, now: int): (r: map<string, StoredDocument>)
    ensures forall id :: id in r <==> id in docs && !IsExpired(docs[id], now)
    ensures forall id :: id in r ==> r[id] == docs[id]
  {
    map id | id in docs && !IsExpired(docs[id], now) :: docs[id]
  }

  /** The ids a sweep at `now` removes. */
  function ExpiredIds(docs: map<string, StoredDocument>, now: int): (r: set<string>)
    ensures forall id :: id in r <==> id in docs && IsExpired(docs[id], now)
  {
    set id | id in docs && IsExpired(docs[id], now)
  }

  /** A sweep removes and keeps between them every entry exactly once. */
  lemma SweepPartition(docs: map<string, StoredDocument>, now: int)
    ensures |ExpiredIds(docs, now)| + |Unexpired(docs, now)| == |docs|
  {
    var gone := ExpiredIds(docs, now);
    var kept := Unexpired(docs, now).Keys;
    assert gone + kept == docs.Keys;
    assert gone * kept == {};
    assert |Unexpired(docs, now).Keys| == |Unexpired(docs, now)|;
  }

  class DownloadStore {
    var documents: map<string, StoredDocument>

    constructor()
      ensures documents == map[]
    {
      documents := map[];
    }

    /** Stores a document under `freshId`; it expires 24 hours after `now`. */
    method StoreDocument(freshId: string, content: string, filename: string,
                         contentType: string, now: int) returns (receipt: StoreReceipt)
      modifies this
      ensures documents == old(documents)[freshId :=
        StoredDocument(content, filename, contentType, now, now + DownloadExpiry)]
      ensures receipt.documentId == freshId
      ensures receipt.downloadUrl == "/api/v1/download/" + freshId
      ensures receipt.expiresAt == now + DownloadExpiry
    {
      documents := documents[freshId :=
        StoredDocument(content, filename, contentType, now, now + DownloadExpiry)];
      receipt := StoreReceipt(freshId, "/api/v1/download/" + freshId, now + DownloadExpiry);
    }

    /**
     * Looks a document up for download: 404 when the id is unknown; 410 when it has
     * expired, in which case the entry is dropped; 500 when a content whose type is not
     * `text/...` is not valid base64, or when the temporary file cannot be written; the
     * document otherwise. Only the 410 case changes the store.
     */
    method DownloadDocument(documentId: string, now: int, decodes: string -> bool, writeOk: bool)
      returns (r: Result<StoredDocument, int>)
      modifies this
      ensures documentId !in old(documents) ==> r == Err(NotFound) && documents == old(documents)
      ensures documentId in old(documents) && IsExpired(old(documents)[documentId], now) ==>
        r == Err(Expired) && documents == old(documents) - {documentId}
      ensures documentId in old(documents) && !IsExpired(old(documents)[documentId], now) ==>
        var doc := old(documents)[documentId];
        && documents == old(documents)
        && (r == Ok(doc) <==> writeOk && (StartsWith(doc.contentType, "text/") || decodes(doc.content)))
        && (r != Ok(doc) ==> r == Err(ServerError))
    {
      if documentId !in documents {
        return Err(NotFound);
      }
      var doc := documents[documentId];
      if now > doc.expiresAt {
        documents := documents - {documentId};
        return Err(Expired);
      }
      if !StartsWith(doc.contentType, "text/") && !decodes(doc.content) {
        return Err(ServerError);
      }
      if !writeOk {
        return Err(ServerError);
      }
      r := Ok(doc);
    }

    /** Deletes exactly that document, or answers 404 when there is none. */
    method DeleteDocument(documentId: string) returns (r: Result<string, int>)
      modifies this
      ensures documentId in old(documents) ==>
        r == Ok(documentId) && documents == old(documents) - {documentId}
      ensures documentId !in old(documents) ==> r == Err(NotFound) && documents == old(documents)
    {
      if documentId in documents {
        documents := documents - {documentId};
        r := Ok(documentId);
      } else {
        r := Err(NotFound);
      }
    }

    /** Removes every expired document; the counts of removed and remaining entries add up
        to the size of the store before the sweep. */
    method CleanupExpiredDocuments(now: int) returns (cleaned: nat, remaining: nat)
      modifies this
      ensures documents == Unexpired(old(documents), now)
      ensures cleaned == |ExpiredIds(old(documents), now)|
      ensures remaining == |documents|
      ensures cleaned + remaining == |old(documents)|
    {
      var expiredIds := set id | id in documents && now > documents[id].expiresAt;
      ghost var before := documents;
      var todo := expiredIds;
      while todo != {}
        invariant todo <= expiredIds
        invariant documents == before - (expiredIds - todo)
        decreases |todo|
      {
        var id :| id in todo;
        documents := documents - {id};
        todo := todo - {id};
      }
      assert expiredIds == ExpiredIds(before, now);
      assert documents == Unexpired(before, now);
      SweepPartition(before, now);
      cleaned := |expiredIds|;
      remaining := |documents|;
    }
  }
}
