/**
 * The document service: file-type detection from a file name, creation of a document
 * record, and the three listings read from the `documents` node (per user, shared
 * between a lawyer and a client, per appointment).
 *
 * The database node is given as the sequence of its records in snapshot order; a
 * missing node is the empty sequence. `uploadedAt` is the instant its ISO timestamp
 * denotes.
 */
module Documents {
  import opened Wrappers
  import opened Strings
  import opened Lists
  import opened Appointments

  datatype FileType = PDF | DOC | DOCX | TXT | IMAGE

  datatype Document = Document(
    id: string,
    name: string,
    fileName: string,
    fileType: FileType,
    uploadedBy: string,
    lawyerId: string,
    clientId: string,
    appointmentId: Option<string>,
    sharedWithClient: bool,
    uploadedAt: int)

  /** A document without the two fields the service fills in. */
  datatype DocumentData = DocumentData(
    name: string,
    fileName: string,
    fileType: FileType,
    uploadedBy: string,
    lawyerId: string,
    clientId: string,
    appointmentId: Option<string>,
    sharedWithClient: bool)

  const ImageExtensions: set<string> := {"jpg", "jpeg", "png", "gif", "webp"}

  // ---------------------------------------------------------------------------
  // detectFileType
  // ---------------------------------------------------------------------------

  /** `fileName.toLowerCase().split('.').pop() || ''`: the text after the last dot, or
      the whole lower-cased name when it has none. */
  function Extension(fileName: string): string {
    var pieces := Split(Lower(fileName), '.');
    pieces[|pieces| - 1]
  }

  /** The `switch` of `detectFileType`: unknown extensions default to PDF. */
  function TypeOfExtension(ext: string): (r: FileType)
    ensures r == IMAGE <==> ext in ImageExtensions
    ensures r == DOC <==> ext == "doc"
    ensures r == DOCX <==> ext == "docx"
    ensures r == TXT <==> ext == "txt"
    ensures r == PDF <==> ext !in ImageExtensions + {"doc", "docx", "txt"}
  {
    if ext == "pdf" then PDF
    else if ext == "doc" then DOC
    else if ext == "docx" then DOCX
    else if ext == "txt" then TXT
    else if ext in ImageExtensions then IMAGE
    else PDF
  }

  function DetectFileType(fileName: string): FileType {
    TypeOfExtension(Extension(fileName))
  }

  lemma LowerAppend(a: string, b: string)
    ensures Lower(a + b) == Lower(a) + Lower(b)
  {
  }

  lemma LowerKeepsNoDot(s: string)
    requires '.' !in s
    ensures '.' !in Lower(s)
  {
  }

  /** The last piece of `a + sep + b` is `b` when `b` has no separator. */
  lemma {:induction false} LastPieceAfterSeparator(a: string, sep: char, b: string)
    requires sep !in b
    decreases |a|
    ensures |Split(a + [sep] + b, sep)| >= 2
    ensures Split(a + [sep] + b, sep)[|Split(a + [sep] + b, sep)| - 1] == b
  {
    var s := a + [sep] + b;
    if a == [] {
      assert s[1..] == b;
      SplitNoSeparator(b, sep);
    } else {
      assert s[1..] == a[1..] + [sep] + b;
      LastPieceAfterSeparator(a[1..], sep, b);
    }
  }

  /** The type is decided by the lower-cased text after the last dot alone. */
  lemma DetectFileTypeOfExtension(base: string, ext: string)
    requires '.' !in ext
    ensures DetectFileType(base + "." + ext) == TypeOfExtension(Lower(ext))
  {
    LowerAppend(base + ".", ext);
    LowerAppend(base, ".");
    assert Lower(".") == ".";
    LowerKeepsNoDot(ext);
    LastPieceAfterSeparator(Lower(base), '.', Lower(ext));
  }

  /** A name without a dot is its own extension. */
  lemma DetectFileTypeWithoutDot(fileName: string)
    requires '.' !in fileName
    ensures DetectFileType(fileName) == TypeOfExtension(Lower(fileName))
  {
    LowerKeepsNoDot(fileName);
    SplitNoSeparator(Lower(fileName), '.');
  }

  // ---------------------------------------------------------------------------
  // createDocument
  // ---------------------------------------------------------------------------

  function DataOf(d: Document): DocumentData {
    DocumentData(d.name, d.fileName, d.fileType, d.uploadedBy, d.lawyerId, d.clientId,
                 d.appointmentId, d.sharedWithClient)
  }

  /** `{ ...documentData, id: newDocRef.key, uploadedAt: now }`. */
  function CreateDocument(data: DocumentData, key: string, now: int): (r: Document)
    ensures r.id == key && r.uploadedAt == now
    ensures DataOf(r) == data
  {
    Document(key, data.name, data.fileName, data.fileType, data.uploadedBy, data.lawyerId,
             data.clientId, data.appointmentId, data.sharedWithClient, now)
  }

  // ---------------------------------------------------------------------------
  // Listings
  // ---------------------------------------------------------------------------

  /** `getDocumentsForUser`'s test: a lawyer sees the documents of which they are the
      lawyer; anyone else sees those of which they are the client and that are shared. */
  function VisibleTo(userId: string, role: UserRole): Document -> bool {
    (d: Document) => if role == Lawyer then d.lawyerId == userId else d.clientId == userId && d.sharedWithClient
  }

  function SharedBetween(lawyerId: string, clientId: string): Document -> bool {
    (d: Document) => d.lawyerId == lawyerId && d.clientId == clientId
  }

  function OfAppointment(appointmentId: string): Document -> bool {
    (d: Document) => d.appointmentId == Some(appointmentId)
  }

  /** The sort key of `b.uploadedAt - a.uploadedAt`: newest first. */
  function NewestFirstKey(d: Document): int {
    -d.uploadedAt
  }

  predicate NewestFirst(docs: seq<Document>) {
    forall i, j :: 0 <= i < j < |docs| ==> docs[i].uploadedAt >= docs[j].uploadedAt
  }

  /** The `snapshot.forEach` loop: push every record that passes `keep`. */
  method CollectDocuments(all: seq<Document>, keep: Document -> bool) returns (docs: seq<Document>)
    ensures docs == Filter(all, keep)
  {
    docs := [];
    var i := 0;
    while i < |all|
      invariant 0 <= i <= |all|
      invariant docs == Filter(all[..i], keep)
    {
      FilterAppend(all[..i], all[i], keep);
      assert all[..i + 1] == all[..i] + [all[i]];
      if keep(all[i]) {
        docs := docs + [all[i]];
      }
      i := i + 1;
    }
    assert all[..i] == all;
  }

  /** The listed documents are the records that pass `keep`, each as often as it
      occurs, newest first. */
  lemma SortedListing(all: seq<Document>, keep: Document -> bool)
    ensures var r := SortBy(Filter(all, keep), NewestFirstKey);
      && (forall d :: d in r <==> d in all && keep(d))
      && (forall d :: multiset(r)[d] == if keep(d) then multiset(all)[d] else 0)
      && NewestFirst(r)
  {
    var f := Filter(all, keep);
    var r := SortBy(f, NewestFirstKey);
    FilterMembers(all, keep);
    SortBySpec(f, NewestFirstKey);
    forall d ensures multiset(r)[d] == if keep(d) then multiset(all)[d] else 0 {
      FilterMultiset(all, keep, d);
    }
    forall d ensures d in r <==> d in f {
      assert d in r <==> d in multiset(r);
      assert d in f <==> d in multiset(f);
    }
    forall i, j | 0 <= i < j < |r| ensures r[i].uploadedAt >= r[j].uploadedAt {
      assert NewestFirstKey(r[i]) <= NewestFirstKey(r[j]);
    }
  }

  /** `getDocumentsForUser`. */
  method DocumentsForUser(all: seq<Document>, userId: string, role: UserRole)
    returns (docs: seq<Document>)
    ensures docs == SortBy(Filter(all, VisibleTo(userId, role)), NewestFirstKey)
    ensures forall d :: d in docs <==> d in all && VisibleTo(userId, role)(d)
    ensures NewestFirst(docs)
  {
    docs := CollectDocuments(all, VisibleTo(userId, role));
    docs := SortBy(docs, NewestFirstKey);
    SortedListing(all, VisibleTo(userId, role));
  }

  /** `getSharedDocuments`: both ids must match, whether or not the document is shared. */
  method SharedDocuments(all: seq<Document>, lawyerId: string, clientId: string)
    returns (docs: seq<Document>)
    ensures docs == SortBy(Filter(all, SharedBetween(lawyerId, clientId)), NewestFirstKey)
    ensures forall d :: d in docs <==> d in all && d.lawyerId == lawyerId && d.clientId == clientId
    ensures NewestFirst(docs)
  {
    docs := CollectDocuments(all, SharedBetween(lawyerId, clientId));
    docs := SortBy(docs, NewestFirstKey);
    SortedListing(all, SharedBetween(lawyerId, clientId));
  }

  /** `getDocumentsByAppointment`: snapshot order, no sort. */
  method DocumentsByAppointment(all: seq<Document>, appointmentId: string)
    returns (docs: seq<Document>)
    ensures docs == Filter(all, OfAppointment(appointmentId))
    ensures forall d :: d in docs <==> d in all && d.appointmentId == Some(appointmentId)
  {
    docs := CollectDocuments(all, OfAppointment(appointmentId));
    FilterMembers(all, OfAppointment(appointmentId));
  }

  /** `countDocumentsForUser`. */
  method CountDocumentsForUser(all: seq<Document>, userId: string, role: UserRole)
    returns (n: nat)
    ensures n == |Filter(all, VisibleTo(userId, role))|
    ensures n <= |all|
  {
    var docs := DocumentsForUser(all, userId, role);
    n := |docs|;
    SortBySpec(Filter(all, VisibleTo(userId, role)), NewestFirstKey);
    assert |docs| == |multiset(docs)|;
    FilterMembers(all, VisibleTo(userId, role));
  }
}
