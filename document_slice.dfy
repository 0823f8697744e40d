/**
 * The document container: an ordered list of document records with a `loading` flag
 * and an optional `error` message, its six synchronous reducers and the nine lifecycle
 * reducers of the fetch, upload and delete thunks.
 */
module DocumentSlice {
  import opened Wrappers
  import opened RecordList
  import opened Thunk

  /**
   * A document as the server returns it.  `id` is the field the reducers compare;
   * `mongoId` is the `_id` field the Documents page reads.
   */
  datatype Document = Document(
    id: Id,
    mongoId: Id,
    title: string,
    description: string,
    patientId: string,
    doctorId: string,
    fileUrl: string,
    uploadDate: string,
    isPrivate: bool)

  /** The key every reducer matches on: `doc.id`. */
  function IdOf(d: Document): Id { d.id }

  const FetchFallback := "Failed to fetch documents"
  const UploadFallback := "Upload failed"
  const DeleteFallback := "Delete failed"

  class DocumentStore {
    var documents: seq<Document>
    var loading: bool
    var error: Option<string>

    /** `initialState`. */
    constructor ()
      ensures documents == [] && !loading && error == None
    {
      documents := [];
      loading := false;
      error := None;
    }

    // ---- synchronous reducers ----

    method SetDocuments(payload: seq<Document>)
      modifies this
      ensures documents == payload && !loading && error == None
    {
      documents := payload;
      loading := false;
      error := None;
    }

    method AddDocument(payload: Document)
      modifies this
      ensures documents == old(documents) + [payload]
      ensures !loading && error == None
    {
      documents := documents + [payload];
      loading := false;
      error := None;
    }

    method UpdateDocument(payload: Document)
      modifies this
      ensures documents == ReplaceFirst(old(documents), IdOf, payload)
      ensures !loading && error == None
    {
      var index := FindIndex(documents, IdOf, payload.id);
      if index != -1 {
        documents := documents[index := payload];
      }
      loading := false;
      error := None;
    }

    method DeleteDocument(payload: Id)
      modifies this
      ensures documents == RemoveId(old(documents), IdOf, payload)
      ensures !loading && error == None
    {
      documents := RemoveId(documents, IdOf, payload);
      loading := false;
      error := None;
    }

    method SetLoading(payload: bool)
      modifies this`loading
      ensures loading == payload
    {
      loading := payload;
    }

    method SetError(payload: Option<string>)
      modifies this`error, this`loading
      ensures error == payload && !loading
    {
      error := payload;
      loading := false;
    }

    // ---- lifecycle reducers (extraReducers) ----

    /** Shared by the three `pending` cases. */
    method Pending()
      modifies this`loading, this`error
      ensures loading && error == None
    {
      loading := true;
      error := None;
    }

    /** Shared by the three `rejected` cases. */
    method Rejected(payload: string)
      modifies this`loading, this`error
      ensures !loading && error == Some(payload)
    {
      loading := false;
      error := Some(payload);
    }

    method FetchFulfilled(payload: seq<Document>)
      modifies this`loading, this`documents
      ensures !loading && documents == payload
    {
      loading := false;
      documents := payload;
    }

    method UploadFulfilled(payload: Document)
      modifies this`loading, this`documents
      ensures !loading && documents == old(documents) + [payload]
    {
      loading := false;
      documents := documents + [payload];
    }

    method DeleteFulfilled(payload: Id)
      modifies this`loading, this`documents
      ensures !loading && documents == RemoveId(old(documents), IdOf, payload)
    {
      loading := false;
      documents := RemoveId(documents, IdOf, payload);
    }

    // ---- one dispatch of each thunk: pending, then the terminal case ----

    /** `dispatch(fetchDocuments())` with the server's answer `r`. */
    method DispatchFetch(r: Response<seq<Document>>)
      modifies this
      ensures !loading
      ensures r.Ok? ==> documents == r.data && error == None
      ensures r.Failed? ==> documents == old(documents)
                            && error == Some(RejectionPayload(r.message, FetchFallback))
    {
      Pending();
      match Settle(r, FetchFallback)
      case Fulfilled(v) => FetchFulfilled(v);
      case Rejected(p) => Rejected(p);
    }

    /** `dispatch(uploadDocument(data))` with the server's answer `r`. */
    method DispatchUpload(r: Response<Document>)
      modifies this
      ensures !loading
      ensures r.Ok? ==> documents == old(documents) + [r.data] && error == None
      ensures r.Failed? ==> documents == old(documents)
                            && error == Some(RejectionPayload(r.message, UploadFallback))
    {
      Pending();
      match Settle(r, UploadFallback)
      case Fulfilled(v) => UploadFulfilled(v);
      case Rejected(p) => Rejected(p);
    }

    /** `dispatch(deleteDocumentAsync(documentId))`; on success the thunk returns `documentId`. */
    method DispatchDelete(documentId: Id, r: Response<()>)
      modifies this
      ensures !loading
      ensures r.Ok? ==> documents == RemoveId(old(documents), IdOf, documentId) && error == None
      ensures r.Failed? ==> documents == old(documents)
                            && error == Some(RejectionPayload(r.message, DeleteFallback))
    {
      Pending();
      match Settle(r, DeleteFallback)
      case Fulfilled(_) => DeleteFulfilled(documentId);
      case Rejected(p) => Rejected(p);
    }
  }

  /**
   * Deleting by a record's `_id` (as the Documents page does) changes the list exactly
   * when some record's `id` equals that `_id`.
   */
  lemma {:induction false} DeleteByMongoIdChanges(docs: seq<Document>, clicked: Document)
    ensures RemoveId(docs, IdOf, clicked.mongoId) != docs
            <==> exists j :: 0 <= j < |docs| && docs[j].id == clicked.mongoId
  {
    RemoveIdNoOp(docs, IdOf, clicked.mongoId);
  }

  /**
   * When the records carry only `_id` (their `id` is undefined), deleting by a defined
   * `_id` never removes anything, not even the record that was clicked.
   */
  lemma {:induction false} DeleteByMongoIdKeepsClicked(docs: seq<Document>, clicked: Document)
    requires forall j :: 0 <= j < |docs| ==> docs[j].id == None
    requires clicked.mongoId.Some?
    ensures RemoveId(docs, IdOf, clicked.mongoId) == docs
  {
    RemoveIdNoOp(docs, IdOf, clicked.mongoId);
  }
}
