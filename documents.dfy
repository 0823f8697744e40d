/**
 * The documents page: the upload form's schema, the upload payload, what the form's
 * `onSubmit` does, the page's mount-time fetch and its delete handler.
 */
module Documents {
  import opened Wrappers
  import opened RecordList
  import opened Thunk
  import opened FormRules
  import opened DocumentSlice

  /** A file the user picked in the browser; its contents are not modelled. */
  datatype FileRef = FileRef(name: string)

  /** The upload form's values: there is no `file` key among them. */
  datatype UploadForm = UploadForm(
    title: string,
    description: string,
    patientId: string,
    doctorId: string,
    isPrivate: bool)

  const InitialUploadForm := UploadForm("", "", "", "", true)

  /** What is sent to the upload thunk: the form values plus the chosen file. */
  datatype UploadPayload = UploadPayload(
    title: string,
    description: string,
    patientId: string,
    doctorId: string,
    isPrivate: bool,
    file: Option<FileRef>)

  /**
   * The schema applied to the form's values and to the value it finds under `file`
   * (`Yup.mixed().required()` fails on a missing file).
   */
  function UploadErrors(v: UploadForm, file: Option<FileRef>): (errs: set<Field>)
    ensures errs <= {Title, File, PatientId, DoctorId}
    ensures Title in errs <==> v.title == ""
    ensures File in errs <==> file.None?
    ensures PatientId in errs <==> v.patientId == ""
    ensures DoctorId in errs <==> v.doctorId == ""
    ensures Description !in errs
  {
    (if !Filled(v.title) then {Title} else {})
    + (if file.None? then {File} else {})
    + (if !Filled(v.patientId) then {PatientId} else {})
    + (if !Filled(v.doctorId) then {DoctorId} else {})
  }

  /**
   * The value the schema finds under `file` when it checks the form: the form values
   * have no such key (the chosen file is kept in separate page state).
   */
  function FormFileValue(v: UploadForm): Option<FileRef> {
    None
  }

  /**
   * Validating the form always reports `file`, whatever the user typed or picked, so the
   * form never reaches its `onSubmit`.
   */
  lemma UploadFormAlwaysRejected(v: UploadForm)
    ensures File in UploadErrors(v, FormFileValue(v))
    ensures UploadErrors(v, FormFileValue(v)) != {}
  {
  }

  /** `{ ...values, file: selectedFile }`. */
  function ComposeUploadPayload(v: UploadForm, selectedFile: Option<FileRef>): (p: UploadPayload)
    ensures p.file == selectedFile
    ensures p.title == v.title && p.description == v.description && p.isPrivate == v.isPrivate
    ensures p.patientId == v.patientId && p.doctorId == v.doctorId
  {
    UploadPayload(v.title, v.description, v.patientId, v.doctorId, v.isPrivate, selectedFile)
  }

  /** The form values a payload was built from. */
  function FormOf(p: UploadPayload): UploadForm {
    UploadForm(p.title, p.description, p.patientId, p.doctorId, p.isPrivate)
  }

  /** The payload carries every form value unchanged and the chosen file, and nothing else. */
  lemma PayloadRoundTrip(v: UploadForm, f: Option<FileRef>, p: UploadPayload)
    ensures FormOf(ComposeUploadPayload(v, f)) == v
    ensures ComposeUploadPayload(v, f).file == f
    ensures ComposeUploadPayload(FormOf(p), p.file) == p
  {
  }

  /**
   * The record whose delete button was pressed survives its own delete whenever its `id`
   * differs from its `_id`.
   */
  lemma {:induction false} ClickedSurvivesDelete(docs: seq<Document>, clicked: Document)
    requires clicked in docs && clicked.id != clicked.mongoId
    ensures clicked in RemoveId(docs, IdOf, clicked.mongoId)
  {
    RemoveIdMembers(docs, IdOf, clicked.mongoId, clicked);
  }

  class DocumentsPage {
    var openDialog: bool
    var selectedFile: Option<FileRef>
    var form: UploadForm
    const store: DocumentStore

    constructor (store: DocumentStore)
      ensures this.store == store
      ensures !openDialog && selectedFile == None && form == InitialUploadForm
    {
      this.store := store;
      openDialog := false;
      selectedFile := None;
      form := InitialUploadForm;
    }

    /** The mount effect: `dispatch(fetchDocuments())`, answered by `server`. */
    method Mount(server: Response<seq<Document>>)
      modifies store
      ensures !store.loading
      ensures server.Ok? ==> store.documents == server.data && store.error == None
      ensures server.Failed? ==> store.documents == old(store.documents)
                                 && store.error == Some(RejectionPayload(server.message, FetchFallback))
    {
      store.DispatchFetch(server);
    }

    method OpenDialog()
      modifies this`openDialog
      ensures openDialog
    {
      openDialog := true;
    }

    method CloseDialog()
      modifies this`openDialog
      ensures !openDialog
    {
      openDialog := false;
    }

    /** `setSelectedFile(event.target.files[0])`: None when nothing was picked. */
    method HandleFileChange(picked: Option<FileRef>)
      modifies this`selectedFile
      ensures selectedFile == picked
    {
      selectedFile := picked;
    }

    /**
     * The form's `onSubmit`: upload the form values with the chosen file, wait for the
     * thunk to settle (`server` answers the payload), then, success or failure alike,
     * close the dialog, reset the form and forget the file.
     */
    method OnSubmit(server: UploadPayload -> Response<Document>)
      modifies this, store
      ensures !openDialog && form == InitialUploadForm && selectedFile == None
      ensures var r := server(ComposeUploadPayload(old(form), old(selectedFile)));
        && !store.loading
        && (r.Ok? ==> store.documents == old(store.documents) + [r.data] && store.error == None)
        && (r.Failed? ==> store.documents == old(store.documents)
                          && store.error == Some(RejectionPayload(r.message, UploadFallback)))
    {
      var documentData := ComposeUploadPayload(form, selectedFile);
      store.DispatchUpload(server(documentData));
      openDialog := false;
      form := InitialUploadForm;
      selectedFile := None;
    }

    /**
     * The delete button of a card: after the user confirms, dispatch the synchronous
     * `deleteDocument` reducer with the record's `_id`; the reducer compares `id`.
     */
    method HandleDelete(confirmed: bool, clicked: Document)
      modifies store
      ensures confirmed ==> store.documents == RemoveId(old(store.documents), IdOf, clicked.mongoId)
                            && !store.loading && store.error == None
      ensures !confirmed ==> store.documents == old(store.documents)
                             && store.loading == old(store.loading) && store.error == old(store.error)
    {
      if confirmed {
        store.DeleteDocument(clicked.mongoId);
      }
    }
  }
}
