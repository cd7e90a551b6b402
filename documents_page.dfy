/** The documents page: uploads append to the list, and deletion, confirmed
    in a dialog, only filters the list locally. Each handler is a step
    function on the page's state; the `DocumentsView` class holds that state
    in fields and performs the steps. */
module DocumentsPage {
  import opened Results
  import opened Web
  import Lists

  datatype DocumentEntry = DocumentEntry(id: string, name: string)

  /** The key the delete filter compares: a document's id, against an id
      that may be missing (`selectedDocument?.id` with nothing selected). */
  function KeyOf(d: DocumentEntry): Option<string> {
    Some(d.id)
  }

  datatype Docs = Docs(documents: seq<DocumentEntry>, loading: bool, deleteDialogOpen: bool,
                       selectedDocument: Option<DocumentEntry>)

  const Initial := Docs([], false, false, None)

  /** handleFileUpload. `file` is the name of the chosen file, if one was
      chosen; `response` the POST to /upload, whose ok body carries the new
      document's id. */
  function Upload(d: Docs, file: Option<string>, response: Fetch<string>): (e: Docs)
    ensures file.None? ==> e == d
    ensures file.Some? && response.Ok? ==>
      e.documents == d.documents + [DocumentEntry(response.data, file.value)]
    ensures file.Some? && !response.Ok? ==> e.documents == d.documents
    ensures file.Some? ==> !e.loading
    ensures e.deleteDialogOpen == d.deleteDialogOpen && e.selectedDocument == d.selectedDocument
  {
    if file.None? then d
    else if response.Ok? then d.(documents := d.documents + [DocumentEntry(response.data, file.value)], loading := false)
    else d.(loading := false)
  }

  /** handleDelete: every entry with that id leaves the list, with no call to
      the backend; the dialog closes. */
  function Delete(d: Docs, id: Option<string>): (e: Docs)
    ensures e.documents == Lists.RemoveKey(d.documents, KeyOf, id)
    ensures !e.loading && !e.deleteDialogOpen && e.selectedDocument == d.selectedDocument
  {
    d.(documents := Lists.RemoveKey(d.documents, KeyOf, id), loading := false, deleteDialogOpen := false)
  }

  /** With nothing selected the delete button filters nothing out. */
  lemma DeleteWithoutSelectionKeepsList(d: Docs)
    ensures Delete(d, None).documents == d.documents
  {
    Lists.RemoveKeyAbsent(d.documents, KeyOf, None);
  }

  /** Deleting a freshly uploaded document gives back the list as it was
      before the upload, when its id was new. */
  lemma UploadThenDeleteRestores(d: Docs, name: string, id: string)
    requires forall i :: 0 <= i < |d.documents| ==> d.documents[i].id != id
    ensures Delete(Upload(d, Some(name), Ok(id)), Some(id)).documents == d.documents
  {
    var added := DocumentEntry(id, name);
    Lists.RemoveKeyAppend(d.documents, [added], KeyOf, Some(id));
    Lists.RemoveKeyAbsent(d.documents, KeyOf, Some(id));
    assert Lists.RemoveKey([added], KeyOf, Some(id)) == [];
  }

  class DocumentsView {
    var documents: seq<DocumentEntry>
    var loading: bool
    var deleteDialogOpen: bool
    var selectedDocument: Option<DocumentEntry>

    function Snapshot(): Docs
      reads this
    {
      Docs(documents, loading, deleteDialogOpen, selectedDocument)
    }

    constructor ()
      ensures Snapshot() == Initial
    {
      documents := [];
      loading := false;
      deleteDialogOpen := false;
      selectedDocument := None;
    }

    method HandleFileUpload(file: Option<string>, response: Fetch<string>)
      modifies this
      ensures Snapshot() == Upload(old(Snapshot()), file, response)
    {
      if file.None? {
        return;
      }
      loading := true;
      if response.Ok? {
        documents := documents + [DocumentEntry(response.data, file.value)];
      }
      loading := false;
    }

    /** The delete icon of a card. */
    method AskDelete(document: DocumentEntry)
      modifies this
      ensures Snapshot() == old(Snapshot()).(selectedDocument := Some(document), deleteDialogOpen := true)
    {
      selectedDocument := Some(document);
      deleteDialogOpen := true;
    }

    /** The dialog's cancel button and its backdrop. */
    method CloseDialog()
      modifies this
      ensures Snapshot() == old(Snapshot()).(deleteDialogOpen := false)
    {
      deleteDialogOpen := false;
    }

    method HandleDelete(id: Option<string>)
      modifies this
      ensures Snapshot() == Delete(old(Snapshot()), id)
    {
      loading := true;
      documents := Lists.RemoveKey(documents, KeyOf, id);
      loading := false;
      deleteDialogOpen := false;
    }

    /** The dialog's delete button: deletes the remembered document's id. */
    method ConfirmDelete()
      modifies this
      ensures Snapshot() == Delete(old(Snapshot()), if old(selectedDocument).Some? then Some(old(selectedDocument).value.id) else None)
    {
      var id := if selectedDocument.Some? then Some(selectedDocument.value.id) else None;
      HandleDelete(id);
    }
  }
}
