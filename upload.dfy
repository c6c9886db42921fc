/**
 * The upload list (src/components/UploadScreen.tsx): a list of documents
 * to which a drop prepends a new entry in the uploading state, a drag-over
 * flag, the status texts, and the test that gates the "process" action.
 */
module Upload {
  import opened Wrappers

  datatype UploadStatus = Uploading | Completed | Error

  /** The screen's `Document` record. */
  datatype Document = Document(id: string, name: string, size: string, status: UploadStatus, progress: int)

  /** The list the screen starts with. */
  const InitialDocuments: seq<Document> := [
    Document("1", "Contrato_Fornecedor_ABC.pdf", "2.4 MB", Completed, 100),
    Document("2", "Relatório_Financeiro_Q1.xlsx", "1.8 MB", Uploading, 67),
    Document("3", "Proposta_Comercial_2024.docx", "890 KB", Error, 0)
  ]

  /** The entry a drop creates; `id` stands for `Date.now().toString()`. */
  function NewDocument(id: string): (d: Document)
    ensures d.id == id && d.status == Uploading && d.progress == 0
  {
    Document(id, "Novo_Documento.pdf", "1.2 MB", Uploading, 0)
  }

  /** `documents.some(doc => doc.status === 'completed')`. */
  function HasCompletedDocuments(docs: seq<Document>): (b: bool)
    ensures b <==> exists i :: 0 <= i < |docs| && docs[i].status == Completed
  {
    if docs == [] then false
    else if docs[0].status == Completed then true
    else
      var rest := HasCompletedDocuments(docs[1..]);
      assert forall i :: 1 <= i < |docs| ==> docs[i] == docs[1..][i - 1];
      rest
  }

  /** A drop never changes whether the list holds a completed document. */
  lemma DropKeepsCompletion(docs: seq<Document>, id: string)
    ensures HasCompletedDocuments([NewDocument(id)] + docs) == HasCompletedDocuments(docs)
  {
  }

  /** `getStatusText`, defined for each of the three statuses. */
  function StatusText(s: UploadStatus): (text: string)
    ensures text == "Concluído" <==> s == Completed
    ensures text == "Enviando" <==> s == Uploading
    ensures text == "Erro" <==> s == Error
  {
    match s
    case Completed => "Concluído"
    case Uploading => "Enviando"
    case Error => "Erro"
  }

  /** Different statuses are shown with different texts. */
  lemma StatusTextInjective(s: UploadStatus, t: UploadStatus)
    ensures StatusText(s) == StatusText(t) ==> s == t
  {
  }

  /** The progress bar of a list entry: present, with the entry's progress, only while it is uploading. */
  function ProgressBar(d: Document): (bar: Option<int>)
    ensures bar.Some? <==> d.status == Uploading
    ensures bar.Some? ==> bar.value == d.progress
  {
    if d.status == Uploading then Some(d.progress) else None
  }

  /** The screen "Processar Documentos" navigates to, offered only when some document is completed. */
  function ProcessAction(docs: seq<Document>): (target: Option<string>)
    ensures target.Some? <==> exists i :: 0 <= i < |docs| && docs[i].status == Completed
    ensures target.Some? ==> target.value == "processing"
  {
    if HasCompletedDocuments(docs) then Some("processing") else None
  }

  /** The screen's `documents` and `isDragOver` state cells. */
  class UploadScreen {
    var documents: seq<Document>
    var isDragOver: bool

    constructor ()
      ensures documents == InitialDocuments && !isDragOver
      ensures HasCompletedDocuments(documents)
    {
      documents := InitialDocuments;
      isDragOver := false;
      assert InitialDocuments[0].status == Completed;
    }

    /** `handleDragOver`. */
    method HandleDragOver()
      modifies this
      ensures isDragOver && documents == old(documents)
    {
      isDragOver := true;
    }

    /** `handleDragLeave`. */
    method HandleDragLeave()
      modifies this
      ensures !isDragOver && documents == old(documents)
    {
      isDragOver := false;
    }

    /** `handleDrop`: clear the flag and put a new uploading entry at the head of the list. */
    method HandleDrop(id: string)
      modifies this
      ensures !isDragOver
      ensures |documents| == |old(documents)| + 1
      ensures documents[0] == NewDocument(id) && documents[1..] == old(documents)
      ensures HasCompletedDocuments(documents) == HasCompletedDocuments(old(documents))
    {
      isDragOver := false;
      DropKeepsCompletion(documents, id);
      documents := [NewDocument(id)] + documents;
    }
  }
}
