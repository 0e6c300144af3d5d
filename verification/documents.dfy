/** The documents page: search on the document name with type and status
    filters, and the upload dialog. */
module Documents {
  import opened Text
  import opened Seqs
  import opened Filters

  datatype Document = Document(
    id: int,
    nom: string,
    kind: string,
    dossier: string,
    dossierId: int,
    dateUpload: string,
    statut: string,
    taille: string,
    format: string)

  /** The search box looks only at the lower-cased name; each filter is off
      or names its value. */
  predicate MatchesDocument(d: Document, term: string, kind: string, statut: string) {
    && Contains(Lower(d.nom), Lower(term))
    && FilterAdmits(kind, d.kind)
    && FilterAdmits(statut, d.statut)
  }

  /** `filteredDocuments`. */
  function FilterDocuments(ds: seq<Document>, term: string, kind: string, statut: string): (r: seq<Document>)
    ensures IsSubsequence(r, ds)
    ensures forall d :: d in r ==> d in ds && MatchesDocument(d, term, kind, statut)
    ensures forall d :: d in ds && MatchesDocument(d, term, kind, statut) ==> d in r
    ensures forall d :: d in ds ==>
              multiset(r)[d] == if MatchesDocument(d, term, kind, statut) then multiset(ds)[d] else 0
  {
    Filter(ds, (d: Document) => MatchesDocument(d, term, kind, statut))
  }

  /** An empty search with both filters off shows every document. */
  lemma FilterDocumentsOff(ds: seq<Document>)
    ensures FilterDocuments(ds, "", Tous, Tous) == ds
  {
    FilterKeepsAll(ds, (d: Document) => MatchesDocument(d, "", Tous, Tous));
  }

  /** The search never looks at the type or dossier text: a document whose
      name does not contain the term is left out, whatever those say. */
  lemma SearchIgnoresTypeAndDossier(ds: seq<Document>, term: string, kind: string, statut: string, d: Document)
    requires d in ds
    requires !Contains(Lower(d.nom), Lower(term))
    ensures d !in FilterDocuments(ds, term, kind, statut)
  {
  }

  /** The page's state that the handlers touch. */
  datatype DocumentsPage = DocumentsPage(
    documents: seq<Document>,
    searchTerm: string,
    filterType: string,
    filterStatut: string,
    openDialog: bool)

  /** `handleUpload`: only the dialog closes; the list is not changed. */
  function Upload(p: DocumentsPage): (r: DocumentsPage)
    ensures !r.openDialog
    ensures r.documents == p.documents
    ensures FilterDocuments(r.documents, r.searchTerm, r.filterType, r.filterStatut)
         == FilterDocuments(p.documents, p.searchTerm, p.filterType, p.filterStatut)
  {
    p.(openDialog := false)
  }
}
