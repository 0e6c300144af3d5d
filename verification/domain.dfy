/** The two enumerations of the application's database schema: the account
    role and the status of a client's dossier. The pages carry a status as a
    string; `StatusName` gives that string. */
module Domain {
  import opened Wrappers

  /** `app_role`: a broker ("courtier") or one of the broker's clients. */
  datatype Role = Courtier | Client

  /** `statut_dossier`, in pipeline order. */
  datatype DossierStatus = EnAttente | DocumentsRecus | EnAnalyse | Accepte | Refuse

  function StatusName(st: DossierStatus): string {
    match st
    case EnAttente => "en_attente"
    case DocumentsRecus => "documents_recus"
    case EnAnalyse => "en_analyse"
    case Accepte => "accepte"
    case Refuse => "refuse"
  }

  /** The status a stored string denotes, if it is one of the five. */
  function ParseStatus(s: string): (r: Option<DossierStatus>)
    ensures r.Some? ==> StatusName(r.value) == s
    ensures r.None? ==> forall st :: StatusName(st) != s
  {
    if s == "en_attente" then Some(EnAttente)
    else if s == "documents_recus" then Some(DocumentsRecus)
    else if s == "en_analyse" then Some(EnAnalyse)
    else if s == "accepte" then Some(Accepte)
    else if s == "refuse" then Some(Refuse)
    else None
  }

  /** Status names are distinct, so a name parses back to its status. */
  lemma ParseStatusName(st: DossierStatus)
    ensures ParseStatus(StatusName(st)) == Some(st)
  {
  }

  /** A string denotes one of the five statuses. */
  predicate IsKnownStatus(s: string) {
    ParseStatus(s).Some?
  }
}
