/** The client space's presentation of a dossier status: a progress
    percentage, a label and a badge class. Each takes the stored status
    string, so unknown strings are handled too. */
module EspaceClient {
  import opened Domain

  /** `getStatusProgress`. */
  function StatusProgress(status: string): (p: int)
    ensures p in {0, 20, 40, 60, 100}
    ensures 0 <= p <= 100
    ensures !IsKnownStatus(status) ==> p == 0
    ensures IsKnownStatus(status) ==> p > 0
  {
    if status == "en_attente" then 20
    else if status == "documents_recus" then 40
    else if status == "en_analyse" then 60
    else if status == "accepte" then 100
    else if status == "refuse" then 100
    else 0
  }

  /** Position of a status along the pipeline towards acceptance. */
  function Rank(st: DossierStatus): nat {
    match st
    case EnAttente => 0
    case DocumentsRecus => 1
    case EnAnalyse => 2
    case Accepte => 3
    case Refuse => 3
  }

  /** Progress strictly increases along en_attente, documents_recus,
      en_analyse, accepte. */
  lemma ProgressIncreases(a: DossierStatus, b: DossierStatus)
    requires a != Refuse && b != Refuse
    requires Rank(a) < Rank(b)
    ensures StatusProgress(StatusName(a)) < StatusProgress(StatusName(b))
  {
  }

  /** Both outcomes, accepted and refused, show a full bar. */
  lemma TerminalStatusesComplete()
    ensures StatusProgress(StatusName(Accepte)) == 100
    ensures StatusProgress(StatusName(Refuse)) == 100
    ensures forall st :: StatusProgress(StatusName(st)) == 100 <==> st == Accepte || st == Refuse
  {
  }

  /** `getStatusLabel`. */
  function StatusLabel(status: string): (text: string)
    ensures !IsKnownStatus(status) ==> text == status
  {
    if status == "en_attente" then "En attente"
    else if status == "documents_recus" then "Documents reçus"
    else if status == "en_analyse" then "En analyse"
    else if status == "accepte" then "Accepté"
    else if status == "refuse" then "Refusé"
    else status
  }

  /** The five statuses get five different labels. */
  lemma LabelsDistinct(a: DossierStatus, b: DossierStatus)
    requires a != b
    ensures StatusLabel(StatusName(a)) != StatusLabel(StatusName(b))
  {
  }

  const SuccessClass: string := "bg-success text-success-foreground"
  const DestructiveClass: string := "bg-destructive text-destructive-foreground"
  const WarningClass: string := "bg-warning text-warning-foreground"
  const SecondaryClass: string := "bg-secondary text-secondary-foreground"

  /** `getStatusColor`: only accepted, refused and under-analysis dossiers get
      their own class; everything else, known or not, is secondary. */
  function StatusColor(status: string): (cls: string)
    ensures cls == SuccessClass <==> status == "accepte"
    ensures cls == DestructiveClass <==> status == "refuse"
    ensures cls == WarningClass <==> status == "en_analyse"
    ensures cls == SecondaryClass <==> status !in {"accepte", "refuse", "en_analyse"}
  {
    if status == "accepte" then SuccessClass
    else if status == "refuse" then DestructiveClass
    else if status == "en_analyse" then WarningClass
    else SecondaryClass
  }
}
