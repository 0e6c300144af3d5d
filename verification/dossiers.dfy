/** The dossiers page: search and status filter, the per-status pipeline
    counts, temporary-password generation and granting a client access. */
module Dossiers {
  import opened Wrappers
  import opened Text
  import opened Seqs
  import opened Filters
  import opened Domain

  /** The pipeline's steps, in display order (`statusSteps`). */
  const Steps: seq<DossierStatus> := [EnAttente, DocumentsRecus, EnAnalyse, Accepte, Refuse]

  /** Login details handed to a client. */
  datatype Credentials = Credentials(email: string, tempPassword: string)

  /** A client's dossier. `statut` is the stored status string. */
  datatype Dossier = Dossier(
    id: int,
    clientNom: string,
    clientEmail: string,
    kind: string,
    montant: int,
    banque: string,
    statut: string,
    aUnAccesClient: bool,
    credentials: Option<Credentials>)

  /** The search box and status filter keep a dossier: the lower-cased term
      occurs in its lower-cased client name or e-mail, and the status filter is
      off or names its status. */
  predicate MatchesDossier(d: Dossier, term: string, statut: string) {
    && (Contains(Lower(d.clientNom), Lower(term)) || Contains(Lower(d.clientEmail), Lower(term)))
    && FilterAdmits(statut, d.statut)
  }

  /** `filteredDossiers`. */
  function FilterDossiers(ds: seq<Dossier>, term: string, statut: string): (r: seq<Dossier>)
    ensures IsSubsequence(r, ds)
    ensures forall d :: d in r ==> d in ds && MatchesDossier(d, term, statut)
    ensures forall d :: d in ds && MatchesDossier(d, term, statut) ==> d in r
    ensures forall d :: d in ds ==>
              multiset(r)[d] == if MatchesDossier(d, term, statut) then multiset(ds)[d] else 0
  {
    Filter(ds, (d: Dossier) => MatchesDossier(d, term, statut))
  }

  /** An empty search with the filter off shows every dossier. */
  lemma FilterDossiersOff(ds: seq<Dossier>)
    ensures FilterDossiers(ds, "", Tous) == ds
  {
    FilterKeepsAll(ds, (d: Dossier) => MatchesDossier(d, "", Tous));
  }

  /** The status strings of a list of dossiers, in order. */
  function Statuts(ds: seq<Dossier>): (r: seq<string>)
    ensures |r| == |ds|
    ensures forall i :: 0 <= i < |ds| ==> r[i] == ds[i].statut
  {
    seq(|ds|, i requires 0 <= i < |ds| => ds[i].statut)
  }

  /** The pipeline figure shown under a step: how many dossiers have that status. */
  function PipelineCount(ds: seq<Dossier>, step: DossierStatus): (n: nat)
    ensures n <= |ds|
    ensures n == 0 <==> forall i :: 0 <= i < |ds| ==> ds[i].statut != StatusName(step)
  {
    var p := (d: Dossier) => d.statut == StatusName(step);
    var r := Filter(ds, p);
    assert |r| == 0 <==> forall i :: 0 <= i < |ds| ==> ds[i].statut != StatusName(step) by {
      if forall i :: 0 <= i < |ds| ==> ds[i].statut != StatusName(step) {
        FilterKeepsNone(ds, p);
      } else {
        var i :| 0 <= i < |ds| && ds[i].statut == StatusName(step);
        assert ds[i] in r;
      }
    }
    |r|
  }

  /** Each pipeline count is the number of occurrences of that status name
      among the dossiers' statuses. */
  lemma {:induction false} PipelineCountIsMultiplicity(ds: seq<Dossier>, step: DossierStatus)
    ensures PipelineCount(ds, step) == multiset(Statuts(ds))[StatusName(step)]
  {
    if |ds| > 0 {
      PipelineCountIsMultiplicity(ds[1..], step);
      assert Statuts(ds) == [ds[0].statut] + Statuts(ds[1..]);
    }
  }

  /** When every dossier has one of the five statuses, the five pipeline
      counts add up to the number of dossiers. */
  lemma {:induction false} PipelineCountsCoverAll(ds: seq<Dossier>)
    requires forall i :: 0 <= i < |ds| ==> IsKnownStatus(ds[i].statut)
    ensures PipelineCount(ds, EnAttente) + PipelineCount(ds, DocumentsRecus) + PipelineCount(ds, EnAnalyse)
            + PipelineCount(ds, Accepte) + PipelineCount(ds, Refuse) == |ds|
  {
    if |ds| > 0 {
      PipelineCountsCoverAll(ds[1..]);
      var st := ParseStatus(ds[0].statut).value;
      assert StatusName(st) == ds[0].statut;
    }
  }

  /** The number `generateTempPassword` draws: `Math.floor(1000 + draw * 9000)`
      for a uniform draw in [0, 1). */
  function PinFromDraw(draw: real): (n: int)
    requires 0.0 <= draw < 1.0
    ensures 1000 <= n <= 9999
  {
    (1000.0 + draw * 9000.0).Floor
  }

  /** `generateTempPassword`: "Crt", four decimal digits, "!". */
  function TempPassword(draw: real): (pw: string)
    requires 0.0 <= draw < 1.0
    ensures |pw| == 8
    ensures pw[..3] == "Crt" && pw[7] == '!'
    ensures forall i :: 3 <= i < 7 ==> IsDigit(pw[i])
    ensures DecimalValue(pw[3..7]) == PinFromDraw(draw)
  {
    var n := PinFromDraw(draw);
    FourDigits(n);
    DecimalRoundTrip(n);
    var pw := "Crt" + Digits(n) + "!";
    assert pw[3..7] == Digits(n);
    pw
  }

  /** The first dossier with this id (`dossiers.find`). */
  function FindById(ds: seq<Dossier>, id: int): (r: Option<Dossier>)
    ensures r.None? <==> forall i :: 0 <= i < |ds| ==> ds[i].id != id
    ensures r.Some? ==> exists i :: 0 <= i < |ds| && ds[i] == r.value && ds[i].id == id &&
                                    forall j :: 0 <= j < i ==> ds[j].id != id
  {
    if |ds| == 0 then None
    else if ds[0].id == id then Some(ds[0])
    else
      var r := FindById(ds[1..], id);
      if r.Some? then
        assert exists i :: 0 <= i < |ds| && ds[i] == r.value && ds[i].id == id &&
                           forall j :: 0 <= j < i ==> ds[j].id != id by {
          var k :| 0 <= k < |ds[1..]| && ds[1..][k] == r.value && ds[1..][k].id == id &&
                   forall j :: 0 <= j < k ==> ds[1..][j].id != id;
          assert ds[k + 1] == r.value;
          forall j | 0 <= j < k + 1 ensures ds[j].id != id {
            if j > 0 { assert ds[j] == ds[1..][j - 1]; }
          }
        }
        r
      else r
  }

  /** `handleCreateAccesClient`. Every dossier carrying the id gets client
      access and the credentials built from the first such dossier's e-mail. */
  function CreateAccesClient(ds: seq<Dossier>, id: int, draw: real): (r: seq<Dossier>)
    requires 0.0 <= draw < 1.0
    ensures |r| == |ds|
    ensures FindById(ds, id).None? ==> r == ds
    ensures forall i :: 0 <= i < |ds| && ds[i].id != id ==> r[i] == ds[i]
    ensures forall i :: 0 <= i < |ds| && ds[i].id == id ==>
              r[i] == ds[i].(aUnAccesClient := true,
                             credentials := Some(Credentials(FindById(ds, id).value.clientEmail, TempPassword(draw))))
  {
    match FindById(ds, id)
    case None => ds
    case Some(d) =>
      var creds := Credentials(d.clientEmail, TempPassword(draw));
      seq(|ds|, i requires 0 <= i < |ds| =>
        if ds[i].id == id then ds[i].(aUnAccesClient := true, credentials := Some(creds)) else ds[i])
  }

  /** No two dossiers share an id. */
  predicate UniqueIds(ds: seq<Dossier>) {
    forall i, j :: 0 <= i < j < |ds| ==> ds[i].id != ds[j].id
  }

  /** With distinct ids, granting access changes exactly the dossier with
      that id: it gains access and credentials carrying its own e-mail. */
  lemma CreateAccesClientOwnEmail(ds: seq<Dossier>, id: int, draw: real, i: int)
    requires 0.0 <= draw < 1.0
    requires UniqueIds(ds)
    requires 0 <= i < |ds| && ds[i].id == id
    ensures var r := CreateAccesClient(ds, id, draw);
            && r[i].aUnAccesClient
            && r[i].credentials == Some(Credentials(ds[i].clientEmail, TempPassword(draw)))
            && r[i].(aUnAccesClient := ds[i].aUnAccesClient, credentials := ds[i].credentials) == ds[i]
  {
    var k :| 0 <= k < |ds| && ds[k] == FindById(ds, id).value && ds[k].id == id &&
             forall j :: 0 <= j < k ==> ds[j].id != id;
    assert k == i;
  }
}
