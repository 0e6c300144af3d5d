/** The partners page: search over name, type and contact name, the
    "dossiers en cours" figure, and the add-partner dialog. */
module Partenaires {
  import opened Text
  import opened Seqs

  datatype Partenaire = Partenaire(
    id: int,
    nom: string,
    kind: string,
    contactNom: string,
    contactEmail: string,
    contactTelephone: string,
    dossiersEnCours: int,
    tauxAcceptation: int,
    noteInterne: string,
    qualite: string)

  /** The lower-cased term occurs in the lower-cased name, type or contact name. */
  predicate MatchesPartenaire(p: Partenaire, term: string) {
    || Contains(Lower(p.nom), Lower(term))
    || Contains(Lower(p.kind), Lower(term))
    || Contains(Lower(p.contactNom), Lower(term))
  }

  /** `filteredPartenaires`. */
  function FilterPartenaires(ps: seq<Partenaire>, term: string): (r: seq<Partenaire>)
    ensures IsSubsequence(r, ps)
    ensures forall p :: p in r ==> p in ps && MatchesPartenaire(p, term)
    ensures forall p :: p in ps && MatchesPartenaire(p, term) ==> p in r
    ensures forall p :: p in ps ==>
              multiset(r)[p] == if MatchesPartenaire(p, term) then multiset(ps)[p] else 0
  {
    Filter(ps, (p: Partenaire) => MatchesPartenaire(p, term))
  }

  /** An empty search shows every partner. */
  lemma FilterPartenairesOff(ps: seq<Partenaire>)
    ensures FilterPartenaires(ps, "") == ps
  {
    FilterKeepsAll(ps, (p: Partenaire) => MatchesPartenaire(p, ""));
  }

  /** E-mail and telephone are never searched: two partners that differ only
      there are kept or dropped together. */
  lemma SearchIgnoresEmailAndPhone(p: Partenaire, email: string, phone: string, term: string)
    ensures MatchesPartenaire(p.(contactEmail := email, contactTelephone := phone), term)
        == MatchesPartenaire(p, term)
  {
  }

  function DossiersEnCoursOf(p: Partenaire): int {
    p.dossiersEnCours
  }

  /** The "Dossiers en cours" figure, over all partners: never negative when
      no partner's count is. */
  function TotalDossiersEnCours(ps: seq<Partenaire>): (r: int)
    ensures (forall i :: 0 <= i < |ps| ==> ps[i].dossiersEnCours >= 0) ==> r >= 0
  {
    var r := Sum(ps, DossiersEnCoursOf);
    r
  }

  /** The figure is taken over the whole list, so with non-negative counts it
      is never below the same sum over what the search shows. */
  lemma TotalCoversFiltered(ps: seq<Partenaire>, term: string)
    requires forall i :: 0 <= i < |ps| ==> ps[i].dossiersEnCours >= 0
    ensures Sum(FilterPartenaires(ps, term), DossiersEnCoursOf) <= TotalDossiersEnCours(ps)
  {
    SumOfFilterAtMost(ps, DossiersEnCoursOf, (p: Partenaire) => MatchesPartenaire(p, term));
  }

  /** The page's state that the handlers touch. */
  datatype PartenairesPage = PartenairesPage(
    partenaires: seq<Partenaire>,
    searchTerm: string,
    openDialog: bool)

  /** `handleAddPartenaire`: only the dialog closes; the list and the total
      are not changed. */
  function AddPartenaire(p: PartenairesPage): (r: PartenairesPage)
    ensures !r.openDialog
    ensures r.partenaires == p.partenaires
    ensures TotalDossiersEnCours(r.partenaires) == TotalDossiersEnCours(p.partenaires)
  {
    p.(openDialog := false)
  }
}
