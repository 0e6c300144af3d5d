/** The commissions page: search with status and partner filters, the three
    headline sums, and the add-commission dialog. */
module Commissions {
  import opened Text
  import opened Seqs
  import opened Filters

  /** Status of a commission already received. */
  const Encaisse: string := "encaissé"
  /** Status of a commission still due. */
  const AVenir: string := "a_venir"

  datatype Commission = Commission(
    id: int,
    dossier: string,
    montant: int,
    statut: string,
    date: string,
    partenaire: string)

  /** The search box keeps a commission whose lower-cased dossier label
      contains the lower-cased term; each filter is off or names its value. */
  predicate MatchesCommission(c: Commission, term: string, statut: string, partenaire: string) {
    && Contains(Lower(c.dossier), Lower(term))
    && FilterAdmits(statut, c.statut)
    && FilterAdmits(partenaire, c.partenaire)
  }

  /** `filteredCommissions`. */
  function FilterCommissions(cs: seq<Commission>, term: string, statut: string, partenaire: string): (r: seq<Commission>)
    ensures IsSubsequence(r, cs)
    ensures forall c :: c in r ==> c in cs && MatchesCommission(c, term, statut, partenaire)
    ensures forall c :: c in cs && MatchesCommission(c, term, statut, partenaire) ==> c in r
    ensures forall c :: c in cs ==>
              multiset(r)[c] == if MatchesCommission(c, term, statut, partenaire) then multiset(cs)[c] else 0
  {
    Filter(cs, (c: Commission) => MatchesCommission(c, term, statut, partenaire))
  }

  /** An empty search with both filters off shows every commission. */
  lemma FilterCommissionsOff(cs: seq<Commission>)
    ensures FilterCommissions(cs, "", Tous, Tous) == cs
  {
    FilterKeepsAll(cs, (c: Commission) => MatchesCommission(c, "", Tous, Tous));
  }

  function MontantOf(c: Commission): int {
    c.montant
  }

  predicate IsEncaisse(c: Commission) {
    c.statut == Encaisse
  }

  predicate IsAVenir(c: Commission) {
    c.statut == AVenir
  }

  /** Every commission's amount is non-negative. */
  predicate AmountsNonNegative(cs: seq<Commission>) {
    forall i :: 0 <= i < |cs| ==> cs[i].montant >= 0
  }

  /** `totalCommissions`: the sum of every amount, never negative when no
      amount is. */
  function TotalCommissions(cs: seq<Commission>): (r: int)
    ensures AmountsNonNegative(cs) ==> r >= 0
  {
    var r := Sum(cs, MontantOf);
    r
  }

  /** The sum of the amounts of the commissions `p` keeps. */
  function SumWhere(cs: seq<Commission>, p: Commission -> bool): (r: int)
    ensures AmountsNonNegative(cs) ==> 0 <= r <= TotalCommissions(cs)
    ensures (forall i :: 0 <= i < |cs| ==> !p(cs[i])) ==> r == 0
  {
    var kept := Filter(cs, p);
    var r := Sum(kept, MontantOf);
    assert AmountsNonNegative(cs) ==> 0 <= r <= TotalCommissions(cs) by {
      if AmountsNonNegative(cs) {
        SumOfFilterAtMost(cs, MontantOf, p);
        forall i | 0 <= i < |kept| ensures MontantOf(kept[i]) >= 0 {
          assert kept[i] in cs;
        }
      }
    }
    assert (forall i :: 0 <= i < |cs| ==> !p(cs[i])) ==> r == 0 by {
      if forall i :: 0 <= i < |cs| ==> !p(cs[i]) {
        FilterKeepsNone(cs, p);
      }
    }
    r
  }

  /** `encaisses`: the amounts already received. With non-negative amounts it
      lies between zero and the total; with nothing received it is zero. */
  function Encaisses(cs: seq<Commission>): (r: int)
    ensures AmountsNonNegative(cs) ==> 0 <= r <= TotalCommissions(cs)
    ensures (forall i :: 0 <= i < |cs| ==> cs[i].statut != Encaisse) ==> r == 0
  {
    SumWhere(cs, IsEncaisse)
  }

  /** `aVenir`: the amounts still due, bounded the same way. */
  function AVenirTotal(cs: seq<Commission>): (r: int)
    ensures AmountsNonNegative(cs) ==> 0 <= r <= TotalCommissions(cs)
    ensures (forall i :: 0 <= i < |cs| ==> cs[i].statut != AVenir) ==> r == 0
  {
    SumWhere(cs, IsAVenir)
  }

  /** With non-negative amounts the received and due sums never exceed the
      total; they make it up when every status is one of the two. */
  lemma HeadlineSums(cs: seq<Commission>)
    ensures AmountsNonNegative(cs) ==>
              Encaisses(cs) + AVenirTotal(cs) <= TotalCommissions(cs)
    ensures (forall i :: 0 <= i < |cs| ==> cs[i].statut == Encaisse || cs[i].statut == AVenir) ==>
              Encaisses(cs) + AVenirTotal(cs) == TotalCommissions(cs)
  {
    assert Encaisse != AVenir by { assert |Encaisse| != |AVenir|; }
    SumOfDisjointFilters(cs, MontantOf, IsEncaisse, IsAVenir);
  }

  /** The page's state that the handlers touch. */
  datatype CommissionsPage = CommissionsPage(
    commissions: seq<Commission>,
    searchTerm: string,
    filterStatut: string,
    filterPartenaire: string,
    openDialog: bool)

  /** `handleAddCommission`: only the dialog closes; the list is not changed. */
  function AddCommission(p: CommissionsPage): (r: CommissionsPage)
    ensures !r.openDialog
    ensures r.commissions == p.commissions
    ensures FilterCommissions(r.commissions, r.searchTerm, r.filterStatut, r.filterPartenaire)
         == FilterCommissions(p.commissions, p.searchTerm, p.filterStatut, p.filterPartenaire)
  {
    p.(openDialog := false)
  }
}
