/** The settings page: the profile form's per-field updates, deleting a team
    member, and the two handlers that only acknowledge. */
module Parametres {
  import opened Seqs

  /** A team member in the users table. */
  datatype Member = Member(id: int, nom: string, email: string, role: string, statut: string)

  /** The profile form. */
  datatype ProfileForm = ProfileForm(nom: string, entreprise: string, email: string, telephone: string)

  /** The form's four inputs. */
  datatype Field = Nom | Entreprise | Email | Telephone

  /** The value a form shows in one input. */
  function FieldValue(f: ProfileForm, field: Field): string {
    match field
    case Nom => f.nom
    case Entreprise => f.entreprise
    case Email => f.email
    case Telephone => f.telephone
  }

  /** The `onChange` handler of one input: that field takes the typed value
      and the other three keep theirs. */
  function SetField(f: ProfileForm, field: Field, value: string): (r: ProfileForm)
    ensures FieldValue(r, field) == value
    ensures forall other :: other != field ==> FieldValue(r, other) == FieldValue(f, other)
  {
    match field
    case Nom => f.(nom := value)
    case Entreprise => f.(entreprise := value)
    case Email => f.(email := value)
    case Telephone => f.(telephone := value)
  }

  /** `handleDeleteUser`: drop every member with this id. */
  function DeleteMember(users: seq<Member>, id: int): (r: seq<Member>)
    ensures forall u :: u in r ==> u.id != id
    ensures forall u :: u in r ==> u in users
    ensures forall u :: u in users && u.id != id ==> u in r
    ensures forall u :: u in users ==> multiset(r)[u] == if u.id != id then multiset(users)[u] else 0
    ensures IsSubsequence(r, users)
  {
    Filter(users, (u: Member) => u.id != id)
  }

  /** Deleting an id nobody has changes nothing. */
  lemma DeleteAbsentId(users: seq<Member>, id: int)
    requires forall i :: 0 <= i < |users| ==> users[i].id != id
    ensures DeleteMember(users, id) == users
  {
    FilterKeepsAll(users, (u: Member) => u.id != id);
  }

  /** Deleting the same id twice is deleting it once. */
  lemma DeleteIdempotent(users: seq<Member>, id: int)
    ensures DeleteMember(DeleteMember(users, id), id) == DeleteMember(users, id)
  {
    var once := DeleteMember(users, id);
    forall i | 0 <= i < |once| ensures once[i].id != id {
      assert once[i] in once;
    }
    DeleteAbsentId(once, id);
  }

  /** The page's state that the handlers touch. */
  datatype SettingsPage = SettingsPage(profile: ProfileForm, users: seq<Member>, openUserDialog: bool)

  /** `handleAddUser`: only the dialog closes; the table is not changed. */
  function AddMember(p: SettingsPage): (r: SettingsPage)
    ensures !r.openUserDialog
    ensures r.users == p.users && r.profile == p.profile
  {
    p.(openUserDialog := false)
  }

  /** `handleSaveProfile`: an acknowledgement only; neither the form nor the
      table changes. */
  function SaveProfile(p: SettingsPage): (r: SettingsPage)
    ensures r.users == p.users && r.profile == p.profile && r.openUserDialog == p.openUserDialog
  {
    p
  }
}
