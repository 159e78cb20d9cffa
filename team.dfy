/** The team page (pages/Team.tsx): the staff search with its role filter, the
    new-member form, and the staff list's delete, edit and add. */
module Team {
  import opened Wrappers
  import opened Text
  import opened Seqs
  import opened Domain

  // ---------------------------------------------------------------------------
  // Search

  /** The role selector: 'Tous' or one role. */
  datatype RoleFilter = Tous | Only(role: StaffRole)

  /** The lower-cased term occurs in the lower-cased full name or e-mail, and
      the member has the selected role. */
  predicate StaffMatches(m: StaffMember, term: string, roles: RoleFilter) {
    (Contains(Lower(FullName(m.firstName, m.lastName)), Lower(term)) || Contains(Lower(m.email), Lower(term)))
    && (roles.Tous? || m.role == roles.role)
  }

  function StaffFilter(term: string, roles: RoleFilter): StaffMember -> bool {
    m => StaffMatches(m, term, roles)
  }

  /** `filteredStaff`. */
  function FilteredStaff(staff: seq<StaffMember>, term: string, roles: RoleFilter): (r: seq<StaffMember>)
    ensures IsSubsequence(r, staff)
    ensures forall m :: m in r <==> m in staff && StaffMatches(m, term, roles)
    ensures forall m :: multiset(r)[m] == if StaffMatches(m, term, roles) then multiset(staff)[m] else 0
  {
    Filter(staff, StaffFilter(term, roles))
  }

  /** With no term and 'Tous' the whole team is listed; choosing a role lists a
      subsequence of what 'Tous' lists, all of that role. */
  lemma {:induction false} RoleFilterNarrows(staff: seq<StaffMember>, term: string, role: StaffRole)
    ensures FilteredStaff(staff, "", Tous) == staff
    ensures IsSubsequence(FilteredStaff(staff, term, Only(role)), FilteredStaff(staff, term, Tous))
    ensures forall m :: m in FilteredStaff(staff, term, Only(role)) ==> m.role == role
  {
    forall m | m in staff ensures StaffFilter("", Tous)(m) {
      ContainsEmpty(Lower(FullName(m.firstName, m.lastName)));
    }
    FilterKeepsAll(staff, StaffFilter("", Tous));
    FilterNarrower(staff, StaffFilter(term, Only(role)), StaffFilter(term, Tous));
  }

  // ---------------------------------------------------------------------------
  // The form

  /** `Partial<StaffMember>`. */
  datatype StaffPatch = StaffPatch(
    id: Option<string>, firstName: Option<string>, lastName: Option<string>, email: Option<string>,
    phone: Option<string>, role: Option<StaffRole>, salary: Option<Money>, hireDate: Option<string>,
    status: Option<StaffStatus>)

  /** `{ ...m, ...formData }`. */
  function MergeMember(m: StaffMember, f: StaffPatch): (r: StaffMember)
    ensures r.id == f.id.GetOr(m.id) && r.firstName == f.firstName.GetOr(m.firstName)
    ensures r.lastName == f.lastName.GetOr(m.lastName) && r.email == f.email.GetOr(m.email)
    ensures r.phone == f.phone.GetOr(m.phone) && r.role == f.role.GetOr(m.role)
    ensures r.salary == (if f.salary.Some? then f.salary else m.salary)
    ensures r.hireDate == f.hireDate.GetOr(m.hireDate) && r.status == f.status.GetOr(m.status)
  {
    StaffMember(f.id.GetOr(m.id), f.firstName.GetOr(m.firstName), f.lastName.GetOr(m.lastName),
                f.email.GetOr(m.email), f.phone.GetOr(m.phone), f.role.GetOr(m.role),
                if f.salary.Some? then f.salary else m.salary, f.hireDate.GetOr(m.hireDate),
                f.status.GetOr(m.status))
  }

  /** The form `handleOpenEdit` loads from a member. */
  function PatchOf(m: StaffMember): StaffPatch {
    StaffPatch(Some(m.id), Some(m.firstName), Some(m.lastName), Some(m.email), Some(m.phone),
               Some(m.role), m.salary, Some(m.hireDate), Some(m.status))
  }

  /** Submitting the loaded form unchanged gives the member back; deactivating
      changes the status alone. */
  lemma MergeMemberLaws(m: StaffMember)
    ensures MergeMember(m, PatchOf(m)) == m
    ensures MergeMember(m, PatchOf(m).(status := Some(Inactif))) == m.(status := Inactif)
  {
  }

  /** The add form. */
  datatype StaffDraft = StaffDraft(
    firstName: string, lastName: string, email: string, phone: string, role: StaffRole,
    status: StaffStatus, hireDate: string, salary: Money)

  /** `handleOpenAdd`'s form: an active seller hired today (the date part of
      the current ISO timestamp `nowIso`) with a salary of 0. */
  function DefaultDraft(nowIso: string): (d: StaffDraft)
    ensures d.role == Vendeur && d.status == Actif && d.salary == 0.0
    ensures d.firstName == "" && d.lastName == "" && d.email == "" && d.phone == ""
    ensures IsPrefix(d.hireDate, nowIso) && 'T' !in d.hireDate
    ensures |d.hireDate| < |nowIso| ==> nowIso[|d.hireDate|] == 'T'
  {
    StaffDraft("", "", "", "", Vendeur, Actif, BeforeFirst(nowIso, 'T'), 0.0)
  }

  /** `{ ...formData, id }`, `id` standing for the random id. */
  function NewMember(d: StaffDraft, id: string): (m: StaffMember)
    ensures m.id == id && m.salary == Some(d.salary)
    ensures m.firstName == d.firstName && m.lastName == d.lastName && m.email == d.email
    ensures m.phone == d.phone && m.role == d.role && m.status == d.status && m.hireDate == d.hireDate
  {
    StaffMember(id, d.firstName, d.lastName, d.email, d.phone, d.role, Some(d.salary), d.hireDate, d.status)
  }

  /** A member added from the untouched form is listed under 'Vendeur'. */
  lemma NewDefaultMemberIsSeller(nowIso: string, id: string)
    ensures StaffMatches(NewMember(DefaultDraft(nowIso), id), "", Only(Vendeur))
  {
    ContainsEmpty(Lower(FullName("", "")));
  }

  // ---------------------------------------------------------------------------
  // The staff list

  class Roster {
    var staff: seq<StaffMember>

    constructor (staff0: seq<StaffMember>)
      ensures staff == staff0
    {
      staff := staff0;
    }

    /** `handleDelete`: after confirmation, every member with the id goes. */
    method Delete(id: string, confirmed: bool)
      modifies this
      ensures staff == if confirmed then RemoveKey(old(staff), StaffKey, id) else old(staff)
      ensures confirmed ==> |staff| == |old(staff)| - Occurrences(old(staff), StaffKey, id)
      ensures confirmed ==> FindKey(staff, StaffKey, id).None?
    {
      if confirmed {
        RemoveKeyLength(staff, StaffKey, id);
        RemovedKeyNotFound(staff, StaffKey, id);
        staff := RemoveKey(staff, StaffKey, id);
      }
    }

    /** `handleSubmit` while editing `id`. */
    method Edit(id: string, form: StaffPatch)
      modifies this
      ensures |staff| == |old(staff)|
      ensures forall i :: 0 <= i < |staff| ==>
                staff[i] == if old(staff)[i].id == id then MergeMember(old(staff)[i], form) else old(staff)[i]
    {
      staff := MapKey(staff, StaffKey, id, MergeMember, form);
    }

    /** `handleSubmit` for a new member: it goes first. */
    method Add(draft: StaffDraft, id: string) returns (m: StaffMember)
      modifies this
      ensures m == NewMember(draft, id)
      ensures staff == [m] + old(staff)
      ensures FindKey(staff, StaffKey, id) == Some(m)
    {
      m := NewMember(draft, id);
      staff := [m] + staff;
    }
  }
}
