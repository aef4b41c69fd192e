/** The staff management page: the list loaded from `GET /api/staff`, the
    search box that narrows it, and the form used both to create a staff
    member and to edit one. */
module StaffPage {
  import opened Base
  import opened Arrays
  import opened Types

  /** The search: the lower-cased term occurs in the lower-cased name, email
      or role name. */
  predicate StaffMatches(a: AppUser, term: string) {
    var t := Lower(term);
    Includes(Lower(a.name), t) || Includes(Lower(a.email), t) || Includes(Lower(StaffRoleName(a.role)), t)
  }

  function SearchFor(term: string): AppUser -> bool { (a: AppUser) => StaffMatches(a, term) }

  /** `filteredStaff`. */
  function FilterStaff(staff: seq<AppUser>, term: string): (r: seq<AppUser>)
    ensures IsSubsequence(r, staff)
    ensures forall a :: multiset(r)[a] == if StaffMatches(a, term) then multiset(staff)[a] else 0
  {
    FilterIsSubsequence(staff, SearchFor(term));
    FilterCounts(staff, SearchFor(term));
    Filter(staff, SearchFor(term))
  }

  /** The term, ignoring ASCII case, appears at some position of the text. */
  ghost predicate Contains(text: string, term: string) {
    exists i :: OccursAt(Lower(text), Lower(term), i)
  }

  /** A staff member is shown exactly when it is loaded and the term appears
      in its name, its email or its role name. */
  lemma ShownIff(staff: seq<AppUser>, term: string, a: AppUser)
    ensures a in FilterStaff(staff, term) <==>
      a in staff && (Contains(a.name, term) || Contains(a.email, term) || Contains(StaffRoleName(a.role), term))
  {
    IncludesIffOccurs(Lower(a.name), Lower(term));
    IncludesIffOccurs(Lower(a.email), Lower(term));
    IncludesIffOccurs(Lower(StaffRoleName(a.role)), Lower(term));
    var r := FilterStaff(staff, term);
    if a in r {
      var k :| 0 <= k < |r| && r[k] == a;
      assert SearchFor(term)(r[k]);
    }
    if a in staff && StaffMatches(a, term) {
      var k :| 0 <= k < |staff| && staff[k] == a;
      assert SearchFor(term)(staff[k]);
    }
  }

  /** With an empty search box the whole list is shown. */
  lemma EmptySearchShowsAll(staff: seq<AppUser>)
    ensures FilterStaff(staff, "") == staff
  {
    forall k | 0 <= k < |staff| ensures SearchFor("")(staff[k]) {
      IncludesEmpty(Lower(staff[k].name));
    }
    FilterAll(staff, SearchFor(""));
  }

  /** Searching for a role's name in any case shows every staff member with
      that role. */
  lemma RoleSearchShowsRole(staff: seq<AppUser>, role: StaffRole, a: AppUser)
    requires a in staff && a.role == role
    ensures a in FilterStaff(staff, StaffRoleName(role))
  {
    var name := Lower(StaffRoleName(role));
    assert OccursAt(name, name, 0);
    IncludesIffOccurs(name, name);
    var k :| 0 <= k < |staff| && staff[k] == a;
    assert SearchFor(StaffRoleName(role))(staff[k]);
  }

  /** The form's fields. */
  datatype StaffForm = StaffForm(email: string, name: string, role: StaffRole, password: string, isActive: bool)

  /** The form as first shown and after every reset. */
  const EmptyStaffForm := StaffForm("", "", Employee, "", true)

  /** The body of the activate/deactivate request. */
  datatype ToggleRequest = ToggleRequest(isActive: bool)

  /** `handleToggleActive`'s request body: the opposite of the current flag. */
  function ToggleBody(a: AppUser): (b: ToggleRequest)
    ensures b.isActive != a.isActive
  {
    ToggleRequest(!a.isActive)
  }

  /** The notice shown after a toggle succeeds. */
  function ToggleNotice(a: AppUser): (m: string)
    ensures a.isActive <==> m == "Staff user deactivated successfully!"
    ensures !a.isActive <==> m == "Staff user activated successfully!"
  {
    "Staff user " + (if !a.isActive then "activated" else "deactivated") + " successfully!"
  }

  /** The update the store applies for a toggle request. */
  function TogglePatch(a: AppUser): AppUserPatch {
    NoAppUserChange.(isActive := Some(ToggleBody(a).isActive))
  }

  /** A toggle changes only the active flag, and toggling the result again
      gives back the staff member as it was. */
  lemma ToggleTwiceRestores(a: AppUser)
    ensures MergeAppUser(a, TogglePatch(a)) == a.(isActive := !a.isActive)
    ensures var once := MergeAppUser(a, TogglePatch(a)); MergeAppUser(once, TogglePatch(once)) == a
  {
  }

  /** The page's state: the loaded list, the search box, the form and what
      it is editing, and the error shown. */
  class StaffManager {
    var staff: seq<AppUser>
    var searchTerm: string
    var showCreateForm: bool
    var editingStaff: Option<AppUser>
    var formData: StaffForm
    var error: string

    /** The first render, before the list has loaded. */
    constructor ()
      ensures staff == [] && searchTerm == "" && !showCreateForm && editingStaff.None?
      ensures formData == EmptyStaffForm && error == ""
    {
      staff := [];
      searchTerm := "";
      showCreateForm := false;
      editingStaff := None;
      formData := EmptyStaffForm;
      error := "";
    }

    /** The rows the page shows. */
    function Shown(): seq<AppUser>
      reads this
    {
      FilterStaff(staff, searchTerm)
    }

    /** `handleEditStaff`: the form takes the staff member's email, name,
        role and active flag, the password is blanked, and the form opens. */
    method HandleEditStaff(a: AppUser)
      modifies this
      ensures editingStaff == Some(a) && showCreateForm
      ensures formData == StaffForm(a.email, a.name, a.role, "", a.isActive)
      ensures staff == old(staff) && searchTerm == old(searchTerm) && error == old(error)
    {
      editingStaff := Some(a);
      formData := StaffForm(a.email, a.name, a.role, "", a.isActive);
      showCreateForm := true;
    }

    /** `resetForm`: blank fields, role employee, active, nothing being
        edited, the form hidden and the error cleared. */
    method ResetForm()
      modifies this
      ensures formData == EmptyStaffForm && editingStaff.None? && !showCreateForm && error == ""
      ensures staff == old(staff) && searchTerm == old(searchTerm)
    {
      formData := EmptyStaffForm;
      editingStaff := None;
      showCreateForm := false;
      error := "";
    }

    /** Typing in the search box changes only the term. */
    method SetSearchTerm(term: string)
      modifies this`searchTerm
      ensures searchTerm == term
    {
      searchTerm := term;
    }
  }
}
