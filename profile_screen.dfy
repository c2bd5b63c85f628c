/** The account-creation form: role picker, name, email, an address and district filled in
    by a simulated location lookup, and the create button with its validation. */
module ProfileScreen {
  import opened Strings

  datatype ProfileForm = ProfileForm(role: string, fullName: string, email: string, address: string, district: string)

  datatype Field = Role | FullName | Email | Address | District

  const EmptyForm: ProfileForm := ProfileForm("", "", "", "", "")

  const Roles: seq<string> := ["Volunteer", "Coordinator", "Veterinarian", "Rescuer", "Foster Parent", "Donor"]

  /** The values the simulated lookup fills in. */
  const DetectedAddress: string := "123 MG Road, Koramangala"
  const DetectedDistrict: string := "Bangalore Urban"

  function Get(form: ProfileForm, field: Field): string {
    match field
    case Role => form.role
    case FullName => form.fullName
    case Email => form.email
    case Address => form.address
    case District => form.district
  }

  /** `{...prev, [field]: value}`: the named field takes the value and every other field
      keeps its own. */
  function WithField(form: ProfileForm, field: Field, value: string): (r: ProfileForm)
    ensures Get(r, field) == value
    ensures forall g :: g != field ==> Get(r, g) == Get(form, g)
  {
    match field
    case Role => form.(role := value)
    case FullName => form.(fullName := value)
    case Email => form.(email := value)
    case Address => form.(address := value)
    case District => form.(district := value)
  }

  /** Two forms that agree on every field are the same form, so `WithField` is determined
      by its contract. */
  lemma FieldsDetermineForm(a: ProfileForm, b: ProfileForm)
    requires forall g :: Get(a, g) == Get(b, g)
    ensures a == b
  {
    assert Get(a, Role) == Get(b, Role);
    assert Get(a, FullName) == Get(b, FullName);
    assert Get(a, Email) == Get(b, Email);
    assert Get(a, Address) == Get(b, Address);
    assert Get(a, District) == Get(b, District);
  }

  /** Writing the value a field already has changes nothing; writing a field twice keeps
      the second value only. */
  lemma WithFieldLaws(form: ProfileForm, field: Field, v: string, w: string)
    ensures WithField(form, field, Get(form, field)) == form
    ensures WithField(WithField(form, field, v), field, w) == WithField(form, field, w)
  {
    FieldsDetermineForm(WithField(form, field, Get(form, field)), form);
    FieldsDetermineForm(WithField(WithField(form, field, v), field, w), WithField(form, field, w));
  }

  /** `isFormValid`: a role is chosen and the name has a non-whitespace character. */
  predicate IsFormValid(form: ProfileForm) {
    form.role != "" && !AllWhitespace(form.fullName)
  }

  /** Valid exactly when the role is non-empty and the trimmed name is not empty; email,
      address and district play no part. */
  lemma FormValidity(form: ProfileForm, email: string, address: string, district: string)
    ensures IsFormValid(form) <==> form.role != "" && Trim(form.fullName) != ""
    ensures IsFormValid(form.(email := email, address := address, district := district)) == IsFormValid(form)
  {
  }

  datatype CreateOutcome = RoleMissing | NameMissing | Accepted

  /** The checks of `handleCreateAccount`, in their order: the role first, then the name. */
  function CreateCheck(form: ProfileForm): (r: CreateOutcome)
    ensures r == RoleMissing <==> form.role == ""
    ensures r == NameMissing <==> form.role != "" && AllWhitespace(form.fullName)
    ensures r == Accepted <==> IsFormValid(form)
  {
    if form.role == "" then RoleMissing
    else if AllWhitespace(form.fullName) then NameMissing
    else Accepted
  }

  /** The create button's `disabled`. */
  function CreateDisabled(form: ProfileForm, isLoading: bool): (disabled: bool)
    ensures !disabled ==> CreateCheck(form) == Accepted && !isLoading
    ensures disabled ==> CreateCheck(form) != Accepted || isLoading
  {
    !IsFormValid(form) || isLoading
  }

  class Screen {
    var form: ProfileForm
    var isLoading: bool
    var isLocating: bool
    var isRoleDropdownOpen: bool
    var showAddress: bool
    /** Auto-populate timers still running. */
    var pendingLookups: nat
    /** Account-creation timers still running. */
    var pendingCreates: nat

    /** The first render followed by the mount effect, which starts one lookup. */
    constructor ()
      ensures form == EmptyForm && !isLoading && !isRoleDropdownOpen && !showAddress
      ensures isLocating && pendingLookups == 1 && pendingCreates == 0
    {
      form := EmptyForm;
      isLoading := false;
      isLocating := true;
      isRoleDropdownOpen := false;
      showAddress := false;
      pendingLookups := 1;
      pendingCreates := 0;
    }

    /** `handleInputChange(field, value)`. */
    method InputChange(field: Field, value: string)
      modifies this
      ensures form == WithField(old(form), field, value)
      ensures isLoading == old(isLoading) && isLocating == old(isLocating)
      ensures isRoleDropdownOpen == old(isRoleDropdownOpen) && showAddress == old(showAddress)
      ensures pendingLookups == old(pendingLookups) && pendingCreates == old(pendingCreates)
    {
      form := WithField(form, field, value);
    }

    /** The dropdown header. */
    method ToggleRoleDropdown()
      modifies this
      ensures isRoleDropdownOpen == !old(isRoleDropdownOpen) && form == old(form)
      ensures isLoading == old(isLoading) && isLocating == old(isLocating) && showAddress == old(showAddress)
      ensures pendingLookups == old(pendingLookups) && pendingCreates == old(pendingCreates)
    {
      isRoleDropdownOpen := !isRoleDropdownOpen;
    }

    /** The eye button beside the address: shows or masks it. */
    method ToggleShowAddress()
      modifies this
      ensures showAddress == !old(showAddress) && form == old(form)
      ensures isLoading == old(isLoading) && isLocating == old(isLocating)
      ensures isRoleDropdownOpen == old(isRoleDropdownOpen)
      ensures pendingLookups == old(pendingLookups) && pendingCreates == old(pendingCreates)
    {
      showAddress := !showAddress;
    }

    /** `handleRoleSelect`: sets the role and closes the dropdown. */
    method RoleSelect(role: string)
      modifies this
      ensures form == old(form).(role := role) && !isRoleDropdownOpen
      ensures isLoading == old(isLoading) && isLocating == old(isLocating) && showAddress == old(showAddress)
      ensures pendingLookups == old(pendingLookups) && pendingCreates == old(pendingCreates)
    {
      form := form.(role := role);
      isRoleDropdownOpen := false;
    }

    /** `handleAutoPopulate`: starts a lookup; its buttons are disabled while one runs. */
    method AutoPopulate()
      modifies this
      ensures isLocating && pendingLookups == old(pendingLookups) + 1 && form == old(form)
      ensures isLoading == old(isLoading) && isRoleDropdownOpen == old(isRoleDropdownOpen)
      ensures showAddress == old(showAddress) && pendingCreates == old(pendingCreates)
    {
      isLocating := true;
      pendingLookups := pendingLookups + 1;
    }

    /** A lookup timer fires: the fixed address and district are merged into the form as it
        is by then; role, name and email are kept. */
    method AutoPopulateCompletes()
      requires pendingLookups > 0
      modifies this
      ensures form == old(form).(address := DetectedAddress, district := DetectedDistrict)
      ensures !isLocating && pendingLookups == old(pendingLookups) - 1
      ensures isLoading == old(isLoading) && isRoleDropdownOpen == old(isRoleDropdownOpen)
      ensures showAddress == old(showAddress) && pendingCreates == old(pendingCreates)
    {
      form := form.(address := DetectedAddress, district := DetectedDistrict);
      isLocating := false;
      pendingLookups := pendingLookups - 1;
    }

    /** `handleCreateAccount`: a rejected form changes nothing (an error toast is shown);
        an accepted one starts loading and the creation timer. */
    method CreateAccount() returns (outcome: CreateOutcome)
      modifies this
      ensures outcome == CreateCheck(old(form)) && form == old(form)
      ensures outcome != Accepted ==> isLoading == old(isLoading) && pendingCreates == old(pendingCreates)
      ensures outcome == Accepted ==> isLoading && pendingCreates == old(pendingCreates) + 1
      ensures outcome == Accepted ==> CreateDisabled(form, isLoading)
      ensures isLocating == old(isLocating) && isRoleDropdownOpen == old(isRoleDropdownOpen)
      ensures showAddress == old(showAddress) && pendingLookups == old(pendingLookups)
    {
      outcome := CreateCheck(form);
      if outcome == Accepted {
        isLoading := true;
        pendingCreates := pendingCreates + 1;
      }
    }

    /** The creation timer fires: loading ends and the app moves to the success screen. */
    method CreateCompletes() returns (route: string)
      requires pendingCreates > 0
      modifies this
      ensures !isLoading && pendingCreates == old(pendingCreates) - 1 && form == old(form)
      ensures isLocating == old(isLocating) && isRoleDropdownOpen == old(isRoleDropdownOpen)
      ensures showAddress == old(showAddress) && pendingLookups == old(pendingLookups)
      ensures route == "/account-success"
    {
      isLoading := false;
      pendingCreates := pendingCreates - 1;
      route := "/account-success";
    }
  }
}
