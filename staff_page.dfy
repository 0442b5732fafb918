/**
 * The staff page of the admin console: the edit form it opens for a
 * member or for a new one, what saving that form sends, and the
 * activate/deactivate switch.
 */
module StaffPage {
  import opened Wrappers
  import opened Text
  import opened Domain
  import opened Names
  import AgentTools

  /** A staff member as the page lists it. */
  datatype StaffMember = StaffMember(id: string, fullName: string, email: Option<string>, phone: Option<string>,
                                     role: string, isActive: bool)

  /** The modal's fields, all text. */
  datatype StaffForm = StaffForm(fullName: string, email: string, phone: string, role: string, password: string)

  /** The modal: which member it edits (none for a new one), its fields, and whether it is open. */
  datatype Editor = Editor(editingId: Option<string>, form: StaffForm, open: bool)

  const BlankStaffForm := StaffForm("", "", "", "staff", "")

  /** `openEdit(member)`: the member's fields, a missing e-mail or phone as '', and no password. */
  function OpenEdit(m: StaffMember): (e: Editor)
    ensures e.editingId == Some(m.id) && e.open && e.form.password == ""
    ensures e.form.email == StringOr(m.email, "") && e.form.phone == StringOr(m.phone, "")
    ensures e.form.fullName == m.fullName && e.form.role == m.role
  {
    Editor(Some(m.id), StaffForm(m.fullName, StringOr(m.email, ""), StringOr(m.phone, ""), m.role, ""), true)
  }

  /** `openCreate()`: an empty form for a new member with the role 'staff'. */
  function OpenCreate(): (e: Editor)
    ensures e.editingId.None? && e.open && e.form == BlankStaffForm
  {
    Editor(None, BlankStaffForm, true)
  }

  /** What `handleSave` asks the server for. */
  datatype SaveRequest =
    | UpdateProfile(id: string, fullName: string, email: string, phone: string, role: string, resetPassword: Option<string>)
    | CreateMember(fullName: string, email: string, role: string, password: string)
    | Refused(message: string)

  /**
   * `handleSave`: an edit updates the four profile fields and resets the
   * password only when one with a non-blank character was typed; a new
   * member needs a name and an e-mail.
   */
  function SaveRequestOf(e: Editor): (r: SaveRequest)
    ensures e.editingId.None? && (e.form.email == "" || e.form.fullName == "") ==> r == Refused("Name and Email required")
    ensures r.CreateMember? ==> r.fullName != "" && r.email != ""
    ensures r.UpdateProfile? ==> (r.resetPassword.Some? <==> Trim(e.form.password) != "")
  {
    if TruthyString(e.editingId) then
      var f := e.form;
      UpdateProfile(e.editingId.value, f.fullName, f.email, f.phone, f.role,
                    if f.password != "" && Trim(f.password) != "" then Some(f.password) else None)
    else if e.form.email == "" || e.form.fullName == "" then Refused("Name and Email required")
    else CreateMember(e.form.fullName, e.form.email, e.form.role, e.form.password)
  }

  /**
   * Saving the form `openEdit` filled, untouched, writes the member's own
   * fields back (a missing e-mail or phone as '') and resets no password;
   * saving the untouched form of `openCreate` is refused.
   */
  lemma OpenThenSave(m: StaffMember)
    requires m.id != ""
    ensures SaveRequestOf(OpenEdit(m)) ==
      UpdateProfile(m.id, m.fullName, StringOr(m.email, ""), StringOr(m.phone, ""), m.role, None)
    ensures SaveRequestOf(OpenCreate()) == Refused("Name and Email required")
  {
  }

  /** The password the account gets: the typed one, or 'ChangeMe123!' when none was typed. */
  function AccountPassword(typed: string): (p: string)
    ensures p != ""
  {
    StringOr(Some(typed), "ChangeMe123!")
  }

  /**
   * The toast after a member is created: it names the password the page
   * assumes (the typed one or the default), not the one the server reports,
   * which is '(Offline User)' when no service key is configured.
   */
  function CreatedToast(typed: string): (t: string)
    ensures typed != "" ==> t == "Staff created! Password: " + typed
    ensures typed == "" ==> t == "Staff created! Password: ChangeMe123!"
  {
    "Staff created! Password: " + AccountPassword(typed)
  }

  /**
   * With a service key the toast names the password the server issued;
   * without one the server reports '(Offline User)', and the toast agrees
   * only if that is what was typed.
   */
  lemma ToastPassword(typed: string)
    ensures CreatedToast(typed) == "Staff created! Password: " + AgentTools.IssuedPassword(Some(typed), true)
    ensures CreatedToast(typed) == "Staff created! Password: " + AgentTools.IssuedPassword(Some(typed), false)
        <==> typed == "(Offline User)"
  {
    var head := "Staff created! Password: ";
    var offline := AgentTools.IssuedPassword(Some(typed), false);
    if CreatedToast(typed) == head + offline {
      assert AccountPassword(typed) == (head + AccountPassword(typed))[|head|..];
      assert offline == (head + offline)[|head|..];
    }
  }

  /**
   * The toast after editing: a failed password reset is reported as
   * 'Profile updated, but …' whatever the profile update answered, and a
   * failed profile update alone as 'Error: …'.
   */
  function EditToast(profile: Response, reset: Option<Response>): (t: string)
    ensures reset.Some? && reset.value.Failure? ==> t == "Profile updated, but password reset failed: " + reset.value.error
    ensures (reset.None? || reset.value.Success?) && profile.Failure? ==> t == "Error: " + profile.error
    ensures (reset.None? || reset.value.Success?) && profile.Success? ==> t == "Profile updated!"
  {
    if reset.Some? && reset.value.Failure? then "Profile updated, but password reset failed: " + reset.value.error
    else if profile.Failure? then "Error: " + profile.error
    else "Profile updated!"
  }

  // -------------------------------------------------------------- switch

  /** `toggleActive(id, current)`: the value sent, and the toast shown when the update succeeds. */
  function ToggleActive(current: bool): (r: (bool, string))
    ensures r.0 == !current
    ensures r.1 == (if r.0 then "Staff activated" else "Staff deactivated")
  {
    (!current, if !current then "Staff activated" else "Staff deactivated")
  }

  /** Switching twice gives back the original state. */
  lemma ToggleTwice(current: bool)
    ensures ToggleActive(ToggleActive(current).0).0 == current
  {
  }

  /** The avatar of a member: at most two upper-case initials, the first from the name's first character. */
  lemma MemberInitials(m: StaffMember)
    requires m.fullName != [] && m.fullName[0] != ' '
    ensures var i := Initials(m.fullName);
      |i| <= 2 && NoLower(i) && i[0] == UpperChar(m.fullName[0])
  {
    InitialsFirst(m.fullName);
  }
}
