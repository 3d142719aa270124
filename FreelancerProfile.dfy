/**
 * The freelancer profile editor (src/components/auth/FreelancerProfile.tsx):
 * the form's defaults taken from the session user, the schema's bounds, the
 * local skills list with its add and remove buttons, and the update sent on
 * submit.
 */
module Profile {
  import opened Seqs
  import opened Wrappers
  import opened Session

  /** `ProfileFormValues`; phone and location are always strings, since the form starts them at "". */
  datatype FormValues = FormValues(
    name: string,
    email: string,
    bio: string,
    hourlyRate: real,
    availability: string,
    phone: string,
    location: string)

  /** The user fields the form edits. */
  const FormFields: set<Field> := {Name, Email, Bio, HourlyRate, Availability, Phone, Location}

  /** A form value as the user field it becomes. */
  function FormValue(v: FormValues, f: Field): Value
    requires f in FormFields
  {
    match f
    case Name => Text(v.name)
    case Email => Text(v.email)
    case Bio => Text(v.bio)
    case HourlyRate => Number(v.hourlyRate)
    case Availability => Text(v.availability)
    case Phone => Text(v.phone)
    case Location => Text(v.location)
  }

  /** The default of a form field when the user has no truthy value for it. */
  function Fallback(f: Field): Value
  {
    match f
    case HourlyRate => Number(0.0)
    case Availability => Text("Available")
    case _ => Text("")
  }

  /** JavaScript truthiness of a text or number value (NaN is not modelled). */
  predicate Truthy(v: Value)
  {
    match v
    case Text(t) => t != ""
    case Number(x) => x != 0.0
    case _ => true
  }

  /** The user supplies field `f` to `user?.f || fallback`: present, of its declared type, and truthy. */
  predicate Supplies(user: Option<Record>, f: Field)
  {
    user.Some? && f in user.value && HasKind(f, user.value[f]) && Truthy(user.value[f])
  }

  /** `user?.f || fallback` for a text field. */
  function UserText(user: Option<Record>, f: Field, fallback: string): string
  {
    if user.Some? then TextOr(user.value, f, fallback) else fallback
  }

  /** `user?.hourlyRate || 0`. */
  function UserRate(user: Option<Record>): real
  {
    if Supplies(user, HourlyRate) then user.value[HourlyRate].number else 0.0
  }

  /** The form's `defaultValues`: each field from the user when supplied, else its fallback. */
  function DefaultValues(user: Option<Record>): (v: FormValues)
    ensures forall f :: f in FormFields && Supplies(user, f) ==> FormValue(v, f) == user.value[f]
    ensures forall f :: f in FormFields && !Supplies(user, f) ==> FormValue(v, f) == Fallback(f)
  {
    FormValues(UserText(user, Name, ""), UserText(user, Email, ""), UserText(user, Bio, ""),
               UserRate(user), UserText(user, Availability, "Available"),
               UserText(user, Phone, ""), UserText(user, Location, ""))
  }

  /** The bounds of `profileFormSchema`. */
  const MinNameLength: nat := 2
  const MaxBioLength: nat := 500
  const MinHourlyRate: real := 1.0

  /**
   * The schema's length and number checks (the e-mail format check is not
   * modelled). A form it accepts has a truthy name and rate.
   */
  function SatisfiesSchema(v: FormValues): (ok: bool)
    ensures ok ==> Truthy(FormValue(v, Name)) && Truthy(FormValue(v, HourlyRate))
  {
    |v.name| >= MinNameLength && |v.bio| <= MaxBioLength && v.hourlyRate >= MinHourlyRate
  }

  /**
   * The default form passes the schema exactly when the user has a name of at
   * least two characters, a bio of at most 500 (or none) and a rate of at
   * least 1; in particular a user without a rate cannot save the form as it
   * first appears.
   */
  lemma DefaultsValidIff(u: Record)
    ensures SatisfiesSchema(DefaultValues(Some(u))) <==>
      (Name in u && u[Name].Text? && |u[Name].text| >= MinNameLength)
      && (Bio in u && u[Bio].Text? ==> |u[Bio].text| <= MaxBioLength)
      && (HourlyRate in u && u[HourlyRate].Number? && u[HourlyRate].number >= MinHourlyRate)
  {
    var v := DefaultValues(Some(u));
    assert FormValue(v, Name) == Text(v.name);
    assert FormValue(v, Bio) == Text(v.bio);
    assert FormValue(v, HourlyRate) == Number(v.hourlyRate);
  }

  /** `{ ...values, skills }`: the form fields plus the local skills list. */
  function Payload(v: FormValues, skills: seq<string>): (p: Record)
    ensures WellTyped(p)
    ensures p.Keys == FormFields + {Skills}
    ensures p[Skills] == TextList(skills)
    ensures forall f :: f in FormFields ==> p[f] == FormValue(v, f)
  {
    map[Name := Text(v.name), Email := Text(v.email), Bio := Text(v.bio),
        HourlyRate := Number(v.hourlyRate), Availability := Text(v.availability),
        Phone := Text(v.phone), Location := Text(v.location), Skills := TextList(skills)]
  }

  /**
   * Saving the untouched default form keeps every field the user supplied,
   * replaces the skills wholesale, keeps the user a user and leaves the
   * fields outside the form alone.
   */
  lemma SubmitDefaultsKeepsUser(u: Record, skills: seq<string>)
    requires IsUser(u)
    ensures var r := Merge(u, Payload(DefaultValues(Some(u)), skills));
      IsUser(r)
      && r[Skills] == TextList(skills)
      && (forall f :: f in FormFields && Supplies(Some(u), f) ==> r[f] == u[f])
      && (forall f :: f in u && f !in FormFields && f != Skills ==> r[f] == u[f])
  {
    MergeKeepsUser(u, Payload(DefaultValues(Some(u)), skills));
  }

  /**
   * Reopening the form after a save shows what was saved: every truthy form
   * value comes back as the field's default, and the skills come back as the
   * initial skills list.
   */
  lemma SavedFormReloads(u: Record, v: FormValues, skills: seq<string>)
    ensures var r := Some(Merge(u, Payload(v, skills)));
      (forall f :: f in FormFields && Truthy(FormValue(v, f)) ==> FormValue(DefaultValues(r), f) == FormValue(v, f))
      && InitialSkills(r) == skills
  {
    var r := Some(Merge(u, Payload(v, skills)));
    forall f | f in FormFields && Truthy(FormValue(v, f))
      ensures FormValue(DefaultValues(r), f) == FormValue(v, f)
    {
      assert Supplies(r, f);
    }
  }

  /** `addSkill` on the list: append a non-empty skill that is not there yet. */
  function WithSkill(skills: seq<string>, s: string): (r: seq<string>)
    ensures s != "" && s !in skills ==> r == skills + [s]
    ensures s == "" || s in skills ==> r == skills
    ensures skills <= r
    ensures forall x :: x in r <==> x in skills || (x == s && s != "")
    ensures NoDuplicates(skills) ==> NoDuplicates(r)
    ensures |r| <= |skills| + 1
  {
    if s != "" && s !in skills then skills + [s] else skills
  }

  /** The predicate handed to `filter` by `removeSkill`. */
  function NotEqualTo(s: string): string -> bool
  {
    x => x != s
  }

  /** `removeSkill` on the list: drop every copy of the skill, keep the rest in order. */
  function RemoveAll(skills: seq<string>, s: string): (r: seq<string>)
    ensures IsSubsequence(r, skills)
    ensures forall x :: x in r <==> x in skills && x != s
    ensures forall x :: multiset(r)[x] == if x == s then 0 else multiset(skills)[x]
    ensures NoDuplicates(skills) ==> NoDuplicates(r)
  {
    FilterMembers(skills, NotEqualTo(s));
    FilterMultiplicity(skills, NotEqualTo(s));
    FilterIsSubsequence(skills, NotEqualTo(s));
    FilterNoDuplicates(skills, NotEqualTo(s));
    Filter(skills, NotEqualTo(s))
  }

  /** Adding a skill that was not there and then removing it gives the original list back. */
  lemma AddThenRemoveRestores(skills: seq<string>, s: string)
    requires s !in skills
    ensures RemoveAll(WithSkill(skills, s), s) == skills
  {
    FilterKeepsAll(skills, NotEqualTo(s));
    if s != "" {
      FilterAppend(skills, [s], NotEqualTo(s));
    }
  }

  /** Removing a skill twice is the same as removing it once. */
  lemma RemoveIdempotent(skills: seq<string>, s: string)
    ensures RemoveAll(RemoveAll(skills, s), s) == RemoveAll(skills, s)
  {
    FilterKeepsAll(RemoveAll(skills, s), NotEqualTo(s));
  }

  /** `user?.skills || []`: an array is truthy even when empty. */
  function InitialSkills(user: Option<Record>): (skills: seq<string>)
    ensures user.Some? && Skills in user.value && user.value[Skills].TextList? ==> skills == user.value[Skills].items
    ensures skills != [] ==> user.Some? && Skills in user.value
  {
    if user.Some? && Skills in user.value && user.value[Skills].TextList? then user.value[Skills].items else []
  }

  /** The component's local state. */
  class ProfileEditor {
    var skills: seq<string>
    var newSkill: string
    var isEditing: bool
    var saveSuccess: bool

    constructor (user: Option<Record>)
      ensures skills == InitialSkills(user) && newSkill == ""
      ensures !isEditing && !saveSuccess
    {
      skills := InitialSkills(user);
      newSkill := "";
      isEditing := false;
      saveSuccess := false;
    }

    /** The skill input's `onChange`. */
    method SetNewSkill(s: string)
      modifies this
      ensures newSkill == s
      ensures skills == old(skills) && isEditing == old(isEditing) && saveSuccess == old(saveSuccess)
    {
      newSkill := s;
    }

    /** `addSkill`: a fresh, non-empty skill is appended and the input cleared; otherwise nothing changes. */
    method AddSkill()
      modifies this
      ensures skills == WithSkill(old(skills), old(newSkill))
      ensures newSkill == if skills == old(skills) then old(newSkill) else ""
      ensures old(newSkill) != "" && old(newSkill) !in old(skills) ==> skills == old(skills) + [old(newSkill)]
      ensures old(NoDuplicates(skills)) ==> NoDuplicates(skills)
      ensures isEditing == old(isEditing) && saveSuccess == old(saveSuccess)
    {
      if newSkill != "" && newSkill !in skills {
        skills := skills + [newSkill];
        newSkill := "";
      }
    }

    /** `removeSkill`. */
    method RemoveSkill(skillToRemove: string)
      modifies this
      ensures skills == RemoveAll(old(skills), skillToRemove)
      ensures skillToRemove !in skills
      ensures old(NoDuplicates(skills)) ==> NoDuplicates(skills)
      ensures newSkill == old(newSkill) && isEditing == old(isEditing) && saveSuccess == old(saveSuccess)
    {
      skills := RemoveAll(skills, skillToRemove);
    }

    /**
     * `onSubmit`, reached only for values the schema accepts: send the form
     * values with the local skills to the session, leave edit mode and show
     * the success banner.
     */
    method OnSubmit(values: FormValues, auth: AuthProvider)
      requires SatisfiesSchema(values)
      modifies this, auth, auth.storage
      ensures old(auth.user).Some? ==> auth.user == Some(Merge(old(auth.user).value, Payload(values, skills)))
      ensures old(auth.user).Some? ==> auth.user.value[Skills] == TextList(skills)
      ensures old(auth.user).Some? ==> auth.storage.entries == old(auth.storage.entries)[UserKey := auth.user.value]
      ensures old(auth.user).None? ==> auth.user == None && auth.storage.entries == old(auth.storage.entries)
      ensures old(auth.user).Some? ==> auth.Synced()
      ensures !auth.isLoading && auth.error == None
      ensures skills == old(skills) && newSkill == old(newSkill)
      ensures !isEditing && saveSuccess
    {
      auth.UpdateProfile(Payload(values, skills));
      isEditing := false;
      saveSuccess := true;
    }

    /** The "Edit Profile" button. */
    method StartEditing()
      modifies this
      ensures isEditing
      ensures skills == old(skills) && newSkill == old(newSkill) && saveSuccess == old(saveSuccess)
    {
      isEditing := true;
    }

    /** The "Cancel" button. */
    method CancelEditing()
      modifies this
      ensures !isEditing
      ensures skills == old(skills) && newSkill == old(newSkill) && saveSuccess == old(saveSuccess)
    {
      isEditing := false;
    }

    /** The timer that hides the success banner again. */
    method HideSuccessBanner()
      modifies this
      ensures !saveSuccess
      ensures skills == old(skills) && newSkill == old(newSkill) && isEditing == old(isEditing)
    {
      saveSuccess := false;
    }
  }
}
