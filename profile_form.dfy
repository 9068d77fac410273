/**
 * The edit-profile form's state updates and the profile-update payload it
 * submits. The form holds the user record returned by `/auth/me`;
 * fields that the form may turn from a list into typed text carry both shapes.
 */
module ProfileForm {
  import opened Wrappers
  import opened Text

  datatype Role = Recruiter | JobSeeker | OtherRole

  /** A field that is an array on the server and becomes a string once the user edits it. */
  datatype ListOrText = Items(items: seq<string>) | Typed(text: string) | Missing

  datatype Profile = Profile(bio: Option<string>, experience: ListOrText, education: ListOrText)

  datatype UserData = UserData(id: string, name: string, email: string, role: Role,
                               company: Option<string>, skills: ListOrText, profile: Option<Profile>)

  /** The inputs wired to `handleChange` and to `handleProfileChange`, by their `name` attribute. */
  datatype Field = NameField | EmailField | CompanyField | SkillsField
  datatype ProfileField = BioField | ExperienceField | EducationField

  /** JSON values as the form builds and the session stores them; `JUndefined` is dropped when serialised. */
  datatype Json = JString(s: string) | JArray(elems: seq<Json>) | JObject(fields: map<string, Json>) | JUndefined

  function Strings(xs: seq<string>): (r: Json)
    ensures r.JArray? && |r.elems| == |xs|
    ensures forall k :: 0 <= k < |xs| ==> r.elems[k] == JString(xs[k])
  {
    JArray(seq(|xs|, k requires 0 <= k < |xs| => JString(xs[k])))
  }

  function OptionalString(s: Option<string>): Json {
    if s.Some? then JString(s.value) else JUndefined
  }

  function ListOrTextJson(l: ListOrText): Json {
    match l
    case Items(xs) => Strings(xs)
    case Typed(t) => JString(t)
    case Missing => JUndefined
  }

  /** The value of a top-level form field as the form sees it. */
  function FieldValue(u: UserData, f: Field): Json {
    match f
    case NameField => JString(u.name)
    case EmailField => JString(u.email)
    case CompanyField => OptionalString(u.company)
    case SkillsField => ListOrTextJson(u.skills)
  }

  function ProfileValue(p: Option<Profile>, f: ProfileField): Json {
    if p.None? then JUndefined
    else match f
      case BioField => OptionalString(p.value.bio)
      case ExperienceField => ListOrTextJson(p.value.experience)
      case EducationField => ListOrTextJson(p.value.education)
  }

  // ---------------------------------------------------------------------------
  // Form state updates

  /** `handleChange`: the named field takes the typed value; nothing else changes. */
  function WithField(u: UserData, f: Field, v: string): (r: UserData)
    ensures FieldValue(r, f) == JString(v)
    ensures forall g :: g != f ==> FieldValue(r, g) == FieldValue(u, g)
    ensures r.id == u.id && r.role == u.role && r.profile == u.profile
  {
    match f
    case NameField => u.(name := v)
    case EmailField => u.(email := v)
    case CompanyField => u.(company := Some(v))
    case SkillsField => u.(skills := Typed(v))
  }

  /** Typing into one field and then another gives the same record in either order. */
  lemma WithFieldCommutes(u: UserData, f: Field, v: string, g: Field, w: string)
    requires f != g
    ensures WithField(WithField(u, f, v), g, w) == WithField(WithField(u, g, w), f, v)
  {
  }

  /** Typing twice into one field keeps only the last value. */
  lemma WithFieldLastWins(u: UserData, f: Field, v: string, w: string)
    ensures WithField(WithField(u, f, v), f, w) == WithField(u, f, w)
  {
  }

  /**
   * `handleProfileChange`: the named profile field takes the typed value, the
   * other profile fields and every top-level field are kept. A record with no
   * profile gets one holding just that field.
   */
  function WithProfileField(u: UserData, f: ProfileField, v: string): (r: UserData)
    ensures r.profile.Some?
    ensures ProfileValue(r.profile, f) == JString(v)
    ensures forall g :: g != f ==> ProfileValue(r.profile, g) == ProfileValue(u.profile, g)
    ensures r.(profile := u.profile) == u
  {
    var p := if u.profile.Some? then u.profile.value else Profile(None, Missing, Missing);
    var p' := match f
      case BioField => p.(bio := Some(v))
      case ExperienceField => p.(experience := Typed(v))
      case EducationField => p.(education := Typed(v));
    u.(profile := Some(p'))
  }

  // ---------------------------------------------------------------------------
  // The profile-update payload

  /** `s.split(',').map(s => s.trim())`. */
  function SplitSkills(s: string): (r: seq<string>)
    ensures |r| == Count(s, ',') + 1
    ensures forall k :: 0 <= k < |r| ==> r[k] == Trim(Split(s, ',')[k])
    ensures forall k :: 0 <= k < |r| ==> ',' !in r[k] && Trimmed(r[k])
    ensures s == "" ==> r == [""]
  {
    var pieces := Split(s, ',');
    seq(|pieces|, k requires 0 <= k < |pieces| => Trim(pieces[k]))
  }

  /** Text whose comma-separated pieces carry no surrounding white space is rebuilt exactly by joining the list. */
  lemma SplitSkillsRoundTrip(s: string)
    requires forall k :: 0 <= k < |Split(s, ',')| ==> Trimmed(Split(s, ',')[k])
    ensures Join(SplitSkills(s), ",") == s
  {
    var pieces := Split(s, ',');
    forall k | 0 <= k < |pieces| ensures Trim(pieces[k]) == pieces[k] {
      TrimOfTrimmed(pieces[k]);
    }
    assert SplitSkills(s) == pieces;
    JoinSplit(s, ',');
  }

  /**
   * The form shows a skills list joined with ", "; splitting that text on ','
   * gives the first skill and then each later skill behind one space.
   */
  lemma {:induction false} SplitShownSkills(xs: seq<string>)
    requires |xs| >= 1
    requires forall k :: 0 <= k < |xs| ==> ',' !in xs[k]
    ensures |Split(Join(xs, ", "), ',')| == |xs|
    ensures Split(Join(xs, ", "), ',')[0] == xs[0]
    ensures forall k :: 1 <= k < |xs| ==> Split(Join(xs, ", "), ',')[k] == " " + xs[k]
    decreases |xs|
  {
    if |xs| == 1 {
      SplitPlain(xs[0], ',');
    } else {
      var tail := Join(xs[1..], ", ");
      SplitShownSkills(xs[1..]);
      assert xs[0] + ", " + tail == xs[0] + [','] + (" " + tail);
      SplitAfterPiece(xs[0], ',', " " + tail);
      assert (" " + tail)[1..] == tail;
      var below := Split(tail, ',');
      assert Split(" " + tail, ',') == [" " + below[0]] + below[1..];
      forall k | 1 <= k < |xs| ensures Split(Join(xs, ", "), ',')[k] == " " + xs[k] {
        if k > 1 {
          assert xs[1..][k - 1] == xs[k];
        }
      }
    }
  }

  /** Submitting the skills text exactly as the form shows it gives back a list of trimmed, comma-free skills. */
  lemma ShownSkillsRoundTrip(xs: seq<string>)
    requires |xs| >= 1
    requires forall k :: 0 <= k < |xs| ==> ',' !in xs[k] && Trimmed(xs[k])
    ensures SplitSkills(Join(xs, ", ")) == xs
  {
    SplitShownSkills(xs);
    var shown := Join(xs, ", ");
    var pieces := Split(shown, ',');
    var r := SplitSkills(shown);
    assert |r| == |xs|;
    forall k | 0 <= k < |xs| ensures r[k] == xs[k] {
      assert r[k] == Trim(pieces[k]);
      TrimOfTrimmed(xs[k]);
    }
  }

  /** The skills sent: an array as it is, typed text split and trimmed; anything else makes `split` throw. */
  function NormalizeSkills(skills: ListOrText): (r: Option<seq<string>>)
    ensures skills.Items? ==> r == Some(skills.items)
    ensures skills.Typed? ==> r == Some(SplitSkills(skills.text))
    ensures r.None? <==> skills.Missing?
  {
    match skills
    case Items(xs) => Some(xs)
    case Typed(t) => Some(SplitSkills(t))
    case Missing => None
  }

  /** `Array.isArray(x) ? x : []`. */
  function ListOrEmpty(l: ListOrText): (r: Json)
    ensures l.Items? ==> r == Strings(l.items)
    ensures !l.Items? ==> r == JArray([])
  {
    if l.Items? then Strings(l.items) else JArray([])
  }

  /** The `profile` object a job seeker sends: the bio or '', and the two lists or []. */
  function ProfilePayload(p: Option<Profile>): (r: Json)
    ensures r.JObject? && r.fields.Keys == {"bio", "experience", "education"}
    ensures r.fields["bio"] == JString(if p.Some? && p.value.bio.Some? then p.value.bio.value else "")
    ensures p.Some? && p.value.experience.Items? ==> r.fields["experience"] == Strings(p.value.experience.items)
    ensures !(p.Some? && p.value.experience.Items?) ==> r.fields["experience"] == JArray([])
    ensures p.Some? && p.value.education.Items? ==> r.fields["education"] == Strings(p.value.education.items)
    ensures !(p.Some? && p.value.education.Items?) ==> r.fields["education"] == JArray([])
  {
    var bio := if p.Some? then OrDefault(p.value.bio, "") else "";
    var experience := if p.Some? then ListOrEmpty(p.value.experience) else JArray([]);
    var education := if p.Some? then ListOrEmpty(p.value.education) else JArray([]);
    JObject(map["bio" := JString(bio), "experience" := experience, "education" := education])
  }

  /** Text typed into the experience or education box is not sent: the payload carries an empty list for it. */
  lemma TypedListsAreNotSent(u: UserData, f: ProfileField, v: string)
    requires f != BioField
    ensures var sent := ProfilePayload(WithProfileField(u, f, v).profile);
      sent.fields[if f == ExperienceField then "experience" else "education"] == JArray([])
  {
  }

  function PayloadKeys(role: Role): set<string> {
    match role
    case Recruiter => {"name", "email", "company"}
    case JobSeeker => {"name", "email", "skills", "profile"}
    case OtherRole => {"name", "email"}
  }

  /**
   * The payload `handleSubmit` builds: name and email always, the company for
   * a recruiter, the skills and the profile for a job seeker. It is None when
   * building it throws (a job seeker whose skills are neither a list nor text).
   */
  method BuildUpdatePayload(u: UserData) returns (r: Option<map<string, Json>>)
    ensures r.None? <==> u.role == JobSeeker && u.skills.Missing?
    ensures r.Some? ==> r.value.Keys == PayloadKeys(u.role)
    ensures r.Some? ==> r.value["name"] == JString(u.name) && r.value["email"] == JString(u.email)
    ensures r.Some? && u.role == Recruiter ==> r.value["company"] == OptionalString(u.company)
    ensures r.Some? && u.role == JobSeeker ==>
      r.value["skills"] == Strings(NormalizeSkills(u.skills).value)
      && r.value["profile"] == ProfilePayload(u.profile)
  {
    var payload := map["name" := JString(u.name), "email" := JString(u.email)];
    if u.role == Recruiter {
      payload := payload["company" := OptionalString(u.company)];
    }
    if u.role == JobSeeker {
      var skills := NormalizeSkills(u.skills);
      if skills.None? {
        return None;
      }
      payload := payload["skills" := Strings(skills.value)];
      payload := payload["profile" := ProfilePayload(u.profile)];
    }
    r := Some(payload);
  }

  /** The error shown when the update request fails: the server's message, or a fixed text. */
  function UpdateErrorMessage(serverMessage: Option<string>): (r: string)
    ensures Truthy(serverMessage) ==> r == serverMessage.value
    ensures !Truthy(serverMessage) ==> r == "Failed to update profile"
  {
    OrDefault(serverMessage, "Failed to update profile")
  }

  /**
   * The session copy of the user after a successful update: the stored record
   * with `name` and `email` overwritten. A missing session record spreads as
   * an empty object.
   */
  function MergeSessionUser(stored: Option<map<string, Json>>, name: string, email: string): (r: map<string, Json>)
    ensures r.Keys == (if stored.Some? then stored.value.Keys else {}) + {"name", "email"}
    ensures r["name"] == JString(name) && r["email"] == JString(email)
    ensures stored.Some? ==> forall k :: k in stored.value && k != "name" && k != "email" ==> r[k] == stored.value[k]
  {
    var base := if stored.Some? then stored.value else map[];
    base["name" := JString(name)]["email" := JString(email)]
  }

  /** `handleClose`: the dashboard for the session user's role, or the home page. */
  function CloseRoute(stored: Option<map<string, Json>>): (r: string)
    ensures r in {"/recruiter/dashboard", "/job_seeker/dashboard", "/"}
    ensures r == "/recruiter/dashboard" <==>
      stored.Some? && "role" in stored.value && stored.value["role"] == JString("recruiter")
    ensures r == "/job_seeker/dashboard" <==>
      stored.Some? && "role" in stored.value && stored.value["role"] == JString("job_seeker")
  {
    var role := if stored.Some? && "role" in stored.value then stored.value["role"] else JUndefined;
    if role == JString("recruiter") then "/recruiter/dashboard"
    else if role == JString("job_seeker") then "/job_seeker/dashboard"
    else "/"
  }

  // ---------------------------------------------------------------------------
  // Password change

  /** The answer to the password-update request: a reply, or an error with the server's message if it sent one. */
  datatype PasswordReply = Updated(message: Option<string>) | Refused(message: Option<string>)

  /** The password fields of the form and the message shown beside them. */
  class PasswordForm {
    var currentPassword: string
    var newPassword: string
    var message: string

    constructor ()
      ensures currentPassword == "" && newPassword == "" && message == ""
    {
      currentPassword, newPassword, message := "", "", "";
    }

    /** `handlePasswordChange`, once the request has been answered. */
    method Submit(reply: PasswordReply)
      modifies this
      ensures reply.Updated? ==>
        currentPassword == "" && newPassword == ""
        && message == OrDefault(reply.message, "Password updated successfully")
      ensures reply.Refused? ==>
        currentPassword == old(currentPassword) && newPassword == old(newPassword)
        && message == OrDefault(reply.message, "Error updating password")
      ensures message != ""
    {
      message := "";
      match reply
      case Updated(m) =>
        message := OrDefault(m, "Password updated successfully");
        currentPassword := "";
        newPassword := "";
      case Refused(m) =>
        message := OrDefault(m, "Error updating password");
    }
  }
}
