/**
 * The formatting and normalisation helpers of `lib/utils.ts`: cent rounding,
 * two-decimal rendering, error messages, short order ids and the profile
 * page's field formatting and section layout.
 */
module Utils {
  import opened Wrappers
  import opened JsText
  import opened JsNumber

  // ---------------------------------------------------------------------------
  // round2

  /** What `round2` may be handed: a number, a string, or anything else. */
  datatype Round2Input = NumberValue(n: Numeric) | StringValue(s: string) | OtherValue

  const NotNumberOrString := "Value is not a number or string"

  /** Whole cents nearest to `x`; a value exactly half-way rounds up. */
  function RoundCents(x: real): (c: int)
    ensures c as real - 0.5 <= x * 100.0 < c as real + 0.5
  {
    MathRound(x * 100.0)
  }

  function RoundNumeric(n: Numeric): (r: Numeric)
    ensures n.NaN? <==> r.NaN?
    ensures n.Finite? ==> r.value == RoundCents(n.value) as real / 100.0
  {
    match n
    case NaN => NaN
    case Finite(x) => Finite(RoundCents(x) as real / 100.0)
  }

  /** `round2`: a number or numeric string rounded to cents; any other value is an error. */
  function Round2(v: Round2Input): (r: Result<Numeric, string>)
    ensures r.Failure? <==> v.OtherValue?
    ensures r.Failure? ==> r.error == NotNumberOrString
    ensures v.NumberValue? ==> r == Success(RoundNumeric(v.n))
    ensures v.StringValue? ==> r == Success(RoundNumeric(StringToNumber(v.s)))
  {
    match v
    case NumberValue(n) => Success(RoundNumeric(n))
    case StringValue(s) => Success(RoundNumeric(StringToNumber(s)))
    case OtherValue => Failure(NotNumberOrString)
  }

  /** An amount that is already a whole number of cents is left as it is. */
  lemma RoundCentsOfCents(c: int)
    ensures RoundCents(c as real / 100.0) == c
  {
  }

  /** Rounding a rounded value changes nothing. */
  lemma Round2Idempotent(n: Numeric)
    ensures Round2(NumberValue(n)).Success?
    ensures Round2(NumberValue(Round2(NumberValue(n)).value)) == Round2(NumberValue(n))
  {
    if n.Finite? {
      RoundCentsOfCents(RoundCents(n.value));
    }
  }

  /** A two-decimal string rounds to the amount it spells, as its number does. */
  lemma Round2OfFixedTwo(cents: int)
    ensures Round2(StringValue(FixedTwo(cents))) == Success(Finite(cents as real / 100.0))
    ensures Round2(StringValue(FixedTwo(cents))) == Round2(NumberValue(Finite(cents as real / 100.0)))
  {
    ParseFixedTwo(cents);
    var s := FixedTwo(cents);
    assert !IsBlank(s) by {
      assert !IsSpace(s[|s| - 3]);
    }
    RoundCentsOfCents(cents);
  }

  // ---------------------------------------------------------------------------
  // formatNumberWithDecimal

  /**
   * `formatNumberWithDecimal`, given the number's `toString()` text: the part
   * before the first point, a point, and the fraction padded to two digits
   * (".00" when there is no fraction).
   */
  function FormatNumberWithDecimal(text: string): (r: string)
    ensures StartsWith(r, Split(text, '.')[0] + ".")
  {
    var parts := Split(text, '.');
    var whole := parts[0];
    if |parts| > 1 && parts[1] != "" then whole + "." + PadEnd(parts[1], 2, '0')
    else whole + ".00"
  }

  /** Without a fraction the text gets ".00". */
  lemma FormatWithoutPoint(text: string)
    requires '.' !in text
    ensures FormatNumberWithDecimal(text) == text + ".00"
  {
    SplitNoSep(text, '.');
  }

  /**
   * With a fraction: an empty one becomes "00", a one-digit one is padded with
   * "0", a longer one is kept whole (never truncated); the integer part is kept.
   */
  lemma FormatWithPoint(whole: string, frac: string)
    requires '.' !in whole && '.' !in frac
    ensures FormatNumberWithDecimal(whole + "." + frac) ==
      whole + "." + (if |frac| == 0 then "00" else if |frac| == 1 then frac + "0" else frac)
  {
    assert whole + "." + frac == whole + ['.'] + frac;
    SplitAtFirst(whole, '.', frac);
    SplitNoSep(frac, '.');
    if |frac| == 1 {
      assert PadEnd(frac, 2, '0') == frac + "0";
    }
  }

  /** For an amount in cents, formatting its `toString()` text gives its `toFixed(2)` text. */
  lemma {:induction false} FormatNumberMatchesFixed(cents: int)
    ensures FormatNumberWithDecimal(CentsToString(cents)) == FixedTwo(cents)
  {
    var a := Abs(cents);
    var sign := if cents < 0 then "-" else "";
    var w := sign + NatToString(a / 100);
    var d := a % 100;
    AllDigitsNoPoint(NatToString(a / 100));
    assert '.' !in w;
    assert CentsToString(cents) == w + FractionText(d);
    assert FixedTwo(cents) == w + "." + TwoDigits(d);
    if d == 0 {
      assert w + FractionText(d) == w;
      FormatWithoutPoint(w);
      assert TwoDigits(d) == "00";
      assert w + "." + "00" == w + ".00";
    } else if d % 10 == 0 {
      var f := [DigitChar(d / 10)];
      assert w + FractionText(d) == w + "." + f;
      FormatWithPoint(w, f);
      assert TwoDigits(d) == f + "0";
    } else {
      var f := TwoDigits(d);
      assert w + FractionText(d) == w + "." + f;
      AllDigitsNoPoint(f);
      FormatWithPoint(w, f);
    }
  }

  // ---------------------------------------------------------------------------
  // formatError

  /** An error's `message`: a string, or another value shown by its `JSON.stringify` text. */
  datatype ErrorMessage = Text(text: string) | NonText(json: string)

  /** A Prisma error's `meta.target`: the list of offending fields, or a single text (a constraint name). */
  datatype Target = TargetList(fields: seq<string>) | TargetText(text: string)

  /**
   * The fields of a caught error that `formatError` reads: its name, a Zod
   * error's issue messages in order, a Prisma error's code and `meta.target`,
   * and its message.
   */
  datatype CaughtError = CaughtError(
    name: string,
    issueMessages: seq<string>,
    code: Option<string>,
    target: Option<Target>,
    message: ErrorMessage)

  /**
   * `error.meta?.target ? error.meta.target[0] : 'Field'`: a missing or empty
   * text target is falsy and gives "Field"; a text gives its first character;
   * a list its first field; an empty list (truthy) gives `undefined`, here `None`.
   */
  function TargetField(target: Option<Target>): (f: Option<string>)
    ensures f.None? <==> target == Some(TargetList([]))
    ensures target.None? || target == Some(TargetText("")) ==> f == Some("Field")
    ensures target.Some? && target.value.TargetText? && target.value.text != "" ==>
      f == Some([target.value.text[0]])
    ensures target.Some? && target.value.TargetList? && target.value.fields != [] ==>
      f == Some(target.value.fields[0])
  {
    match target
    case None => Some("Field")
    case Some(TargetText(t)) => if t == "" then Some("Field") else Some([t[0]])
    case Some(TargetList(fields)) => if fields == [] then None else Some(fields[0])
  }

  /** `charAt(0).toUpperCase() + slice(1)` */
  function Capitalize(field: string): (r: string)
    ensures |r| == |field|
    ensures |field| > 0 ==> r[0] == UpperChar(field[0]) && r[1..] == field[1..]
  {
    if field == [] then [] else [UpperChar(field[0])] + field[1..]
  }

  /**
   * `formatError`. Fails (a `TypeError` in the source) only for a unique
   * constraint error whose target list is present but empty.
   */
  function FormatError(e: CaughtError): (r: Result<string, string>)
    ensures r.Failure? <==>
      e.name != "ZodError" && e.name == "PrismaClientKnownRequestError" &&
      e.code == Some("P2002") && e.target == Some(TargetList([]))
  {
    if e.name == "ZodError" then Success(Join(e.issueMessages, ". "))
    else if e.name == "PrismaClientKnownRequestError" && e.code == Some("P2002") then
      match TargetField(e.target)
      case None => Failure("TypeError: Cannot read properties of undefined (reading 'charAt')")
      case Some(field) => Success(Capitalize(field) + " already exists")
    else
      match e.message
      case Text(t) => Success(t)
      case NonText(json) => Success(json)
  }

  /**
   * A Zod error's messages are joined with ". ", in order: no message gives
   * "", one message is shown alone, and more are separated by ". ".
   */
  lemma FormatZodError(e: CaughtError)
    requires e.name == "ZodError"
    ensures FormatError(e) == Success(Join(e.issueMessages, ". "))
    ensures e.issueMessages == [] ==> FormatError(e) == Success("")
    ensures |e.issueMessages| == 1 ==> FormatError(e) == Success(e.issueMessages[0])
    ensures |e.issueMessages| >= 2 ==>
      FormatError(e) == Success(e.issueMessages[0] + ". " + Join(e.issueMessages[1..], ". "))
  {
  }

  /**
   * A unique-constraint error names the first target field, capitalised (or
   * "Field" when there is no target, the first character of a text target),
   * followed by " already exists".
   */
  lemma FormatDuplicateError(e: CaughtError)
    requires e.name == "PrismaClientKnownRequestError" && e.code == Some("P2002")
    requires e.target != Some(TargetList([]))
    ensures FormatError(e).Success?
    ensures var field := TargetField(e.target).value;
      var m := FormatError(e).value;
      |m| == |field| + 15 &&
      m[|field|..] == " already exists" &&
      m[..|field|] == Capitalize(field)
  {
  }

  /** Any other error is shown by its message, stringified when it is not text. */
  lemma FormatOtherError(e: CaughtError)
    requires e.name != "ZodError"
    requires e.name != "PrismaClientKnownRequestError" || e.code != Some("P2002")
    ensures FormatError(e) == Success(if e.message.Text? then e.message.text else e.message.json)
  {
  }

  // ---------------------------------------------------------------------------
  // formatId

  /** `formatId`: ".." followed by the last six characters of the id (the whole id when shorter). */
  function FormatId(id: string): (r: string)
    ensures |r| == 2 + (if |id| < 6 then |id| else 6)
    ensures r[..2] == ".."
    ensures id == id[..|id| - (|r| - 2)] + r[2..]
  {
    var tail := if |id| >= 6 then id[|id| - 6..] else id;
    assert (".." + tail)[2..] == tail;
    ".." + tail
  }

  // ---------------------------------------------------------------------------
  // Profile formatting

  const NotProvided := "Not provided"

  /** `formatProfileField`: the fallback for a missing or empty value, else the value. */
  function FormatProfileField(value: Option<string>, fallback: string): (r: string)
    ensures (value.None? || value.value == "") ==> r == fallback
    ensures (value.Some? && value.value != "") ==> r == value.value
  {
    match value
    case None => fallback
    case Some(v) => if v == "" then fallback else v
  }

  /** Formatting twice with the same fallback is formatting once, and the result is never empty with a non-empty fallback. */
  lemma FormatProfileFieldStable(value: Option<string>, fallback: string)
    ensures FormatProfileField(Some(FormatProfileField(value, fallback)), fallback) == FormatProfileField(value, fallback)
    ensures fallback != "" ==> FormatProfileField(value, fallback) != ""
  {
  }

  datatype PreferenceStyle = YesNo | EnabledDisabled

  const NotSet := "Not set"

  /** `formatBooleanPreference` */
  function FormatBooleanPreference(value: Option<bool>, style: PreferenceStyle): (r: string)
    ensures value.None? ==> r == NotSet
    ensures value == Some(true) ==> r == (if style == EnabledDisabled then "Enabled" else "Yes")
    ensures value == Some(false) ==> r == (if style == EnabledDisabled then "Disabled" else "No")
  {
    match value
    case None => NotSet
    case Some(b) =>
      if style == EnabledDisabled then (if b then "Enabled" else "Disabled")
      else (if b then "Yes" else "No")
  }

  /** Reading a preference label back, for a given style. */
  function ParseBooleanPreference(text: string, style: PreferenceStyle): Option<Option<bool>> {
    if text == NotSet then Some(None)
    else if text == (if style == EnabledDisabled then "Enabled" else "Yes") then Some(Some(true))
    else if text == (if style == EnabledDisabled then "Disabled" else "No") then Some(Some(false))
    else None
  }

  /** The label determines the preference: formatting loses nothing. */
  lemma BooleanPreferenceRoundTrip(value: Option<bool>, style: PreferenceStyle)
    ensures ParseBooleanPreference(FormatBooleanPreference(value, style), style) == Some(value)
  {
  }

  // ---------------------------------------------------------------------------
  // organizeProfileData

  /** The user record the profile page reads; dates are instants, formatted by a supplied formatter. */
  datatype ProfileUser = ProfileUser(
    name: Option<string>, firstName: Option<string>, lastName: Option<string>,
    email: Option<string>, phone: Option<string>, dateOfBirth: Option<int>,
    gender: Option<string>, bio: Option<string>,
    country: Option<string>, state: Option<string>, city: Option<string>, zipCode: Option<string>,
    website: Option<string>, linkedIn: Option<string>, twitter: Option<string>,
    instagram: Option<string>, facebook: Option<string>,
    occupation: Option<string>, company: Option<string>,
    newsletter: Option<bool>, smsUpdates: Option<bool>,
    language: Option<string>, timezone: Option<string>, currency: Option<string>,
    role: Option<string>, isVerified: Option<bool>, isActive: Option<bool>,
    profileViews: Option<int>,
    lastLoginAt: Option<int>, createdAt: Option<int>, updatedAt: Option<int>)

  datatype ProfileField = ProfileField(labelText: string, value: string, key: string)

  datatype ProfileSection = ProfileSection(title: string, fields: seq<ProfileField>)

  function Keys(fields: seq<ProfileField>): (ks: seq<string>)
    ensures |ks| == |fields|
    ensures forall i :: 0 <= i < |fields| ==> ks[i] == fields[i].key
  {
    seq(|fields|, i requires 0 <= i < |fields| => fields[i].key)
  }

  function Text(labelText: string, value: Option<string>, key: string): ProfileField {
    ProfileField(labelText, FormatProfileField(value, NotProvided), key)
  }

  function Flag(labelText: string, value: Option<bool>, key: string): ProfileField {
    ProfileField(labelText, FormatBooleanPreference(value, YesNo), key)
  }

  function Date(labelText: string, value: Option<int>, key: string, formatDate: Option<int> -> string): ProfileField {
    ProfileField(labelText, formatDate(value), key)
  }

  /** How a key's attribute is shown: as text with a fallback, as a yes/no preference, or as a date. */
  datatype Shown = AsText(text: Option<string>, fallback: string) | AsFlag(flag: Option<bool>) | AsDate(instant: Option<int>)

  /** The text a shown attribute becomes; dates go through the supplied formatter. */
  function ShowValue(a: Shown, formatDate: Option<int> -> string): string {
    if a.AsDate? then formatDate(a.instant) else PlainValue(a)
  }

  /** The text of an attribute that is not a date. */
  function PlainValue(a: Shown): string
    requires !a.AsDate?
  {
    if a.AsText? then FormatProfileField(a.text, a.fallback) else FormatBooleanPreference(a.flag, YesNo)
  }

  /** For each profile key, the user attribute of the same name and how it is shown. */
  function AttributeOf(u: ProfileUser, key: string): Option<Shown> {
    match key
    case "name" => Some(AsText(u.name, NotProvided))
    case "firstName" => Some(AsText(u.firstName, NotProvided))
    case "lastName" => Some(AsText(u.lastName, NotProvided))
    case "email" => Some(AsText(u.email, NotProvided))
    case "phone" => Some(AsText(u.phone, NotProvided))
    case "dateOfBirth" => Some(AsDate(u.dateOfBirth))
    case "gender" => Some(AsText(u.gender, NotProvided))
    case "bio" => Some(AsText(u.bio, NotProvided))
    case "country" => Some(AsText(u.country, NotProvided))
    case "state" => Some(AsText(u.state, NotProvided))
    case "city" => Some(AsText(u.city, NotProvided))
    case "zipCode" => Some(AsText(u.zipCode, NotProvided))
    case "website" => Some(AsText(u.website, NotProvided))
    case "linkedIn" => Some(AsText(u.linkedIn, NotProvided))
    case "twitter" => Some(AsText(u.twitter, NotProvided))
    case "instagram" => Some(AsText(u.instagram, NotProvided))
    case "facebook" => Some(AsText(u.facebook, NotProvided))
    case "occupation" => Some(AsText(u.occupation, NotProvided))
    case "company" => Some(AsText(u.company, NotProvided))
    case "newsletter" => Some(AsFlag(u.newsletter))
    case "smsUpdates" => Some(AsFlag(u.smsUpdates))
    case "language" => Some(AsText(u.language, NotProvided))
    case "timezone" => Some(AsText(u.timezone, NotProvided))
    case "currency" => Some(AsText(u.currency, NotProvided))
    case "role" => Some(AsText(u.role, NotProvided))
    case "isVerified" => Some(AsFlag(u.isVerified))
    case "isActive" => Some(AsFlag(u.isActive))
    case "profileViews" =>
      Some(AsText(if u.profileViews.None? then None else Some(IntToString(u.profileViews.value)), "0"))
    case "lastLoginAt" => Some(AsDate(u.lastLoginAt))
    case "createdAt" => Some(AsDate(u.createdAt))
    case "updatedAt" => Some(AsDate(u.updatedAt))
    case _ => None
  }

  /** The label the profile page gives each key. */
  function LabelOf(key: string): string {
    match key
    case "name" => "Full Name"
    case "firstName" => "First Name"
    case "lastName" => "Last Name"
    case "email" => "Email"
    case "phone" => "Phone"
    case "dateOfBirth" => "Date of Birth"
    case "gender" => "Gender"
    case "bio" => "Bio"
    case "country" => "Country"
    case "state" => "State"
    case "city" => "City"
    case "zipCode" => "Zip Code"
    case "website" => "Website"
    case "linkedIn" => "LinkedIn"
    case "twitter" => "Twitter"
    case "instagram" => "Instagram"
    case "facebook" => "Facebook"
    case "occupation" => "Occupation"
    case "company" => "Company"
    case "newsletter" => "Newsletter"
    case "smsUpdates" => "SMS Updates"
    case "language" => "Language"
    case "timezone" => "Timezone"
    case "currency" => "Currency"
    case "role" => "Role"
    case "isVerified" => "Verified"
    case "isActive" => "Active"
    case "profileViews" => "Profile Views"
    case "lastLoginAt" => "Last Login"
    case "createdAt" => "Member Since"
    case "updatedAt" => "Last Updated"
    case _ => key
  }

  /** A field shows, under its key's label, the user attribute that key names. */
  predicate ShowsAttribute(f: ProfileField, u: ProfileUser, formatDate: Option<int> -> string) {
    f.labelText == LabelOf(f.key) && AttributeOf(u, f.key).Some? &&
    f.value == ShowValue(AttributeOf(u, f.key).value, formatDate)
  }

  /** The same for an attribute that is not a date, so no formatter is involved. */
  predicate ShowsPlainAttribute(f: ProfileField, u: ProfileUser) {
    f.labelText == LabelOf(f.key) && AttributeOf(u, f.key).Some? && !AttributeOf(u, f.key).value.AsDate? &&
    f.value == PlainValue(AttributeOf(u, f.key).value)
  }

  function PersonalSection(u: ProfileUser, formatDate: Option<int> -> string): (s: ProfileSection)
    ensures s.title == "Personal Information"
    ensures Keys(s.fields) == ["name", "firstName", "lastName", "email", "phone", "dateOfBirth", "gender", "bio"]
    ensures s.fields[0].value == FormatProfileField(u.name, NotProvided)
    ensures forall i :: 0 <= i < |s.fields| ==> ShowsAttribute(s.fields[i], u, formatDate)
  {
    ProfileSection("Personal Information", [
      Text("Full Name", u.name, "name"),
      Text("First Name", u.firstName, "firstName"),
      Text("Last Name", u.lastName, "lastName"),
      Text("Email", u.email, "email"),
      Text("Phone", u.phone, "phone"),
      Date("Date of Birth", u.dateOfBirth, "dateOfBirth", formatDate),
      Text("Gender", u.gender, "gender"),
      Text("Bio", u.bio, "bio")])
  }

  function LocationSection(u: ProfileUser): (s: ProfileSection)
    ensures s.title == "Location Details"
    ensures Keys(s.fields) == ["country", "state", "city", "zipCode"]
    ensures forall i :: 0 <= i < |s.fields| ==> ShowsPlainAttribute(s.fields[i], u)
  {
    ProfileSection("Location Details", [
      Text("Country", u.country, "country"),
      Text("State", u.state, "state"),
      Text("City", u.city, "city"),
      Text("Zip Code", u.zipCode, "zipCode")])
  }

  function SocialSection(u: ProfileUser): (s: ProfileSection)
    ensures s.title == "Social Media"
    ensures Keys(s.fields) == ["website", "linkedIn", "twitter", "instagram", "facebook"]
    ensures forall i :: 0 <= i < |s.fields| ==> ShowsPlainAttribute(s.fields[i], u)
  {
    ProfileSection("Social Media", [
      Text("Website", u.website, "website"),
      Text("LinkedIn", u.linkedIn, "linkedIn"),
      Text("Twitter", u.twitter, "twitter"),
      Text("Instagram", u.instagram, "instagram"),
      Text("Facebook", u.facebook, "facebook")])
  }

  function ProfessionalSection(u: ProfileUser): (s: ProfileSection)
    ensures s.title == "Professional"
    ensures Keys(s.fields) == ["occupation", "company"]
    ensures forall i :: 0 <= i < |s.fields| ==> ShowsPlainAttribute(s.fields[i], u)
  {
    ProfileSection("Professional", [
      Text("Occupation", u.occupation, "occupation"),
      Text("Company", u.company, "company")])
  }

  function PreferencesSection(u: ProfileUser): (s: ProfileSection)
    ensures s.title == "Preferences"
    ensures Keys(s.fields) == ["newsletter", "smsUpdates", "language", "timezone", "currency"]
    ensures s.fields[0].value == FormatBooleanPreference(u.newsletter, YesNo)
    ensures forall i :: 0 <= i < |s.fields| ==> ShowsPlainAttribute(s.fields[i], u)
  {
    ProfileSection("Preferences", [
      Flag("Newsletter", u.newsletter, "newsletter"),
      Flag("SMS Updates", u.smsUpdates, "smsUpdates"),
      Text("Language", u.language, "language"),
      Text("Timezone", u.timezone, "timezone"),
      Text("Currency", u.currency, "currency")])
  }

  function AccountSection(u: ProfileUser, formatDate: Option<int> -> string): (s: ProfileSection)
    ensures s.title == "Account Status"
    ensures Keys(s.fields) == ["role", "isVerified", "isActive", "profileViews", "lastLoginAt", "createdAt", "updatedAt"]
    ensures s.fields[3].value == (if u.profileViews.None? then "0" else IntToString(u.profileViews.value))
    ensures forall i :: 0 <= i < |s.fields| ==> ShowsAttribute(s.fields[i], u, formatDate)
  {
    var views := if u.profileViews.None? then None else Some(IntToString(u.profileViews.value));
    var fields := [
      Text("Role", u.role, "role"),
      Flag("Verified", u.isVerified, "isVerified"),
      Flag("Active", u.isActive, "isActive"),
      ProfileField("Profile Views", FormatProfileField(views, "0"), "profileViews"),
      Date("Last Login", u.lastLoginAt, "lastLoginAt", formatDate),
      Date("Member Since", u.createdAt, "createdAt", formatDate),
      Date("Last Updated", u.updatedAt, "updatedAt", formatDate)];
    assert AttributeOf(u, "profileViews") == Some(AsText(views, "0"));
    assert ShowsAttribute(fields[3], u, formatDate);
    ProfileSection("Account Status", fields)
  }

  /**
   * `organizeProfileData`, with `formatProfileDate` supplied as `formatDate`:
   * six sections in a fixed order holding 8, 4, 5, 2, 5 and 7 fields, each
   * field showing, under its label, the attribute its key names; the profile
   * view count falls back to "0".
   */
  function OrganizeProfileData(u: ProfileUser, formatDate: Option<int> -> string): (r: seq<ProfileSection>)
    ensures |r| == 6
    ensures r[0].title == "Personal Information" && r[1].title == "Location Details" &&
            r[2].title == "Social Media" && r[3].title == "Professional" &&
            r[4].title == "Preferences" && r[5].title == "Account Status"
    ensures |r[0].fields| == 8 && |r[1].fields| == 4 && |r[2].fields| == 5 &&
            |r[3].fields| == 2 && |r[4].fields| == 5 && |r[5].fields| == 7
    ensures Keys(r[5].fields)[3] == "profileViews"
    ensures r[5].fields[3].value == (if u.profileViews.None? then "0" else IntToString(u.profileViews.value))
    ensures forall k, i :: 0 <= k < |r| && 0 <= i < |r[k].fields| ==> ShowsAttribute(r[k].fields[i], u, formatDate)
  {
    [PersonalSection(u, formatDate), LocationSection(u), SocialSection(u),
     ProfessionalSection(u), PreferencesSection(u), AccountSection(u, formatDate)]
  }
}
