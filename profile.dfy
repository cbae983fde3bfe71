/** The value logic of the profile form: default values derived from the signed-in
    user, the profile URLs derived from the LinkedIn and Twitter handles, the
    normalisation of a stored profile record, interest chips, and the first-name check
    before an update. */
module Profile {
  import opened JsText

  datatype Option<T> = None | Some(value: T)

  /** An interest chip `{ key, label }`: a unique key and the text shown on it. The
      text is called `text` here because `label` is a reserved word in Dafny. */
  datatype Chip = Chip(key: string, text: string)

  /** The fields of the signed-in user that the form reads. */
  datatype User = User(
    uid: string,
    displayName: JsOpt<string>,
    isAnonymous: JsOpt<bool>,
    email: JsOpt<string>,
    photoURL: JsOpt<string>)

  /** The form's `values` object. Every property except `firstName` and `lastName`
      may be missing, because the defaults for a user without a display name hold
      only those two. */
  datatype Values = Values(
    id: JsOpt<string>,
    firstName: string,
    lastName: string,
    email: JsOpt<string>,
    linkedin: JsOpt<string>,
    twitter: JsOpt<string>,
    emailPublic: JsOpt<bool>,
    avatarUrl: JsOpt<string>,
    interest: JsOpt<string>,
    twitterUrl: JsOpt<string>,
    linkedinUrl: JsOpt<string>,
    interestsChips: JsOpt<seq<Chip>>,
    company: JsOpt<string>,
    companyTitle: JsOpt<string>,
    isAnonymous: JsOpt<bool>)

  /** A profile record as stored for the user; any property may be missing or null. */
  datatype StoredProfile = StoredProfile(
    firstName: JsOpt<string>,
    lastName: JsOpt<string>,
    email: JsOpt<string>,
    linkedin: JsOpt<string>,
    twitter: JsOpt<string>,
    emailPublic: JsOpt<bool>,
    avatarUrl: JsOpt<string>,
    twitterUrl: JsOpt<string>,
    linkedinUrl: JsOpt<string>,
    interestsChips: JsOpt<seq<Chip>>,
    company: JsOpt<string>,
    companyTitle: JsOpt<string>)

  /** The text inputs of the form, each bound to the property of the same name. */
  datatype TextField = FirstName | LastName | Email | CompanyTitle | Company | Linkedin | Twitter | Interest

  const LinkedinPrefix: string := "https://linkedin.com/in/"
  const TwitterPrefix: string := "https://twitter.com/"
  const FirstNameRequired: string := "First name can't be empty"

  /** `str ? str : ""`: a non-empty string is kept, anything falsy becomes "". */
  function OrEmpty(s: JsOpt<string>): (r: string)
    ensures s.Defined? ==> r == s.value
    ensures !s.Defined? ==> r == ""
    ensures r == "" <==> !TruthyString(s)
  {
    if TruthyString(s) then s.value else ""
  }

  /** The defaults of a user without a display name: only the two names, both empty. */
  const NamesOnly: Values := Values(Undefined, "", "", Undefined, Undefined, Undefined,
    Undefined, Undefined, Undefined, Undefined, Undefined, Undefined, Undefined, Undefined, Undefined)

  /** `getUserDefaultValues`. */
  function DefaultValues(u: User): (v: Values)
    ensures !TruthyString(u.displayName) ==> v == NamesOnly
    ensures TruthyString(u.displayName) ==>
      v.id == Defined(u.uid) && v.email == Defined(OrEmpty(u.email)) &&
      v.linkedin == v.twitter == v.interest == v.company == v.companyTitle == Defined("") &&
      v.emailPublic == Defined(false) && v.avatarUrl == u.photoURL &&
      v.twitterUrl == Null && v.linkedinUrl == Null && v.interestsChips == Defined([]) &&
      v.isAnonymous == u.isAnonymous
  {
    if !TruthyString(u.displayName) then NamesOnly
    else
      var parts := Split(u.displayName.value);
      Values(Defined(u.uid), parts[0], parts[|parts| - 1],
        Defined(OrEmpty(u.email)),
        Defined(""), Defined(""), Defined(false), u.photoURL, Defined(""),
        Null, Null, Defined([]), Defined(""), Defined(""), u.isAnonymous)
  }

  /** The names taken from a display name: the first name is everything before the first
      space and the last name everything after the last space; a name without a space
      gives that name for both. */
  lemma DefaultNames(u: User)
    requires TruthyString(u.displayName)
    ensures var name, v := u.displayName.value, DefaultValues(u);
      |v.firstName| <= |name| && v.firstName == name[..|v.firstName|] && Space !in v.firstName &&
      (|v.firstName| < |name| ==> name[|v.firstName|] == Space) &&
      |v.lastName| <= |name| && v.lastName == name[|name| - |v.lastName|..] && Space !in v.lastName &&
      (|v.lastName| < |name| ==> name[|name| - |v.lastName| - 1] == Space)
    ensures Space !in u.displayName.value ==>
      DefaultValues(u).firstName == DefaultValues(u).lastName == u.displayName.value
  {
    var name := u.displayName.value;
    SplitLast(name);
    if Space !in name {
      SplitWord(name);
    }
  }

  /** The profile URL for a handle: the prefix and the handle as typed, or null when the
      handle is blank. */
  function ProfileUrl(prefix: string, handle: string): (r: JsOpt<string>)
    ensures IsBlank(handle) ==> r == Null
    ensures !IsBlank(handle) ==> r == Defined(prefix + handle)
  {
    if !IsBlank(handle) then Defined(prefix + handle) else Null
  }

  /** Different non-blank handles give different URLs, so the URL determines the handle. */
  lemma ProfileUrlInjective(prefix: string, h1: string, h2: string)
    requires ProfileUrl(prefix, h1) == ProfileUrl(prefix, h2) != Null
    ensures h1 == h2
  {
    var url := ProfileUrl(prefix, h1).value;
    assert h1 == url[|prefix|..] == h2;
  }

  /** The text bound to an input field. */
  function Text(v: Values, f: TextField): JsOpt<string>
  {
    match f
    case FirstName => Defined(v.firstName)
    case LastName => Defined(v.lastName)
    case Email => v.email
    case CompanyTitle => v.companyTitle
    case Company => v.company
    case Linkedin => v.linkedin
    case Twitter => v.twitter
    case Interest => v.interest
  }

  /** `handleUpdateField(name)` applied to the typed text: the field takes the text,
      and the LinkedIn or Twitter handle also rewrites its URL. Nothing else changes. */
  function WithField(v: Values, f: TextField, s: string): (r: Values)
    ensures forall g :: Text(r, g) == if g == f then Defined(s) else Text(v, g)
    ensures r.linkedinUrl == if f == Linkedin then ProfileUrl(LinkedinPrefix, s) else v.linkedinUrl
    ensures r.twitterUrl == if f == Twitter then ProfileUrl(TwitterPrefix, s) else v.twitterUrl
    ensures r.id == v.id && r.emailPublic == v.emailPublic && r.avatarUrl == v.avatarUrl &&
            r.interestsChips == v.interestsChips && r.isAnonymous == v.isAnonymous
  {
    match f
    case FirstName => v.(firstName := s)
    case LastName => v.(lastName := s)
    case Email => v.(email := Defined(s))
    case CompanyTitle => v.(companyTitle := Defined(s))
    case Company => v.(company := Defined(s))
    case Linkedin => v.(linkedin := Defined(s), linkedinUrl := ProfileUrl(LinkedinPrefix, s))
    case Twitter => v.(twitter := Defined(s), twitterUrl := ProfileUrl(TwitterPrefix, s))
    case Interest => v.(interest := Defined(s))
  }

  /** Typing the same text into a field twice is the same as typing it once. */
  lemma WithFieldIdempotent(v: Values, f: TextField, s: string)
    ensures WithField(WithField(v, f, s), f, s) == WithField(v, f, s)
  {
  }

  /** `interestsChips ? interestsChips : []` (an array, even an empty one, is truthy). */
  function ChipsOrEmpty(chips: JsOpt<seq<Chip>>): (r: seq<Chip>)
    ensures chips.Defined? ==> r == chips.value
    ensures !chips.Defined? ==> r == []
  {
    if chips.Defined? then chips.value else []
  }

  /** The values after a stored record is read: every text property becomes a string
      (missing, null or empty ones become ""), `emailPublic` is true only for a stored
      `true`, missing chips become the empty list; `id`, `interest` and `isAnonymous`
      are kept from the current values. */
  function Normalised(v: Values, p: StoredProfile): (r: Values)
    ensures forall g :: g != Interest ==> Text(r, g).Defined?
    ensures r.firstName == OrEmpty(p.firstName) && r.lastName == OrEmpty(p.lastName)
    ensures r.email == Defined(OrEmpty(p.email)) && r.company == Defined(OrEmpty(p.company))
    ensures r.linkedin == Defined(OrEmpty(p.linkedin)) && r.twitter == Defined(OrEmpty(p.twitter))
    ensures r.linkedinUrl == Defined(OrEmpty(p.linkedinUrl)) && r.twitterUrl == Defined(OrEmpty(p.twitterUrl))
    ensures r.avatarUrl == Defined(OrEmpty(p.avatarUrl)) && r.companyTitle == Defined(OrEmpty(p.companyTitle))
    ensures r.emailPublic == Defined(p.emailPublic == Defined(true))
    ensures r.interestsChips == Defined(ChipsOrEmpty(p.interestsChips))
    ensures r.id == v.id && r.interest == v.interest && r.isAnonymous == v.isAnonymous
  {
    v.(firstName := OrEmpty(p.firstName),
       lastName := OrEmpty(p.lastName),
       email := Defined(OrEmpty(p.email)),
       linkedin := Defined(OrEmpty(p.linkedin)),
       twitter := Defined(OrEmpty(p.twitter)),
       emailPublic := Defined(p.emailPublic == Defined(true)),
       avatarUrl := Defined(OrEmpty(p.avatarUrl)),
       twitterUrl := Defined(OrEmpty(p.twitterUrl)),
       linkedinUrl := Defined(OrEmpty(p.linkedinUrl)),
       interestsChips := Defined(ChipsOrEmpty(p.interestsChips)),
       company := Defined(OrEmpty(p.company)),
       companyTitle := Defined(OrEmpty(p.companyTitle)))
  }

  /** Reading the same record twice gives what reading it once gave. */
  lemma NormalisedIdempotent(v: Values, p: StoredProfile)
    ensures Normalised(Normalised(v, p), p) == Normalised(v, p)
  {
  }

  /** The values and the chip list after `fetchUser` has read `record` (nothing changes
      when there is no record). */
  function Fetched(v: Values, chips: seq<Chip>, record: JsOpt<StoredProfile>): (r: (Values, seq<Chip>))
    ensures !record.Defined? ==> r == (v, chips)
    ensures record.Defined? ==>
      r.0 == Normalised(v, record.value) && r.1 == ChipsOrEmpty(record.value.interestsChips) &&
      r.0.interestsChips == Defined(r.1)
  {
    if record.Defined? then
      (Normalised(v, record.value), ChipsOrEmpty(record.value.interestsChips))
    else (v, chips)
  }

  /** `handleAddInterest` as written: `values.interest.trim()` throws a TypeError
      (`None`) when `interest` is missing or null. */
  function WithInterestAsWritten(v: Values, chips: seq<Chip>, key: string): (r: Option<(Values, seq<Chip>)>)
    ensures r.None? <==> !v.interest.Defined?
  {
    if !v.interest.Defined? then None
    else if !IsBlank(v.interest.value) then
      var added := chips + [Chip(key, v.interest.value)];
      Some((v.(interest := Defined(""), interestsChips := Defined(added)), added))
    else Some((v, chips))
  }

  /** `handleAddInterest` with a missing interest read as blank: a non-blank interest
      becomes one new chip at the end of the list, with the untrimmed text and the given
      key; the interest input is cleared and `values.interestsChips` is the new list.
      A blank or missing interest changes nothing. The limit of five chips is not
      checked here (only the input and the button are disabled at five). */
  function WithInterest(v: Values, chips: seq<Chip>, key: string): (r: (Values, seq<Chip>))
    ensures var added := v.interest.Defined? && !IsBlank(v.interest.value);
      added ==>
        |r.1| == |chips| + 1 && r.1[..|chips|] == chips && r.1[|chips|] == Chip(key, v.interest.value) &&
        r.0.interest == Defined("") && r.0.interestsChips == Defined(r.1) &&
        r.0.(interest := v.interest, interestsChips := v.interestsChips) == v
    ensures !(v.interest.Defined? && !IsBlank(v.interest.value)) ==> r == (v, chips)
  {
    if v.interest.Defined? && !IsBlank(v.interest.value) then
      var added := chips + [Chip(key, v.interest.value)];
      (v.(interest := Defined(""), interestsChips := Defined(added)), added)
    else (v, chips)
  }

  /** Wherever the code as written does not throw, the corrected version does the same. */
  lemma WithInterestAgrees(v: Values, chips: seq<Chip>, key: string)
    ensures WithInterestAsWritten(v, chips, key).Some? ==>
      WithInterestAsWritten(v, chips, key).value == WithInterest(v, chips, key)
  {
  }

  /** A user without a display name gets defaults without `interest`, and reading the
      stored profile does not add it: until something is typed into the interest input,
      the "Add interest" button throws as written, while the corrected version does
      nothing. */
  lemma AddInterestThrowsWithoutDisplayName(u: User, record: JsOpt<StoredProfile>, chips: seq<Chip>, key: string)
    requires !TruthyString(u.displayName)
    ensures var (v, _) := Fetched(DefaultValues(u), [], record);
      WithInterestAsWritten(v, chips, key) == None && WithInterest(v, chips, key) == (v, chips)
  {
  }

  /** The keys of a chip list are pairwise different. */
  predicate DistinctKeys(chips: seq<Chip>) {
    forall i, j :: 0 <= i < j < |chips| ==> chips[i].key != chips[j].key
  }

  /** With a fresh key, adding an interest keeps the chip keys pairwise different. */
  lemma WithInterestKeepsKeysDistinct(v: Values, chips: seq<Chip>, key: string)
    requires DistinctKeys(chips)
    requires forall i :: 0 <= i < |chips| ==> chips[i].key != key
    ensures DistinctKeys(WithInterest(v, chips, key).1)
  {
    var r := WithInterest(v, chips, key).1;
    if r != chips {
      forall i, j | 0 <= i < j < |r| ensures r[i].key != r[j].key {
        assert r[i] == chips[i];
        if j < |chips| {
          assert r[j] == chips[j];
        }
      }
    }
  }

  /** One call of `updateUser(uid, sessionId, values)`, with the `updating` flag as it
      was while the call ran. */
  datatype UpdateCall = UpdateCall(uid: string, sessionId: string, values: Values, updating: bool)

  /** The form component's state. */
  class EditProfileForm {
    const uid: string
    const sessionId: string
    var values: Values
    var interestsChips: seq<Chip>
    var errors: map<string, string>
    var updating: bool
    ghost var updates: seq<UpdateCall>

    /** First render: defaults from the user, no chips, no errors, not updating. */
    constructor (user: User, sessionId: string)
      ensures uid == user.uid && this.sessionId == sessionId
      ensures values == DefaultValues(user) && interestsChips == []
      ensures errors == map[] && !updating && updates == []
    {
      uid := user.uid;
      this.sessionId := sessionId;
      values := DefaultValues(user);
      interestsChips := [];
      errors := map[];
      updating := false;
      updates := [];
    }

    /** `handleUpdateField(name)` for a change event carrying `text`. */
    method HandleUpdateField(f: TextField, text: string)
      modifies this
      ensures values == WithField(old(values), f, text)
      ensures interestsChips == old(interestsChips) && errors == old(errors)
      ensures updating == old(updating) && updates == old(updates)
    {
      values := WithField(values, f, text);
    }

    /** `handleEmailPrivacy`: the privacy switch sets `emailPublic`. */
    method HandleEmailPrivacy(checked: bool)
      modifies this
      ensures values == old(values).(emailPublic := Defined(checked))
      ensures interestsChips == old(interestsChips) && errors == old(errors)
      ensures updating == old(updating) && updates == old(updates)
    {
      values := values.(emailPublic := Defined(checked));
    }

    /** `fetchUser`, given the record the read returned. */
    method FetchUser(record: JsOpt<StoredProfile>)
      modifies this
      ensures (values, interestsChips) == Fetched(old(values), old(interestsChips), record)
      ensures errors == old(errors) && updating == old(updating) && updates == old(updates)
    {
      if record.Defined? {
        values := Normalised(values, record.value);
        interestsChips := ChipsOrEmpty(record.value.interestsChips);
      }
    }

    /** `handleAddInterest`, given the key the generator produced; a missing interest
        reads as blank (see `WithInterestAsWritten` for the code as written). */
    method HandleAddInterest(key: string)
      modifies this
      ensures (values, interestsChips) == WithInterest(old(values), old(interestsChips), key)
      ensures errors == old(errors) && updating == old(updating) && updates == old(updates)
    {
      if values.interest.Defined? && !IsBlank(values.interest.value) {
        var newInterests := interestsChips + [Chip(key, values.interest.value)];
        interestsChips := newInterests;
        values := values.(interest := Defined(""), interestsChips := Defined(newInterests));
      }
    }

    /** `handleUpdateProfile`, given the record the read after the update returns.
        A blank first name sets the first-name error and stops before anything else;
        otherwise the values are written once while `updating` is true, the profile is
        read back, and `updating` ends false. */
    method HandleUpdateProfile(record: JsOpt<StoredProfile>) returns (submitted: bool)
      modifies this
      ensures submitted <==> !IsBlank(old(values).firstName)
      ensures !submitted ==>
        errors == map["firstName" := FirstNameRequired] &&
        values == old(values) && interestsChips == old(interestsChips) &&
        updating == old(updating) && updates == old(updates)
      ensures submitted ==>
        updates == old(updates) + [UpdateCall(uid, sessionId, old(values), true)] &&
        (values, interestsChips) == Fetched(old(values), old(interestsChips), record) &&
        !updating && errors == old(errors)
    {
      var blank := IsBlank(values.firstName);
      if blank {
        errors := map["firstName" := FirstNameRequired];
        submitted := false;
      } else {
        updating := true;
        updates := updates + [UpdateCall(uid, sessionId, values, updating)];
        var fetched := Fetched(values, interestsChips, record);
        values, interestsChips := fetched.0, fetched.1;
        updating := false;
        submitted := true;
      }
    }
  }
}
