/** /api/profile: reading, creating-or-updating and deleting a user's
    profile, and adding and removing entries of its experience list. Every
    private handler receives the caller's id, `req.user.id`, as set by the
    auth gate. */
module ProfileRoute {
  import opened Js
  import opened Http
  import opened Models
  import AuthRoute

  const NoProfile: string := "No profile for this user"
  const ProfileNotFound: string := "Profile not found"
  const StatusRequired: string := "Status is required"
  const SkillsRequired: string := "Skills are required"
  const TitleRequired: string := "Title is required"
  const CompanyRequired: string := "Company is required"
  const FromRequired: string := "From Date is required"
  const UserRemoved: string := "User removed"

  // ---------------------------------------------------------------------------
  // GET /me and GET /user/:user_id
  // ---------------------------------------------------------------------------

  /** GET /api/profile/me: the caller's profile, or 400 when there is none. */
  function MyProfile(profiles: seq<Profile>, uid: UserId): (r: Reply<Profile>)
    ensures r.Ok? <==> uid in Owners(profiles)
    ensures r.Ok? ==> r.body in profiles && r.body.user == uid
    ensures !r.Ok? ==> r == Fail(400, NoProfile)
  {
    var i := IndexOf(Owners(profiles), uid);
    if i == -1 then Fail(400, NoProfile) else Ok(profiles[i])
  }

  /** GET /api/profile/user/:user_id: a parameter that is not an ObjectId
      gets the same 400 as an id without a profile, never a 500. */
  function ProfileOfUser(profiles: seq<Profile>, param: string): (r: Reply<Profile>)
    ensures r.Ok? <==> CastObjectId(param).Some? && CastObjectId(param).value in Owners(profiles)
    ensures r.Ok? ==> r.body in profiles && r.body.user == CastObjectId(param).value
    ensures !r.Ok? ==> r == Fail(400, ProfileNotFound)
  {
    match CastObjectId(param)
    case None => Fail(400, ProfileNotFound)
    case Some(id) =>
      var i := IndexOf(Owners(profiles), id);
      if i == -1 then Fail(400, ProfileNotFound) else Ok(profiles[i])
  }

  // ---------------------------------------------------------------------------
  // POST /: create or update
  // ---------------------------------------------------------------------------

  datatype ProfileBody = ProfileBody(
    company: Option<string>, website: Option<string>, location: Option<string>,
    bio: Option<string>, status: Option<string>, githubusername: Option<string>,
    skills: Option<string>,
    youtube: Option<string>, facebook: Option<string>, twitter: Option<string>,
    instagram: Option<string>, linkedin: Option<string>)

  /** The body field that feeds text field f. */
  function TextInput(body: ProfileBody, f: TextField): Option<string> {
    match f
    case Company => body.company
    case Website => body.website
    case Location => body.location
    case Bio => body.bio
    case Status => body.status
    case GithubUsername => body.githubusername
  }

  /** The body field that feeds social link n. */
  function SocialInput(body: ProfileBody, n: Network): Option<string> {
    match n
    case Youtube => body.youtube
    case Twitter => body.twitter
    case Facebook => body.facebook
    case Linkedin => body.linkedin
    case Instagram => body.instagram
  }

  const AllTextFields: set<TextField> := {Company, Website, Location, Bio, Status, GithubUsername}
  const AllNetworks: set<Network> := {Youtube, Twitter, Facebook, Linkedin, Instagram}

  /** The validation errors, one item per failing check in declaration
      order: `status` and `skills` must not be empty. */
  function ProfileErrors(body: ProfileBody): (errs: seq<ErrorItem>)
    ensures errs == [] <==> Truthy(body.status) && Truthy(body.skills)
    ensures FieldError("status", StatusRequired) in errs <==> !Truthy(body.status)
    ensures FieldError("skills", SkillsRequired) in errs <==> !Truthy(body.skills)
    ensures |errs| == (if Truthy(body.status) then 0 else 1) + (if Truthy(body.skills) then 0 else 1)
    ensures !Truthy(body.status) ==> errs[0] == FieldError("status", StatusRequired)
  {
    (if Truthy(body.status) then [] else [FieldError("status", StatusRequired)])
    + (if Truthy(body.skills) then [] else [FieldError("skills", SkillsRequired)])
  }

  /** The skills string split on commas, each piece trimmed: one entry per
      comma plus one, empty entries kept, none holding a comma or starting
      or ending with white space. */
  function NormalizeSkills(skills: string): (r: seq<string>)
    ensures |r| == Count(skills, ',') + 1
    ensures forall i :: 0 <= i < |r| ==> ',' !in r[i]
    ensures forall i :: 0 <= i < |r| && r[i] != [] ==>
              !IsWhiteSpace(r[i][0]) && !IsWhiteSpace(r[i][|r[i]| - 1])
  {
    SplitLength(skills, ',');
    SplitPiecesFree(skills, ',');
    var pieces := Split(skills, ',');
    seq(|pieces|, i requires 0 <= i < |pieces| => Trim(pieces[i]))
  }

  /** The sparse update built from a request: `user` always, each text field
      and `skills` only when truthy in the body, and `social` always, holding
      exactly the truthy links. */
  datatype Patch = Patch(
    user: UserId, text: map<TextField, string>, skills: Option<seq<string>>,
    social: map<Network, string>)

  /** The truthy text fields among fs, with their values. */
  function TextFrom(body: ProfileBody, fs: set<TextField>): map<TextField, string> {
    map f | f in fs && Truthy(TextInput(body, f)) :: TextInput(body, f).value
  }

  /** The truthy social links among ns, with their values. */
  function SocialFrom(body: ProfileBody, ns: set<Network>): map<Network, string> {
    map n | n in ns && Truthy(SocialInput(body, n)) :: SocialInput(body, n).value
  }

  /** The patch a request produces. */
  function PatchFor(uid: UserId, body: ProfileBody): (p: Patch)
    ensures p.user == uid
    ensures forall f :: f in p.text <==> Truthy(TextInput(body, f))
    ensures forall f :: f in p.text ==> Truthy(TextInput(body, f)) && p.text[f] == TextInput(body, f).value
    ensures p.skills.Some? <==> Truthy(body.skills)
    ensures p.skills.Some? ==> p.skills.value == NormalizeSkills(body.skills.value)
    ensures forall n :: n in p.social <==> Truthy(SocialInput(body, n))
    ensures forall n :: n in p.social ==> Truthy(SocialInput(body, n)) && p.social[n] == SocialInput(body, n).value
  {
    Patch(uid, TextFrom(body, AllTextFields),
          if Truthy(body.skills) then Some(NormalizeSkills(body.skills.value)) else None,
          SocialFrom(body, AllNetworks))
  }

  /** Considering one more text field adds it exactly when it is truthy. */
  lemma TextStep(body: ProfileBody, fs: set<TextField>, f: TextField)
    ensures TextFrom(body, fs + {f}) ==
            if Truthy(TextInput(body, f)) then TextFrom(body, fs)[f := TextInput(body, f).value]
            else TextFrom(body, fs)
  {
  }

  /** Considering one more social link adds it exactly when it is truthy. */
  lemma SocialStep(body: ProfileBody, ns: set<Network>, n: Network)
    ensures SocialFrom(body, ns + {n}) ==
            if Truthy(SocialInput(body, n)) then SocialFrom(body, ns)[n := SocialInput(body, n).value]
            else SocialFrom(body, ns)
  {
  }

  /** The text properties of `profileFields`, assigned one at a time. */
  method BuildText(body: ProfileBody) returns (text: map<TextField, string>)
    ensures text == TextFrom(body, AllTextFields)
  {
    ghost var seen: set<TextField> := {};
    text := map[];
    assert text == TextFrom(body, seen);
    TextStep(body, seen, Company);
    if Truthy(body.company) { text := text[Company := body.company.value]; }
    seen := seen + {Company};
    TextStep(body, seen, Website);
    if Truthy(body.website) { text := text[Website := body.website.value]; }
    seen := seen + {Website};
    TextStep(body, seen, Location);
    if Truthy(body.location) { text := text[Location := body.location.value]; }
    seen := seen + {Location};
    TextStep(body, seen, Bio);
    if Truthy(body.bio) { text := text[Bio := body.bio.value]; }
    seen := seen + {Bio};
    TextStep(body, seen, Status);
    if Truthy(body.status) { text := text[Status := body.status.value]; }
    seen := seen + {Status};
    TextStep(body, seen, GithubUsername);
    if Truthy(body.githubusername) { text := text[GithubUsername := body.githubusername.value]; }
    seen := seen + {GithubUsername};
    assert seen == AllTextFields;
  }

  /** The `social` object of `profileFields`, starting empty and gaining
      one link at a time. */
  method BuildSocial(body: ProfileBody) returns (social: map<Network, string>)
    ensures social == SocialFrom(body, AllNetworks)
  {
    ghost var linked: set<Network> := {};
    social := map[];
    assert social == SocialFrom(body, linked);
    SocialStep(body, linked, Youtube);
    if Truthy(body.youtube) { social := social[Youtube := body.youtube.value]; }
    linked := linked + {Youtube};
    SocialStep(body, linked, Twitter);
    if Truthy(body.twitter) { social := social[Twitter := body.twitter.value]; }
    linked := linked + {Twitter};
    SocialStep(body, linked, Facebook);
    if Truthy(body.facebook) { social := social[Facebook := body.facebook.value]; }
    linked := linked + {Facebook};
    SocialStep(body, linked, Linkedin);
    if Truthy(body.linkedin) { social := social[Linkedin := body.linkedin.value]; }
    linked := linked + {Linkedin};
    SocialStep(body, linked, Instagram);
    if Truthy(body.instagram) { social := social[Instagram := body.instagram.value]; }
    linked := linked + {Instagram};
    assert linked == AllNetworks;
  }

  /** The handler's construction of `profileFields`. */
  method BuildPatch(uid: UserId, body: ProfileBody) returns (p: Patch)
    ensures p == PatchFor(uid, body)
  {
    var text := BuildText(body);
    var skills: Option<seq<string>> := None;
    if Truthy(body.skills) {
      skills := Some(NormalizeSkills(body.skills.value));
    }
    var social := BuildSocial(body);
    p := Patch(uid, text, skills, social);
  }

  /** `$set: patch` on a stored profile: every key the patch has overwrites,
      the other text fields and skills keep their stored values, `social` is
      replaced as a whole and the experience list is untouched. */
  function ApplySet(stored: Profile, p: Patch): (r: Profile)
    ensures r.user == p.user
    ensures forall f :: f in r.text <==> f in p.text || f in stored.text
    ensures forall f :: f in r.text ==> r.text[f] == if f in p.text then p.text[f] else stored.text[f]
    ensures r.skills == if p.skills.Some? then p.skills.value else stored.skills
    ensures r.social == p.social
    ensures r.experience == stored.experience
  {
    Profile(p.user, stored.text + p.text, p.skills.GetOr(stored.skills), p.social, stored.experience)
  }

  /** `new Profile(patch)`: the patch's user, text fields and social links,
      its skills or none, and no experience. */
  function NewProfile(p: Patch): (r: Profile)
    ensures r.user == p.user && r.text == p.text && r.social == p.social
    ensures r.skills == if p.skills.Some? then p.skills.value else []
    ensures r.experience == []
  {
    Profile(p.user, p.text, p.skills.GetOr([]), p.social, [])
  }

  /** Creating a profile is setting the patch on an empty document. */
  lemma CreateIsSetOnEmpty(p: Patch)
    ensures NewProfile(p) == ApplySet(Profile(p.user, map[], [], map[], []), p)
  {
    assert map[] + p.text == p.text;
  }

  /** Setting the same patch twice is setting it once. */
  lemma ApplySetIdempotent(stored: Profile, p: Patch)
    ensures ApplySet(ApplySet(stored, p), p) == ApplySet(stored, p)
  {
    var once := ApplySet(stored, p);
    assert once.text + p.text == once.text;
  }

  /** An update that leaves a text field out of the body keeps the stored
      value of that field, whatever else it changes. */
  lemma OmittedFieldSurvives(stored: Profile, uid: UserId, body: ProfileBody, f: TextField)
    requires !Truthy(TextInput(body, f))
    ensures f in ApplySet(stored, PatchFor(uid, body)).text <==> f in stored.text
    ensures f in stored.text ==> ApplySet(stored, PatchFor(uid, body)).text[f] == stored.text[f]
  {
  }

  /** The stored social links never survive an update: a body without any
      link empties them. */
  lemma SocialReplacedWholesale(stored: Profile, uid: UserId, body: ProfileBody)
    requires forall n :: !Truthy(SocialInput(body, n))
    ensures ApplySet(stored, PatchFor(uid, body)).social == map[]
  {
  }

  /** POST /api/profile. With a valid body the caller ends up with exactly
      one profile: the stored one with the patch set on it, or a new one
      built from the patch. */
  method CreateOrUpdate(store: ProfileStore, uid: UserId, body: ProfileBody) returns (r: Reply<Profile>)
    modifies store
    ensures ProfileErrors(body) != [] ==>
              r == Errors(ProfileErrors(body)) && store.profiles == old(store.profiles)
    ensures ProfileErrors(body) == [] && uid in Owners(old(store.profiles)) ==>
              var i := IndexOf(Owners(old(store.profiles)), uid);
              && store.profiles == old(store.profiles)[i := ApplySet(old(store.profiles)[i], PatchFor(uid, body))]
              && r == Ok(store.profiles[i])
    ensures ProfileErrors(body) == [] && uid !in Owners(old(store.profiles)) ==>
              && store.profiles == old(store.profiles) + [NewProfile(PatchFor(uid, body))]
              && r == Ok(NewProfile(PatchFor(uid, body)))
    ensures ProfileErrors(body) == [] ==> r.Ok? && r.body.user == uid && uid in Owners(store.profiles)
    ensures UniqueOwners(old(store.profiles)) ==> UniqueOwners(store.profiles)
  {
    var errs := ProfileErrors(body);
    if errs != [] {
      return Errors(errs);
    }
    var profileFields := BuildPatch(uid, body);
    var i := IndexOf(Owners(store.profiles), uid);
    if i != -1 {
      var updated := ApplySet(store.profiles[i], profileFields);
      ReplaceKeepsOwners(store.profiles, i, updated);
      store.Replace(i, updated);
      assert Owners(store.profiles)[i] == uid;
      return Ok(updated);
    }
    var created := NewProfile(profileFields);
    InsertFreshOwnerKeepsUnique(store.profiles, created);
    store.Insert(created);
    assert Owners(store.profiles)[|store.profiles| - 1] == uid;
    r := Ok(created);
  }

  // ---------------------------------------------------------------------------
  // DELETE /: the profile, then the user
  // ---------------------------------------------------------------------------

  /** Where a store call throws, if anywhere. */
  datatype Fault = NoFault | ProfileRemovalFails | UserRemovalFails

  /** DELETE /api/profile: remove the caller's profile, then the caller's
      user record. The two removals are separate: a failure of the second
      leaves the user without a profile, and no run removes the user but
      keeps the profile. */
  method DeleteAccount(profiles: ProfileStore, users: UserStore, uid: UserId, fault: Fault)
    returns (r: Reply<Message>)
    requires users.Valid()
    modifies profiles, users
    ensures users.Valid()
    ensures fault == ProfileRemovalFails ==>
              && r == ServerError("Server Error")
              && profiles.profiles == old(profiles.profiles) && users.users == old(users.users)
    ensures fault == UserRemovalFails ==>
              && r == ServerError("Server Error")
              && profiles.profiles == WithoutOwner(old(profiles.profiles), uid)
              && users.users == old(users.users)
    ensures fault == NoFault ==>
              && r == Ok(Message(UserRemoved))
              && profiles.profiles == WithoutOwner(old(profiles.profiles), uid)
              && users.users == WithoutId(old(users.users), uid)
  {
    if fault == ProfileRemovalFails {
      return ServerError("Server Error");
    }
    profiles.FindOneAndRemove(uid);
    if fault == UserRemovalFails {
      return ServerError("Server Error");
    }
    users.FindOneAndRemove(uid);
    r := Ok(Message(UserRemoved));
  }

  /** After the account is deleted, GET /me answers "No profile for this user". */
  lemma DeletedProfileNotFound(profiles: seq<Profile>, uid: UserId)
    requires UniqueOwners(profiles)
    ensures MyProfile(WithoutOwner(profiles, uid), uid) == Fail(400, NoProfile)
  {
    WithoutOwnerRemovesAll(profiles, uid);
  }

  /** After the account is deleted, GET /api/auth with the caller's token
      answers a JSON null: the caller's user record is gone. */
  lemma DeletedUserUnknown(users: seq<User>, uid: UserId)
    requires UniqueIds(users)
    ensures AuthRoute.Me(WithoutId(users, uid), uid) == Ok(None)
  {
    WithoutIdRemovesAll(users, uid);
  }

  // ---------------------------------------------------------------------------
  // PUT /experience and DELETE /experience/:exp_id
  // ---------------------------------------------------------------------------

  datatype ExperienceBody = ExperienceBody(
    title: Option<string>, company: Option<string>, location: Option<string>,
    from: Option<string>, to: Option<string>, current: Option<bool>,
    description: Option<string>)

  /** The validation errors, one item per failing check in declaration
      order: title, company and from must not be empty. */
  function ExperienceErrors(body: ExperienceBody): (errs: seq<ErrorItem>)
    ensures errs == [] <==> Truthy(body.title) && Truthy(body.company) && Truthy(body.from)
    ensures FieldError("title", TitleRequired) in errs <==> !Truthy(body.title)
    ensures FieldError("company", CompanyRequired) in errs <==> !Truthy(body.company)
    ensures FieldError("from", FromRequired) in errs <==> !Truthy(body.from)
    ensures |errs| == (if Truthy(body.title) then 0 else 1) + (if Truthy(body.company) then 0 else 1)
                      + (if Truthy(body.from) then 0 else 1)
    ensures !Truthy(body.title) ==> errs[0] == FieldError("title", TitleRequired)
    ensures !Truthy(body.from) ==> errs[|errs| - 1] == FieldError("from", FromRequired)
  {
    (if Truthy(body.title) then [] else [FieldError("title", TitleRequired)])
    + (if Truthy(body.company) then [] else [FieldError("company", CompanyRequired)])
    + (if Truthy(body.from) then [] else [FieldError("from", FromRequired)])
  }

  /** The entry a valid body makes: exactly its seven fields, and the id the
      database assigns. */
  function NewExperience(id: string, body: ExperienceBody): (e: Experience)
    requires ExperienceErrors(body) == []
    ensures e.id == id
    ensures e.title != "" && e.company != "" && e.from != ""
    ensures Some(e.title) == body.title && Some(e.company) == body.company && Some(e.from) == body.from
    ensures e.location == body.location && e.to == body.to
    ensures e.current == body.current && e.description == body.description
  {
    Experience(id, body.title.value, body.company.value, body.location, body.from.value,
               body.to, body.current, body.description)
  }

  /** PUT /api/profile/experience: the new entry goes in front. A caller
      without a profile gets a 500, because the handler reads the experience
      list of a missing profile. */
  method AddExperience(store: ProfileStore, uid: UserId, body: ExperienceBody, newId: string)
    returns (r: Reply<Profile>)
    modifies store
    ensures ExperienceErrors(body) != [] ==>
              r == Errors(ExperienceErrors(body)) && store.profiles == old(store.profiles)
    ensures ExperienceErrors(body) == [] && uid !in Owners(old(store.profiles)) ==>
              r == ServerError("Server Error") && store.profiles == old(store.profiles)
    ensures ExperienceErrors(body) == [] && uid in Owners(old(store.profiles)) ==>
              var i := IndexOf(Owners(old(store.profiles)), uid);
              var p := old(store.profiles)[i];
              && store.profiles == old(store.profiles)[i := p.(experience := [NewExperience(newId, body)] + p.experience)]
              && r == Ok(store.profiles[i])
    ensures UniqueOwners(old(store.profiles)) ==> UniqueOwners(store.profiles)
  {
    var errs := ExperienceErrors(body);
    if errs != [] {
      return Errors(errs);
    }
    var i := IndexOf(Owners(store.profiles), uid);
    if i == -1 {
      return ServerError("Server Error");
    }
    var profile := store.profiles[i];
    profile := profile.(experience := Unshift(profile.experience, NewExperience(newId, body)));
    ReplaceKeepsOwners(store.profiles, i, profile);
    store.Replace(i, profile);
    r := Ok(profile);
  }

  /** Two additions in a row leave the newer entry first. */
  lemma NewestExperienceFirst(exps: seq<Experience>, first: Experience, second: Experience)
    ensures Unshift(Unshift(exps, first), second) == [second, first] + exps
  {
  }

  /** The experience list after `splice(indexOf(exp_id), 1)`: one entry
      fewer, unless the list is empty, and no entry that was not there. */
  function RemoveExperience(exps: seq<Experience>, expId: string): (r: seq<Experience>)
    ensures |r| == if exps == [] then 0 else |exps| - 1
    ensures forall e :: e in r ==> e in exps
  {
    Splice(exps, IndexOf(ExpIds(exps), expId), 1)
  }

  /** When some entry has the id, exactly the first such entry goes and the
      rest keep their order. */
  lemma RemoveMatchingExperience(exps: seq<Experience>, expId: string)
    requires expId in ExpIds(exps)
    ensures var k := IndexOf(ExpIds(exps), expId);
            && 0 <= k < |exps| && exps[k].id == expId
            && (forall j :: 0 <= j < k ==> exps[j].id != expId)
            && RemoveExperience(exps, expId) == exps[..k] + exps[k + 1..]
            && |RemoveExperience(exps, expId)| == |exps| - 1
  {
    var k := IndexOf(ExpIds(exps), expId);
    forall j | 0 <= j < k ensures exps[j].id != expId {
      assert ExpIds(exps)[..k][j] == exps[j].id;
    }
    SpliceOneAt(exps, k);
  }

  /** When no entry has the id, indexOf gives -1 and `splice(-1, 1)` removes
      the last entry; only an empty list is left alone. */
  lemma RemoveMissingExperience(exps: seq<Experience>, expId: string)
    requires expId !in ExpIds(exps)
    ensures RemoveExperience(exps, expId) == if exps == [] then [] else exps[..|exps| - 1]
  {
    SpliceMinusOne(exps);
  }

  /** DELETE /api/profile/experience/:exp_id. */
  method DeleteExperience(store: ProfileStore, uid: UserId, expId: string) returns (r: Reply<Profile>)
    modifies store
    ensures uid !in Owners(old(store.profiles)) ==>
              r == ServerError("Server Error") && store.profiles == old(store.profiles)
    ensures uid in Owners(old(store.profiles)) ==>
              var i := IndexOf(Owners(old(store.profiles)), uid);
              var p := old(store.profiles)[i];
              && store.profiles == old(store.profiles)[i := p.(experience := RemoveExperience(p.experience, expId))]
              && r == Ok(store.profiles[i])
    ensures UniqueOwners(old(store.profiles)) ==> UniqueOwners(store.profiles)
  {
    var i := IndexOf(Owners(store.profiles), uid);
    if i == -1 {
      return ServerError("Server Error");
    }
    var profile := store.profiles[i];
    var removeIndex := IndexOf(ExpIds(profile.experience), expId);
    profile := profile.(experience := Splice(profile.experience, removeIndex, 1));
    ReplaceKeepsOwners(store.profiles, i, profile);
    store.Replace(i, profile);
    r := Ok(profile);
  }

  /** The example string splits into three untrimmed pieces. */
  lemma SkillsExampleSplit(skills: string)
    requires skills == "node, react,  express"
    ensures Split(skills, ',') == ["node", " react", "  express"]
  {
    var pieces := ["node", " react", "  express"];
    assert pieces[2..] == ["  express"];
    assert pieces[1..] == [" react", "  express"];
    assert Join(pieces[1..], ',') == " react" + [','] + "  express";
    assert Join(pieces, ',') == "node, react,  express";
    assert forall i :: 0 <= i < |pieces| ==> ',' !in pieces[i];
    SplitJoin(pieces, ',');
  }

  /** Trim leaves a string alone when neither end is white space. */
  lemma TrimUntouched(s: string)
    requires s != [] && !IsWhiteSpace(s[0]) && !IsWhiteSpace(s[|s| - 1])
    ensures Trim(s) == s
  {
  }

  /** A leading white-space character does not survive Trim. */
  lemma TrimDropsLead(s: string)
    requires s != [] && IsWhiteSpace(s[0])
    ensures Trim(s) == Trim(s[1..])
  {
  }

  /** Two leading white-space characters do not survive Trim. */
  lemma TrimDropsTwo(s: string)
    requires |s| >= 2 && IsWhiteSpace(s[0]) && IsWhiteSpace(s[1])
    ensures Trim(s) == Trim(s[2..])
  {
    TrimDropsLead(s);
    TrimDropsLead(s[1..]);
    assert s[1..][1..] == s[2..];
  }

  lemma LetterFacts()
    ensures !IsWhiteSpace('n') && !IsWhiteSpace('e') && !IsWhiteSpace('r') && !IsWhiteSpace('t')
    ensures IsWhiteSpace(' ')
  {
  }

  /** Trimming the three pieces of the example. */
  lemma SkillsExampleTrim(a: string, b: string, c: string)
    requires a == "node" && b == " react" && c == "  express"
    ensures Trim(a) == "node" && Trim(b) == "react" && Trim(c) == "express"
  {
    TrimNode(a);
    TrimReact(b);
    TrimExpress(c);
  }

  lemma TrimNode(a: string)
    requires a == "node"
    ensures Trim(a) == "node"
  {
    LetterFacts();
    TrimUntouched(a);
  }

  lemma TrimReact(b: string)
    requires b == " react"
    ensures Trim(b) == "react"
  {
    LetterFacts();
    TrimDropsLead(b);
    TrimUntouched(b[1..]);
  }

  lemma TrimExpress(c: string)
    requires c == "  express"
    ensures Trim(c) == "express"
  {
    LetterFacts();
    TrimDropsTwo(c);
    TrimUntouched(c[2..]);
  }

  /** Entry i of the normalised skills is piece i of the split, trimmed. */
  lemma NormalizeSkillsEntry(skills: string, i: nat)
    requires i < |Split(skills, ',')|
    ensures |NormalizeSkills(skills)| == |Split(skills, ',')|
    ensures NormalizeSkills(skills)[i] == Trim(Split(skills, ',')[i])
  {
  }

  lemma ThreeEntries<T>(r: seq<T>, x: T, y: T, z: T)
    requires |r| == 3 && r[0] == x && r[1] == y && r[2] == z
    ensures r == [x, y, z]
  {
  }

  /** A skills string of three pieces normalises to the three pieces trimmed. */
  lemma NormalizeThreePieces(skills: string, a: string, b: string, c: string)
    requires Split(skills, ',') == [a, b, c]
    ensures NormalizeSkills(skills) == [Trim(a), Trim(b), Trim(c)]
  {
    var pieces := Split(skills, ',');
    assert |pieces| == 3 && pieces[0] == a && pieces[1] == b && pieces[2] == c;
    NormalizeSkillsEntry(skills, 0);
    NormalizeSkillsEntry(skills, 1);
    NormalizeSkillsEntry(skills, 2);
    ThreeEntries(NormalizeSkills(skills), Trim(a), Trim(b), Trim(c));
  }

  /** The skills string "node, react,  express" normalises to
      ["node", "react", "express"]. */
  lemma SkillsExample(skills: string)
    requires skills == "node, react,  express"
    ensures NormalizeSkills(skills) == ["node", "react", "express"]
  {
    SkillsExampleSplit(skills);
    SkillsExampleTrim("node", " react", "  express");
    NormalizeThreePieces(skills, "node", " react", "  express");
  }
}
