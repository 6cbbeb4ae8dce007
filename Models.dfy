/** The documents the handlers read and write, and the two collections that
    hold them. A collection is a sequence in insertion order, so a
    `findOne` is the first match; the database engine itself (queries,
    indexes, `populate` joins) is not modelled. */
module Models {
  import opened Js

  /** An ObjectId in its string form. */
  type UserId = string

  datatype User = User(id: UserId, name: string, email: string, avatar: string, password: string)

  /** A user record as `select("-password")` returns it: every field but the password. */
  datatype PublicUser = PublicUser(id: UserId, name: string, email: string, avatar: string)

  /** An entry of a profile's experience list; `id` is the sub-document id the
      database assigns when the entry is saved. */
  datatype Experience = Experience(
    id: string, title: string, company: string, location: Option<string>,
    from: string, to: Option<string>, current: Option<bool>, description: Option<string>)

  /** The optional top-level string fields of a profile. */
  datatype TextField = Company | Website | Location | Bio | Status | GithubUsername

  /** The keys of a profile's `social` sub-object. */
  datatype Network = Youtube | Twitter | Facebook | Linkedin | Instagram

  /** A stored profile: the owning user, the string fields that are set, the
      skills list, the social links that are set, and the experience list. */
  datatype Profile = Profile(
    user: UserId, text: map<TextField, string>, skills: seq<string>,
    social: map<Network, string>, experience: seq<Experience>)

  function Ids(users: seq<User>): (r: seq<UserId>)
    ensures |r| == |users| && forall i :: 0 <= i < |users| ==> r[i] == users[i].id
  {
    seq(|users|, i requires 0 <= i < |users| => users[i].id)
  }

  function Emails(users: seq<User>): (r: seq<string>)
    ensures |r| == |users| && forall i :: 0 <= i < |users| ==> r[i] == users[i].email
  {
    seq(|users|, i requires 0 <= i < |users| => users[i].email)
  }

  function Owners(profiles: seq<Profile>): (r: seq<UserId>)
    ensures |r| == |profiles| && forall i :: 0 <= i < |profiles| ==> r[i] == profiles[i].user
  {
    seq(|profiles|, i requires 0 <= i < |profiles| => profiles[i].user)
  }

  /** `experience.map(item => item.id)`. */
  function ExpIds(exps: seq<Experience>): seq<string> {
    Map(exps, (e: Experience) => e.id)
  }

  /** No two users share an email. */
  ghost predicate UniqueEmails(users: seq<User>) {
    forall i, j :: 0 <= i < j < |users| ==> users[i].email != users[j].email
  }

  /** No two users share an id (the collection's primary key). */
  ghost predicate UniqueIds(users: seq<User>) {
    forall i, j :: 0 <= i < j < |users| ==> users[i].id != users[j].id
  }

  /** No user owns two profiles. */
  ghost predicate UniqueOwners(profiles: seq<Profile>) {
    forall i, j :: 0 <= i < j < |profiles| ==> profiles[i].user != profiles[j].user
  }

  /** s without its i-th element, or s itself when there is none. */
  function RemoveAt<T>(s: seq<T>, i: int): (r: seq<T>)
    ensures 0 <= i < |s| ==> |r| == |s| - 1
    ensures !(0 <= i < |s|) ==> r == s
    ensures forall x :: x in r ==> x in s
  {
    if 0 <= i < |s| then s[..i] + s[i + 1..] else s
  }

  /** `User.findOneAndRemove({_id: id})`: one user fewer when some user has
      the id, none of whom stays in front of the removed one; otherwise
      nothing changes. */
  function WithoutId(users: seq<User>, id: UserId): (r: seq<User>)
    ensures id in Ids(users) ==> |r| == |users| - 1
    ensures id !in Ids(users) ==> r == users
    ensures forall u :: u in r ==> u in users
  {
    RemoveAt(users, IndexOf(Ids(users), id))
  }

  /** `Profile.findOneAndRemove({user: uid})`: one profile fewer when the
      user owns one, otherwise nothing changes. */
  function WithoutOwner(profiles: seq<Profile>, uid: UserId): (r: seq<Profile>)
    ensures uid in Owners(profiles) ==> |r| == |profiles| - 1
    ensures uid !in Owners(profiles) ==> r == profiles
    ensures forall q :: q in r ==> q in profiles
  {
    RemoveAt(profiles, IndexOf(Owners(profiles), uid))
  }

  /** Removing a user keeps ids and emails unique. */
  lemma WithoutIdKeepsUnique(users: seq<User>, id: UserId)
    ensures UniqueIds(users) ==> UniqueIds(WithoutId(users, id))
    ensures UniqueEmails(users) ==> UniqueEmails(WithoutId(users, id))
  {
    var k := IndexOf(Ids(users), id);
    if 0 <= k {
      var r := WithoutId(users, id);
      assert forall a :: 0 <= a < |r| ==> r[a] == users[if a < k then a else a + 1];
    }
  }

  /** With unique ids, removing a user by id leaves no user with that id and
      keeps every other user. */
  lemma {:induction false} WithoutIdRemovesAll(users: seq<User>, id: UserId)
    requires UniqueIds(users)
    ensures id !in Ids(WithoutId(users, id))
    ensures forall u :: u in users && u.id != id ==> u in WithoutId(users, id)
  {
    var k := IndexOf(Ids(users), id);
    var r := WithoutId(users, id);
    if 0 <= k {
      assert forall a :: 0 <= a < |r| ==> r[a] == users[if a < k then a else a + 1];
      forall a | 0 <= a < |r| ensures Ids(r)[a] != id {
        assert users[k].id == id;
      }
      forall u | u in users && u.id != id ensures u in r {
        var b :| 0 <= b < |users| && users[b] == u;
        assert b != k;
        assert r[if b < k then b else b - 1] == u;
      }
    } else {
      assert Ids(r) == Ids(users);
    }
  }

  /** Removing a profile keeps owners unique, and with unique owners the
      removed owner has no profile left. */
  lemma {:induction false} WithoutOwnerRemovesAll(profiles: seq<Profile>, uid: UserId)
    requires UniqueOwners(profiles)
    ensures UniqueOwners(WithoutOwner(profiles, uid))
    ensures uid !in Owners(WithoutOwner(profiles, uid))
    ensures forall q :: q in profiles && q.user != uid ==> q in WithoutOwner(profiles, uid)
  {
    var k := IndexOf(Owners(profiles), uid);
    var r := WithoutOwner(profiles, uid);
    if 0 <= k {
      assert forall a :: 0 <= a < |r| ==> r[a] == profiles[if a < k then a else a + 1];
      forall q | q in profiles && q.user != uid ensures q in r {
        var b :| 0 <= b < |profiles| && profiles[b] == q;
        assert b != k;
        assert r[if b < k then b else b - 1] == q;
      }
    } else {
      assert Owners(r) == Owners(profiles);
    }
  }

  /** Writing back a profile for the same owner changes no owner. */
  lemma ReplaceKeepsOwners(profiles: seq<Profile>, i: nat, q: Profile)
    requires i < |profiles| && q.user == profiles[i].user
    ensures Owners(profiles[i := q]) == Owners(profiles)
    ensures UniqueOwners(profiles) ==> UniqueOwners(profiles[i := q])
  {
  }

  /** Inserting a profile for a user who has none keeps owners unique. */
  lemma InsertFreshOwnerKeepsUnique(profiles: seq<Profile>, q: Profile)
    requires q.user !in Owners(profiles)
    ensures UniqueOwners(profiles) ==> UniqueOwners(profiles + [q])
  {
    var s := profiles + [q];
    if UniqueOwners(profiles) {
      forall i, j | 0 <= i < j < |s| ensures s[i].user != s[j].user {
        if j == |profiles| {
          assert Owners(profiles)[i] == s[i].user;
        }
      }
    }
  }

  // ---------------------------------------------------------------------------
  // Casting a path parameter to an ObjectId
  // ---------------------------------------------------------------------------

  predicate IsHexDigit(c: char) {
    ('0' <= c <= '9') || ('a' <= c <= 'f') || ('A' <= c <= 'F')
  }

  predicate IsLowerHexDigit(c: char) {
    ('0' <= c <= '9') || ('a' <= c <= 'f')
  }

  function LowerHex(c: char): char {
    if 'A' <= c <= 'F' then (c as int - 'A' as int + 'a' as int) as char else c
  }

  /** The lower-case hexadecimal digit of a value below 16. */
  function HexDigit(n: nat): (c: char)
    requires n < 16
    ensures IsLowerHexDigit(c)
  {
    if n < 10 then ('0' as int + n) as char else ('a' as int + n - 10) as char
  }

  /** The value of a lower-case hexadecimal digit. */
  function HexValue(c: char): (n: nat)
    requires IsLowerHexDigit(c)
    ensures n < 16
  {
    if c <= '9' then c as int - '0' as int else c as int - 'a' as int + 10
  }

  lemma HexValueOfDigit(n: nat)
    requires n < 16
    ensures HexValue(HexDigit(n)) == n
  {
  }

  /** The string form of an ObjectId: 24 lower-case hexadecimal digits. */
  predicate IsCanonicalId(v: string) {
    |v| == 24 && forall i :: 0 <= i < |v| ==> IsLowerHexDigit(v[i])
  }

  /** A parameter in hexadecimal form: 24 hexadecimal digits of either case. */
  predicate IsHexId(s: string) {
    |s| == 24 && forall i :: 0 <= i < |s| ==> IsHexDigit(s[i])
  }

  /** A parameter in byte form: 12 characters, each of which is one byte. */
  predicate IsByteId(s: string) {
    |s| == 12 && forall i :: 0 <= i < |s| ==> s[i] as int < 0x80
  }

  /** The hexadecimal spelling of a string of one-byte characters: two
      digits per character, high half first. */
  function ByteHex(s: string): (r: string)
    requires forall i :: 0 <= i < |s| ==> s[i] as int < 0x80
    ensures |r| == 2 * |s|
    ensures forall k :: 0 <= k < |r| ==> IsLowerHexDigit(r[k])
  {
    seq(2 * |s|, k requires 0 <= k < 2 * |s| =>
      if k % 2 == 0 then HexDigit(s[k / 2] as int / 16) else HexDigit(s[k / 2] as int % 16))
  }

  /** Each pair of digits of ByteHex spells the character it came from. */
  lemma ByteHexDecodes(s: string, i: nat)
    requires forall i :: 0 <= i < |s| ==> s[i] as int < 0x80
    requires i < |s|
    ensures 2 * i + 1 < |ByteHex(s)|
    ensures HexValue(ByteHex(s)[2 * i]) * 16 + HexValue(ByteHex(s)[2 * i + 1]) == s[i] as int
  {
    var r := ByteHex(s);
    var c := s[i] as int;
    assert (2 * i) % 2 == 0 && (2 * i) / 2 == i;
    assert (2 * i + 1) % 2 == 1 && (2 * i + 1) / 2 == i;
    assert r[2 * i] == HexDigit(c / 16);
    assert r[2 * i + 1] == HexDigit(c % 16);
    HexValueOfDigit(c / 16);
    HexValueOfDigit(c % 16);
  }

  /** The database's cast of a path parameter to an ObjectId: 24
      hexadecimal digits, read case-insensitively, or 12 characters taken as
      the id's 12 bytes; anything else is a cast error. The cast value is
      always in canonical form. */
  function CastObjectId(s: string): (r: Option<UserId>)
    ensures r.Some? <==> IsHexId(s) || IsByteId(s)
    ensures r.Some? ==> IsCanonicalId(r.value)
    ensures IsHexId(s) ==> forall i :: 0 <= i < 24 ==> r.value[i] == LowerHex(s[i])
    ensures IsByteId(s) ==> r.value == ByteHex(s)
  {
    if IsHexId(s) then Some(seq(24, i requires 0 <= i < 24 => LowerHex(s[i])))
    else if IsByteId(s) then Some(ByteHex(s))
    else None
  }

  /** Casting an id that is already in canonical form gives it back, so a
      cast value casts to itself. */
  lemma CastIsCanonical(s: string)
    requires CastObjectId(s).Some?
    ensures CastObjectId(CastObjectId(s).value) == CastObjectId(s)
  {
    var v := CastObjectId(s).value;
    assert IsHexId(v);
    var w := CastObjectId(v).value;
    assert |w| == |v|;
    forall i | 0 <= i < 24 ensures w[i] == v[i] {
      assert IsLowerHexDigit(v[i]);
    }
    assert w == v;
  }

  // ---------------------------------------------------------------------------
  // The collections
  // ---------------------------------------------------------------------------

  /** The `users` collection. */
  class UserStore {
    var users: seq<User>

    /** The primary key is unique. */
    ghost predicate Valid()
      reads this
    {
      UniqueIds(users)
    }

    constructor ()
      ensures Valid() && users == []
    {
      users := [];
    }

    /** `user.save()` of a new document: a duplicate-key error when the id is
        taken, otherwise the user is appended. */
    method Save(u: User) returns (saved: bool)
      requires Valid()
      modifies this
      ensures Valid()
      ensures saved <==> u.id !in Ids(old(users))
      ensures users == if saved then old(users) + [u] else old(users)
    {
      saved := IndexOf(Ids(users), u.id) == -1;
      if saved {
        users := users + [u];
      }
    }

    /** `User.findOneAndRemove({_id: id})`. */
    method FindOneAndRemove(id: UserId)
      requires Valid()
      modifies this
      ensures Valid()
      ensures users == WithoutId(old(users), id)
    {
      WithoutIdKeepsUnique(users, id);
      users := WithoutId(users, id);
    }
  }

  /** The `profiles` collection. */
  class ProfileStore {
    var profiles: seq<Profile>

    constructor ()
      ensures profiles == []
    {
      profiles := [];
    }

    /** `profile.save()` of a new document. */
    method Insert(p: Profile)
      modifies this
      ensures profiles == old(profiles) + [p]
    {
      profiles := profiles + [p];
    }

    /** Writing back the i-th document (`findOneAndUpdate`, or `save` of a
        document that was read). */
    method Replace(i: nat, p: Profile)
      requires i < |profiles|
      modifies this
      ensures profiles == old(profiles)[i := p]
    {
      profiles := profiles[i := p];
    }

    /** `Profile.findOneAndRemove({user: uid})`. */
    method FindOneAndRemove(uid: UserId)
      modifies this
      ensures profiles == WithoutOwner(old(profiles), uid)
    {
      profiles := WithoutOwner(profiles, uid);
    }
  }
}
