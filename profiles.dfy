/** The profile service in mock mode (services/firebase.ts). With the
    placeholder configuration the service always runs in mock mode: profiles
    live in an in-memory record `mockDb` keyed by uid, and the signed-in
    user's profile is saved in one persistent slot (`localStorage` key
    'mock_auth'). A user's uid is derived from the email alone. */
module Profiles {
  import opened Types

  const UID_PREFIX: string := "mock-user-"
  const DEFAULT_DISPLAY_NAME: string := "Mock User"
  const DEFAULT_DESCRIPTION: string := "Recovering nicely."

  /** The characters the pattern `[a-zA-Z0-9]` matches. */
  predicate IsAsciiAlnum(c: char) {
    ('a' <= c <= 'z') || ('A' <= c <= 'Z') || ('0' <= c <= '9')
  }

  /** `s.replace(/[^a-zA-Z0-9]/g, '')`: the ASCII letters and digits of
      `s`, in order. */
  function StripNonAlnum(s: string): (r: string)
    ensures |r| <= |s|
    ensures forall i :: 0 <= i < |r| ==> IsAsciiAlnum(r[i])
    ensures (forall i :: 0 <= i < |s| ==> IsAsciiAlnum(s[i])) ==> r == s
    decreases |s|
  {
    if s == [] then []
    else
      (if IsAsciiAlnum(s[0]) then [s[0]] else []) + StripNonAlnum(s[1..])
  }

  /** Stripping keeps every letter and digit: each occurs as often in the
      result as in the input. */
  lemma {:induction false} StripKeepsAlnum(s: string, c: char)
    requires IsAsciiAlnum(c)
    ensures multiset(StripNonAlnum(s))[c] == multiset(s)[c]
    decreases |s|
  {
    if s != [] {
      StripKeepsAlnum(s[1..], c);
      assert s == [s[0]] + s[1..];
      assert multiset(s) == multiset([s[0]]) + multiset(s[1..]);
    }
  }

  /** Stripping works piece by piece. */
  lemma {:induction false} StripDistributes(a: string, b: string)
    ensures StripNonAlnum(a + b) == StripNonAlnum(a) + StripNonAlnum(b)
    decreases |a|
  {
    if a == [] {
      assert a + b == b;
    } else {
      assert (a + b)[0] == a[0] && (a + b)[1..] == a[1..] + b;
      var head := if IsAsciiAlnum(a[0]) then [a[0]] else [];
      StripDistributes(a[1..], b);
      calc {
        StripNonAlnum(a + b);
        head + StripNonAlnum(a[1..] + b);
        head + (StripNonAlnum(a[1..]) + StripNonAlnum(b));
        (head + StripNonAlnum(a[1..])) + StripNonAlnum(b);
        StripNonAlnum(a) + StripNonAlnum(b);
      }
    }
  }

  /** The uid login and register derive from an email. */
  function MockUid(email: string): (uid: string)
    ensures |uid| >= |UID_PREFIX| && uid[..|UID_PREFIX|] == UID_PREFIX
    ensures forall i :: |UID_PREFIX| <= i < |uid| ==> IsAsciiAlnum(uid[i])
  {
    UID_PREFIX + StripNonAlnum(email)
  }

  /** Two emails share a uid exactly when their letters and digits agree:
      the derivation ignores everything else. */
  lemma SameUidIffSameAlnum(e1: string, e2: string)
    ensures MockUid(e1) == MockUid(e2) <==> StripNonAlnum(e1) == StripNonAlnum(e2)
  {
  }

  /** So distinct emails can collide: "a.b" and "ab" share a uid. */
  lemma DistinctEmailsShareUid()
    ensures "a.b" != "ab"
    ensures MockUid("a.b") == MockUid("ab")
  {
  }

  /** A profile whose uid is the one derived from its email. */
  predicate Keyed(p: UserProfile) {
    p.email.Some? && p.uid == MockUid(p.email.value)
  }

  /** The profile mock login creates for an email it knows nothing about. */
  function DefaultProfile(email: string): (p: UserProfile)
    ensures p.uid == MockUid(email) && p.email == Some(email) && Keyed(p)
    ensures p.displayName == Some(DEFAULT_DISPLAY_NAME) && p.description == DEFAULT_DESCRIPTION
    ensures p.highScore == 0
  {
    UserProfile(MockUid(email), Some(email), Some(DEFAULT_DISPLAY_NAME), DEFAULT_DESCRIPTION, 0)
  }

  /** The profile mock register creates, whatever was stored before. */
  function RegisteredProfile(email: string, name: string): (p: UserProfile)
    ensures p.uid == MockUid(email) && p.email == Some(email) && Keyed(p)
    ensures p.displayName == Some(name) && p.description == DEFAULT_DESCRIPTION
    ensures p.highScore == 0
  {
    UserProfile(MockUid(email), Some(email), Some(name), DEFAULT_DESCRIPTION, 0)
  }

  /** A profile after `updateStats(uid, newScore, description)`: the high
      score becomes the larger of the two, the description is replaced
      exactly when one is given, and nothing else changes. */
  function UpdatedProfile(p: UserProfile, newScore: int, description: Option<string>): (r: UserProfile)
    ensures r.highScore >= p.highScore && r.highScore >= newScore
    ensures r.highScore == p.highScore || r.highScore == newScore
    ensures description.Some? ==> r.description == description.value
    ensures description.None? ==> r.description == p.description
    ensures r.uid == p.uid && r.email == p.email && r.displayName == p.displayName
  {
    var q := if newScore > p.highScore then p.(highScore := newScore) else p;
    if description.Some? then q.(description := description.value) else q
  }

  /** Updates only ever raise a high score, however many there are. */
  lemma {:induction false} HighScoreNeverDecreases(p: UserProfile, scores: seq<int>)
    ensures UpdatesOf(p, scores).highScore >= p.highScore
    ensures forall i :: 0 <= i < |scores| ==> UpdatesOf(p, scores).highScore >= scores[i]
    decreases |scores|
  {
    if scores != [] {
      var q := UpdatedProfile(p, scores[0], None);
      HighScoreNeverDecreases(q, scores[1..]);
      assert forall i :: 1 <= i < |scores| ==> scores[i] == scores[1..][i - 1];
    }
  }

  /** The profile after a series of score updates without a description. */
  function UpdatesOf(p: UserProfile, scores: seq<int>): UserProfile
    decreases |scores|
  {
    if scores == [] then p else UpdatesOf(UpdatedProfile(p, scores[0], None), scores[1..])
  }

  /** What login and register return about the signed-in user. */
  datatype AuthUser = AuthUser(uid: string, email: Option<string>, displayName: Option<string>)

  /** The mock backend: `db` is `mockDb`, `savedSession` the 'mock_auth'
      slot of `localStorage`. */
  class MockProfileStore {
    var db: map<string, UserProfile>
    var savedSession: Option<UserProfile>

    /** Every entry sits under its own uid, derived from its email, and the
        saved session, when its uid has an entry, agrees with that entry. */
    ghost predicate Valid()
      reads this
    {
      && (forall k :: k in db ==> db[k].uid == k && Keyed(db[k]))
      && (savedSession.Some? ==>
            && Keyed(savedSession.value)
            && (savedSession.value.uid in db ==> db[savedSession.value.uid] == savedSession.value))
    }

    /** Loading the page: `mockDb` starts empty, while the saved session
        `stored` survives from earlier visits. */
    constructor (stored: Option<UserProfile>)
      ensures db == map[] && savedSession == stored
      ensures (stored.Some? ==> Keyed(stored.value)) ==> Valid()
    {
      db := map[];
      savedSession := stored;
    }

    /** Mock login. The password is not consulted. A known uid keeps its
        profile; otherwise a saved session for the same email is recovered,
        and failing that a default profile is created. The profile becomes
        the saved session. */
    method Login(email: string, password: string) returns (user: AuthUser)
      modifies this
      ensures var uid := MockUid(email);
        && uid in db
        && savedSession == Some(db[uid])
        && user == AuthUser(uid, Some(email), db[uid].displayName)
      ensures var uid := MockUid(email);
        && (uid in old(db) ==> db == old(db))
        && (uid !in old(db) && old(savedSession).Some? && old(savedSession).value.email == Some(email) ==>
              db == old(db)[uid := old(savedSession).value])
        && (uid !in old(db) && !(old(savedSession).Some? && old(savedSession).value.email == Some(email)) ==>
              db == old(db)[uid := DefaultProfile(email)])
      ensures old(Valid()) ==> Valid() && savedSession.value.uid == user.uid
    {
      var uid := UID_PREFIX + StripNonAlnum(email);
      var profile: UserProfile;
      if uid in db {
        profile := db[uid];
      } else if savedSession.Some? && savedSession.value.email == Some(email) {
        profile := savedSession.value;
        db := db[uid := profile];
      } else {
        profile := UserProfile(uid, Some(email), Some("Mock User"), "Recovering nicely.", 0);
        db := db[uid := profile];
      }
      savedSession := Some(profile);
      user := AuthUser(uid, Some(email), profile.displayName);
    }

    /** Mock register: a fresh profile, with high score 0, replaces any
        stored under the email's uid and becomes the saved session. */
    method Register(email: string, password: string, name: string) returns (user: AuthUser)
      modifies this
      ensures db == old(db)[MockUid(email) := RegisteredProfile(email, name)]
      ensures savedSession == Some(RegisteredProfile(email, name))
      ensures user == AuthUser(MockUid(email), Some(email), Some(name))
      ensures old(Valid()) ==> Valid()
    {
      var uid := UID_PREFIX + StripNonAlnum(email);
      var profile := UserProfile(uid, Some(email), Some(name), "Recovering nicely.", 0);
      db := db[uid := profile];
      savedSession := Some(profile);
      user := AuthUser(uid, Some(email), Some(name));
    }

    /** Mock logout clears the saved session and nothing else. */
    method Logout()
      modifies this
      ensures savedSession == None && db == old(db)
      ensures old(Valid()) ==> Valid()
    {
      savedSession := None;
    }

    /** Mock `createUserProfile`: stores `profile` under its uid, and
        refreshes the saved session when it belongs to the same uid. */
    method CreateUserProfile(profile: UserProfile)
      modifies this
      ensures db == old(db)[profile.uid := profile]
      ensures old(savedSession).Some? && old(savedSession).value.uid == profile.uid ==> savedSession == Some(profile)
      ensures !(old(savedSession).Some? && old(savedSession).value.uid == profile.uid) ==> savedSession == old(savedSession)
      ensures old(Valid()) && Keyed(profile) ==> Valid()
    {
      db := db[profile.uid := profile];
      if savedSession.Some? && savedSession.value.uid == profile.uid {
        savedSession := Some(profile);
      }
    }

    /** Mock `getUserProfile`: the stored profile, or null. */
    method GetUserProfile(uid: string) returns (r: Option<UserProfile>)
      ensures r.Some? <==> uid in db
      ensures r.Some? ==> r.value == db[uid]
      ensures Valid() && r.Some? ==> r.value.uid == uid && Keyed(r.value)
    {
      if uid in db {
        r := Some(db[uid]);
      } else {
        r := None;
      }
    }

    /** Mock `updateStats`: an unknown uid changes nothing; a known one gets
        the updated profile, mirrored into the saved session when that
        session belongs to the uid. */
    method UpdateStats(uid: string, newScore: int, description: Option<string>)
      modifies this
      ensures uid !in old(db) ==> db == old(db) && savedSession == old(savedSession)
      ensures uid in old(db) ==> db == old(db)[uid := UpdatedProfile(old(db)[uid], newScore, description)]
      ensures uid in old(db) ==> db[uid].highScore >= old(db)[uid].highScore
      ensures uid in old(db) && old(savedSession).Some? && old(savedSession).value.uid == uid ==>
        savedSession == Some(db[uid])
      ensures !(uid in old(db) && old(savedSession).Some? && old(savedSession).value.uid == uid) ==>
        savedSession == old(savedSession)
      ensures old(Valid()) ==> Valid()
    {
      if uid in db {
        var p := db[uid];
        if newScore > p.highScore {
          p := p.(highScore := newScore);
        }
        if description.Some? {
          p := p.(description := description.value);
        }
        assert p == UpdatedProfile(db[uid], newScore, description);
        db := db[uid := p];
        if savedSession.Some? && savedSession.value.uid == uid {
          savedSession := Some(db[uid]);
        }
      }
    }
  }
}
