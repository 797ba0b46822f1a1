/**
 * The user-profile store: the documents `users/{uid}`. Creating a profile
 * overwrites the whole document; a login touches only `lastLogin`, by a merge
 * write. A document written only by such a merge has no other field, so every
 * field is optional. Timestamps are ISO strings taken from the clock, which is
 * a parameter here.
 */
module FirebaseDBAuth {
  import opened Wrappers
  import opened Json

  datatype Profile = Profile(
    email: Option<string>,
    createdAt: Option<string>,
    lastLogin: Option<string>,
    items: Option<seq<Json>>)

  /** The document `createUserProfile` writes. */
  function NewProfile(email: string, now: string): (p: Profile)
    ensures p.email == Some(email)
    ensures p.createdAt == Some(now) && p.lastLogin == p.createdAt
    ensures p.items == Some([])
  {
    Profile(Some(email), Some(now), Some(now), Some([]))
  }

  /** `setDoc(users/uid, { lastLogin }, { merge: true })`: the one field is set, the others are kept; a missing document is created with that field only. */
  function MergeLastLogin(users: map<string, Profile>, uid: string, now: string): (r: map<string, Profile>)
    ensures r.Keys == users.Keys + {uid}
    ensures r[uid].lastLogin == Some(now)
    ensures uid in users ==> r[uid] == users[uid].(lastLogin := Some(now))
    ensures uid !in users ==> r[uid] == Profile(None, None, Some(now), None)
    ensures forall u :: u in users && u != uid ==> r[u] == users[u]
  {
    var old_ := if uid in users then users[uid] else Profile(None, None, None, None);
    users[uid := old_.(lastLogin := Some(now))]
  }

  /** A login on a created profile keeps its email, creation time and item list. */
  lemma LoginKeepsProfile(users: map<string, Profile>, uid: string, email: string, created: string, now: string)
    ensures var after := MergeLastLogin(users[uid := NewProfile(email, created)], uid, now);
      && after[uid].email == Some(email)
      && after[uid].createdAt == Some(created)
      && after[uid].items == Some([])
      && after[uid].lastLogin == Some(now)
  {
  }

  /** Creating a profile again discards everything the previous one held, logins included. */
  lemma CreateOverwrites(users: map<string, Profile>, uid: string, e1: string, t1: string, t: string, e2: string, t2: string)
    ensures MergeLastLogin(users[uid := NewProfile(e1, t1)], uid, t)[uid := NewProfile(e2, t2)]
         == users[uid := NewProfile(e2, t2)]
  {
  }

  class ProfileStore {
    var users: map<string, Profile>

    constructor ()
      ensures users == map[]
    {
      users := map[];
    }

    /** `createUserProfile(userId, email)`, with `now` the ISO time of the call. */
    method CreateUserProfile(userId: string, email: string, now: string)
      modifies this
      ensures users == old(users)[userId := NewProfile(email, now)]
    {
      var createdAt := now;
      var userProfile := Profile(Some(email), Some(createdAt), Some(createdAt), Some([]));
      users := users[userId := userProfile];
    }

    /** `getUserProfile(userId)`: the stored document, or `null` when there is none. */
    method GetUserProfile(userId: string) returns (r: Option<Profile>)
      ensures r.Some? <==> userId in users
      ensures r.Some? ==> r.value == users[userId]
    {
      if userId in users {
        r := Some(users[userId]);
      } else {
        r := None;
      }
    }

    /** `updateUserLastLogin(userId)`, with `now` the ISO time of the call. */
    method UpdateUserLastLogin(userId: string, now: string)
      modifies this
      ensures users == MergeLastLogin(old(users), userId, now)
    {
      var lastLogin := now;
      var current := if userId in users then users[userId] else Profile(None, None, None, None);
      users := users[userId := current.(lastLogin := Some(lastLogin))];
    }
  }
}
