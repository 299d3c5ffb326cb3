/**
 * The SQLite tables the main agent and the web front end use, as in-memory
 * tables: `cases` (patient profiles, append-only, newest row wins), `users`
 * (keyed by e-mail, storing a password hash) and `conversations` (keyed by id,
 * with created/updated stamps). The clock, uuid generation and the password
 * hash are parameters.
 */
module Db {
  import opened Wrappers

  /** A point in time from the clock (`datetime.now()`); later is larger. */
  type Stamp = nat

  /** A patient's identifying fields: gender 0 is female, 1 is male. */
  datatype Profile = Profile(name: string, email: string, gender: int, age: int)

  /** A row of `cases`. */
  datatype CaseRow = CaseRow(userId: string, profile: Profile)

  /** A row of `conversations`. */
  datatype Conversation = Conversation(id: string, userEmail: string, title: string, createdAt: Stamp, lastUpdated: Stamp)

  /** The columns `get_user_conversations` selects. */
  datatype Summary = Summary(id: string, title: string, createdAt: Stamp, lastUpdated: Stamp)

  /** A row of `users` as `authenticate_user` fetches it. */
  datatype UserRow = UserRow(email: string, password: string)

  const DefaultTitle: string := "New Conversation"

  // ---------------------------------------------------------------- cases

  /**
   * `get_patient_by_user_id`: the profile of the newest row for that user, or
   * `None` when there is none; a missing `user_id` (SQL `NULL`) matches nothing.
   */
  function LatestCase(rows: seq<CaseRow>, userId: Option<string>): (r: Option<Profile>)
    ensures r.None? <==> (userId.None? || forall i | 0 <= i < |rows| :: rows[i].userId != userId.value)
    ensures r.Some? ==> exists i | 0 <= i < |rows| ::
      && rows[i].userId == userId.value && rows[i].profile == r.value
      && forall j | i < j < |rows| :: rows[j].userId != userId.value
  {
    if userId.None? || |rows| == 0 then None
    else if rows[|rows| - 1].userId == userId.value then Some(rows[|rows| - 1].profile)
    else LatestCase(rows[..|rows| - 1], userId)
  }

  /** After a row is appended, its user's newest profile is that row's, and every other user's is unchanged. */
  lemma {:induction false} LatestAfterInsert(rows: seq<CaseRow>, userId: string, p: Profile, other: Option<string>)
    ensures LatestCase(rows + [CaseRow(userId, p)], Some(userId)) == Some(p)
    ensures other != Some(userId) ==> LatestCase(rows + [CaseRow(userId, p)], other) == LatestCase(rows, other)
  {
    if other.Some? && other != Some(userId) {
      assert (rows + [CaseRow(userId, p)])[..|rows|] == rows;
    }
  }

  // ---------------------------------------------------------------- users

  /** `authenticate_user`: the row whose e-mail matches and whose stored hash is the hash of `password`. */
  function Authenticate(users: map<string, string>, email: string, password: string,
                        hash: string -> string): (r: Option<UserRow>)
    ensures r.Some? <==> email in users && users[email] == hash(password)
    ensures r.Some? ==> r.value.email == email && r.value.password == users[email]
  {
    if email in users && users[email] == hash(password) then Some(UserRow(email, users[email])) else None
  }

  // ---------------------------------------------------------------- conversations

  /** `id` is the primary key of `conversations`. */
  ghost predicate UniqueIds(cs: seq<Conversation>) {
    forall i, j | 0 <= i < j < |cs| :: cs[i].id != cs[j].id
  }

  predicate HasId(cs: seq<Conversation>, id: string) {
    exists i | 0 <= i < |cs| :: cs[i].id == id
  }

  function Summarize(c: Conversation): Summary {
    Summary(c.id, c.title, c.createdAt, c.lastUpdated)
  }

  /** The summaries of one user's conversations, in table order. */
  function OwnedBy(cs: seq<Conversation>, email: string): (r: seq<Summary>)
    ensures |r| <= |cs|
    ensures forall x :: x in r <==> exists i | 0 <= i < |cs| :: cs[i].userEmail == email && Summarize(cs[i]) == x
  {
    if |cs| == 0 then []
    else
      var rest := OwnedBy(cs[..|cs| - 1], email);
      var last := cs[|cs| - 1];
      if last.userEmail == email then rest + [Summarize(last)] else rest
  }

  /** Ordered by `last_updated`, most recent first. */
  ghost predicate NewestFirst(s: seq<Summary>) {
    forall i, j | 0 <= i < j < |s| :: s[i].lastUpdated >= s[j].lastUpdated
  }

  /** Place `x` into a sequence of summaries, after the leading ones more recent than it. */
  function InsertByRecency(x: Summary, s: seq<Summary>): (r: seq<Summary>)
    ensures multiset(r) == multiset(s) + multiset{x}
  {
    if |s| == 0 then [x]
    else if s[0].lastUpdated <= x.lastUpdated then [x] + s
    else
      assert s == [s[0]] + s[1..];
      [s[0]] + InsertByRecency(x, s[1..])
  }

  /** No summary was updated after `bound`. */
  ghost predicate UpdatedBy(s: seq<Summary>, bound: Stamp) {
    forall i | 0 <= i < |s| :: s[i].lastUpdated <= bound
  }

  lemma {:induction false} InsertKeepsBound(x: Summary, s: seq<Summary>, bound: Stamp)
    requires UpdatedBy(s, bound) && x.lastUpdated <= bound
    ensures UpdatedBy(InsertByRecency(x, s), bound)
  {
    if |s| > 0 && s[0].lastUpdated > x.lastUpdated {
      InsertKeepsBound(x, s[1..], bound);
    }
  }

  /** Inserting into a newest-first sequence keeps it newest first. */
  lemma {:induction false} InsertKeepsRecencyOrder(x: Summary, s: seq<Summary>)
    requires NewestFirst(s)
    ensures NewestFirst(InsertByRecency(x, s))
  {
    if |s| > 0 && s[0].lastUpdated > x.lastUpdated {
      var tail := InsertByRecency(x, s[1..]);
      InsertKeepsRecencyOrder(x, s[1..]);
      InsertKeepsBound(x, s[1..], s[0].lastUpdated);
      var r := [s[0]] + tail;
      forall i, j | 0 <= i < j < |r| ensures r[i].lastUpdated >= r[j].lastUpdated {
        if i > 0 {
          assert r[i] == tail[i - 1] && r[j] == tail[j - 1];
        } else {
          assert r[j] == tail[j - 1];
        }
      }
    }
  }

  /** Sort summaries newest first. */
  function SortByRecency(s: seq<Summary>): (r: seq<Summary>)
    ensures NewestFirst(r)
    ensures multiset(r) == multiset(s)
  {
    if |s| == 0 then []
    else
      assert s == s[..|s| - 1] + [s[|s| - 1]];
      var sorted := SortByRecency(s[..|s| - 1]);
      InsertKeepsRecencyOrder(s[|s| - 1], sorted);
      InsertByRecency(s[|s| - 1], sorted)
  }

  /** `get_user_conversations`: that user's conversations, most recently updated first. */
  function UserConversations(cs: seq<Conversation>, email: string): (r: seq<Summary>)
    ensures NewestFirst(r)
    ensures multiset(r) == multiset(OwnedBy(cs, email))
    ensures forall x | x in r :: exists i | 0 <= i < |cs| :: cs[i].userEmail == email && Summarize(cs[i]) == x
  {
    var owned := OwnedBy(cs, email);
    var r := SortByRecency(owned);
    assert forall x | x in r :: x in owned by {
      forall x | x in r ensures x in owned {
        assert x in multiset(r);
      }
    }
    r
  }

  /** `UPDATE conversations SET last_updated = now WHERE id = thread`. */
  function Touch(cs: seq<Conversation>, thread: string, now: Stamp): (r: seq<Conversation>)
    ensures |r| == |cs|
    ensures forall i | 0 <= i < |cs| ::
      && r[i].id == cs[i].id && r[i].userEmail == cs[i].userEmail
      && r[i].title == cs[i].title && r[i].createdAt == cs[i].createdAt
    ensures forall i | 0 <= i < |cs| :: r[i].lastUpdated == if cs[i].id == thread then now else cs[i].lastUpdated
  {
    seq(|cs|, i requires 0 <= i < |cs| => if cs[i].id == thread then cs[i].(lastUpdated := now) else cs[i])
  }

  /** The three tables of the application database. */
  class Database {
    var cases: seq<CaseRow>
    var users: map<string, string>
    var conversations: seq<Conversation>

    ghost predicate Valid()
      reads this
    {
      UniqueIds(conversations)
    }

    constructor ()
      ensures Valid() && cases == [] && users == map[] && conversations == []
    {
      cases, users, conversations := [], map[], [];
    }

    /** `get_patient_by_user_id`. */
    function PatientByUserId(userId: Option<string>): Option<Profile>
      reads this
    {
      LatestCase(cases, userId)
    }

    /** `insert_case`: appends one row; `user_id` is not unique, so rows for a user accumulate. */
    method InsertCase(userId: string, p: Profile)
      modifies this
      ensures cases == old(cases) + [CaseRow(userId, p)]
      ensures users == old(users) && conversations == old(conversations)
      ensures PatientByUserId(Some(userId)) == Some(p)
    {
      cases := cases + [CaseRow(userId, p)];
      LatestAfterInsert(old(cases), userId, p, Some(userId));
    }

    /**
     * `create_user`: `false` and no change when the e-mail is already a key;
     * otherwise stores the hash of the password and answers `true`.
     */
    method CreateUser(email: string, password: string, hash: string -> string) returns (ok: bool)
      modifies this
      ensures ok <==> email !in old(users)
      ensures users == if ok then old(users)[email := hash(password)] else old(users)
      ensures cases == old(cases) && conversations == old(conversations)
      ensures ok ==> Authenticate(users, email, password, hash).Some?
    {
      ok := email !in users;
      if ok {
        users := users[email := hash(password)];
      }
    }

    /** `authenticate_user`. */
    function AuthenticateUser(email: string, password: string, hash: string -> string): Option<UserRow>
      reads this
    {
      Authenticate(users, email, password, hash)
    }

    /**
     * `create_conversation`: inserts a row stamped `now` twice under the given
     * id (or `firstUuid` when none is given) and title (or "New Conversation"
     * when none is given); if that id is taken, retries once
     * under `retryUuid`, and if that is taken too the integrity error escapes.
     * Answers the id actually stored. The foreign key to `users` is not enforced.
     */
    method CreateConversation(userEmail: string, thread: Option<string>, title: Option<string>, now: Stamp,
                              firstUuid: string, retryUuid: string) returns (r: Result<string, string>)
      requires Valid()
      modifies this
      ensures Valid()
      ensures var first := thread.GetOr(firstUuid);
        var id := if HasId(old(conversations), first) then retryUuid else first;
        if HasId(old(conversations), id) then
          r == Failure("IntegrityError") && conversations == old(conversations)
        else
          r == Success(id)
          && conversations == old(conversations) + [Conversation(id, userEmail, title.GetOr(DefaultTitle), now, now)]
      ensures cases == old(cases) && users == old(users)
    {
      var id := thread.GetOr(firstUuid);
      if HasId(conversations, id) {
        id := retryUuid;
        if HasId(conversations, id) {
          return Failure("IntegrityError");
        }
      }
      conversations := conversations + [Conversation(id, userEmail, title.GetOr(DefaultTitle), now, now)];
      r := Success(id);
    }

    /** `get_user_conversations`. */
    function ConversationsOf(email: string): seq<Summary>
      reads this
    {
      UserConversations(conversations, email)
    }

    /** `update_conversation_timestamp`: only `last_updated` of the row with that id changes. */
    method UpdateConversationTimestamp(thread: string, now: Stamp)
      requires Valid()
      modifies this
      ensures Valid()
      ensures conversations == Touch(old(conversations), thread, now)
      ensures cases == old(cases) && users == old(users)
    {
      conversations := Touch(conversations, thread, now);
    }
  }
}
