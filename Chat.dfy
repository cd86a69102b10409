/**
 * The chat message store of backend/app/Domain/Chat/crud.py: the `users` and
 * `chat` tables held in memory, saving a message, reading one user's thread and
 * grouping every authenticated user's messages into conversations.
 */
module Chat {
  import opened Wrappers

  type UserPk = int

  /** A row of the users table; the map key is its `id`. */
  datatype User = User(username: string, email: string, authenticator: bool)

  /** What `get_all_conversations` reports about a user. */
  datatype UserInfo = UserInfo(userId: UserPk, username: string, email: string)

  /** A row of the chat table; `id` and `createdAt` are assigned by the store. */
  datatype ChatMessage = ChatMessage(id: nat, userPk: UserPk, message: string, isFromAdmin: bool, createdAt: int)

  datatype Conversation = Conversation(userInfo: UserInfo, messages: seq<ChatMessage>)

  /** The HTTP 404 "User not found" raised by `save_chat_message`. */
  datatype ChatError = UserNotFound

  // ---------------------------------------------------------------------------
  // Orderings

  /** The query order `ORDER BY user_pk, created_at`. */
  predicate NotAfter(a: ChatMessage, b: ChatMessage) {
    a.userPk < b.userPk || (a.userPk == b.userPk && a.createdAt <= b.createdAt)
  }

  predicate Ordered(s: seq<ChatMessage>) {
    forall i, j :: 0 <= i < j < |s| ==> NotAfter(s[i], s[j])
  }

  predicate OrderedByTime(s: seq<ChatMessage>) {
    forall i, j :: 0 <= i < j < |s| ==> s[i].createdAt <= s[j].createdAt
  }

  /** Prepending an element that comes before all others keeps a sequence ordered. */
  lemma OrderedCons(x: ChatMessage, s: seq<ChatMessage>)
    requires Ordered(s)
    requires forall y :: y in s ==> NotAfter(x, y)
    ensures Ordered([x] + s)
  {
    var r := [x] + s;
    forall i, j | 0 <= i < j < |r| ensures NotAfter(r[i], r[j]) {
      if i == 0 {
        assert r[j] == s[j - 1];
      } else {
        assert r[i] == s[i - 1] && r[j] == s[j - 1];
      }
    }
  }

  /** Inserts `m` in front of the first element it does not come after. */
  function Insert(m: ChatMessage, s: seq<ChatMessage>): (r: seq<ChatMessage>)
    requires Ordered(s)
    ensures Ordered(r)
    ensures multiset(r) == multiset(s) + multiset{m}
    ensures forall x :: x in r ==> x == m || x in s
  {
    if s == [] then [m]
    else if NotAfter(m, s[0]) then
      OrderedCons(m, s);
      [m] + s
    else
      var rest := Insert(m, s[1..]);
      assert s == [s[0]] + s[1..];
      assert forall y :: y in s[1..] ==> NotAfter(s[0], y) by {
        forall y | y in s[1..] ensures NotAfter(s[0], y) {
          var j :| 0 <= j < |s[1..]| && s[1..][j] == y;
          assert s[j + 1] == y;
        }
      }
      OrderedCons(s[0], rest);
      [s[0]] + rest
  }

  /** A stable insertion sort by (user_pk, created_at). */
  function Sort(s: seq<ChatMessage>): (r: seq<ChatMessage>)
    ensures Ordered(r)
    ensures multiset(r) == multiset(s)
  {
    if s == [] then []
    else
      assert s == [s[0]] + s[1..];
      Insert(s[0], Sort(s[1..]))
  }

  // ---------------------------------------------------------------------------
  // Filters (the WHERE clauses)

  /** `WHERE chat.user_pk = k`, keeping the order of `s`. */
  function OfUser(s: seq<ChatMessage>, k: UserPk): (r: seq<ChatMessage>)
    ensures forall x :: x in r <==> x in s && x.userPk == k
    ensures forall x :: multiset(r)[x] == if x.userPk == k then multiset(s)[x] else 0
  {
    if s == [] then []
    else
      var last := s[|s| - 1];
      assert s == s[..|s| - 1] + [last];
      OfUser(s[..|s| - 1], k) + (if last.userPk == k then [last] else [])
  }

  predicate IsAuthenticated(users: map<UserPk, User>, k: UserPk) {
    k in users && users[k].authenticator
  }

  /** The join with the users table restricted to `authenticator = TRUE`, keeping the order of `s`. */
  function OfAuthenticated(s: seq<ChatMessage>, users: map<UserPk, User>): (r: seq<ChatMessage>)
    ensures forall x :: multiset(r)[x] == if IsAuthenticated(users, x.userPk) then multiset(s)[x] else 0
  {
    if s == [] then []
    else
      var last := s[|s| - 1];
      assert s == s[..|s| - 1] + [last];
      OfAuthenticated(s[..|s| - 1], users) + (if IsAuthenticated(users, last.userPk) then [last] else [])
  }

  lemma {:induction false} OfUserKeepsOrder(s: seq<ChatMessage>, k: UserPk)
    requires Ordered(s)
    ensures Ordered(OfUser(s, k))
  {
    if s != [] {
      var init := s[..|s| - 1];
      var last := s[|s| - 1];
      assert Ordered(init);
      OfUserKeepsOrder(init, k);
      var prev := OfUser(init, k);
      if last.userPk == k {
        forall x | x in prev ensures NotAfter(x, last) {
          var i :| 0 <= i < |init| && init[i] == x;
          assert s[i] == x;
        }
        OrderedSnoc(prev, last);
      }
    }
  }

  /** Appending an element that comes after all others keeps a sequence ordered. */
  lemma OrderedSnoc(s: seq<ChatMessage>, x: ChatMessage)
    requires Ordered(s)
    requires forall y :: y in s ==> NotAfter(y, x)
    ensures Ordered(s + [x])
  {
    forall i, j | 0 <= i < j < |s + [x]| ensures NotAfter((s + [x])[i], (s + [x])[j]) {
      if j == |s| {
        assert s[i] in s;
      }
    }
  }

  /** `ORDER BY user_pk, created_at` on one user's messages is `ORDER BY created_at`. */
  lemma OneUserOrderIsTimeOrder(s: seq<ChatMessage>, k: UserPk)
    requires Ordered(s)
    requires forall x :: x in s ==> x.userPk == k
    ensures OrderedByTime(s)
  {
    forall i, j | 0 <= i < j < |s| ensures s[i].createdAt <= s[j].createdAt {
      assert NotAfter(s[i], s[j]);
      assert s[i] in s && s[j] in s;
    }
  }

  // ---------------------------------------------------------------------------
  // The conversation grouping loop of get_all_conversations

  /** The `user_info` comprehension over the authenticated users. */
  function AuthenticatedInfo(users: map<UserPk, User>): (info: map<UserPk, UserInfo>)
    ensures forall k :: k in info <==> IsAuthenticated(users, k)
    ensures forall k :: k in info ==> k in users && info[k] == UserInfo(k, users[k].username, users[k].email)
  {
    map k | k in users && users[k].authenticator :: UserInfo(k, users[k].username, users[k].email)
  }

  /** One iteration of the grouping loop: file `m` under its user, opening the entry on first sight. */
  function AddToConversations(conv: map<UserPk, Conversation>, m: ChatMessage, info: map<UserPk, UserInfo>): map<UserPk, Conversation>
  {
    if m.userPk in info then
      var c := if m.userPk in conv then conv[m.userPk] else Conversation(info[m.userPk], []);
      conv[m.userPk := c.(messages := c.messages + [m])]
    else conv
  }

  /** The `conversations` dict after the loop has consumed `s`. */
  function Group(s: seq<ChatMessage>, info: map<UserPk, UserInfo>): map<UserPk, Conversation>
  {
    if s == [] then map[]
    else AddToConversations(Group(s[..|s| - 1], info), s[|s| - 1], info)
  }

  lemma GroupStep(s: seq<ChatMessage>, i: nat, info: map<UserPk, UserInfo>)
    requires i < |s|
    ensures Group(s[..i + 1], info) == AddToConversations(Group(s[..i], info), s[i], info)
  {
    assert s[..i + 1][..i] == s[..i];
  }

  /** The loop of `get_all_conversations` that fills the `conversations` dict. */
  method GroupByUser(allMessages: seq<ChatMessage>, userInfo: map<UserPk, UserInfo>)
    returns (conversations: map<UserPk, Conversation>)
    ensures conversations == Group(allMessages, userInfo)
  {
    conversations := map[];
    var i := 0;
    while i < |allMessages|
      invariant 0 <= i <= |allMessages|
      invariant conversations == Group(allMessages[..i], userInfo)
    {
      var message := allMessages[i];
      ghost var before := conversations;
      if message.userPk in userInfo {
        if message.userPk !in conversations {
          conversations := conversations[message.userPk := Conversation(userInfo[message.userPk], [])];
        }
        var c := conversations[message.userPk];
        assert c == if message.userPk in before then before[message.userPk] else Conversation(userInfo[message.userPk], []);
        conversations := conversations[message.userPk := c.(messages := c.messages + [message])];
        assert conversations == before[message.userPk := c.(messages := c.messages + [message])];
      }
      assert conversations == AddToConversations(before, message, userInfo);
      GroupStep(allMessages, i, userInfo);
      i := i + 1;
    }
    assert allMessages[..i] == allMessages;
  }

  /**
   * Grouping is a partition: an entry exists exactly for the users in `info`
   * that have a message, and it holds that user's info and all of that user's
   * messages in input order.
   */
  lemma {:induction false} GroupPartitions(s: seq<ChatMessage>, info: map<UserPk, UserInfo>)
    ensures forall k :: k in Group(s, info) <==> k in info && OfUser(s, k) != []
    ensures forall k :: k in Group(s, info) ==> Group(s, info)[k] == Conversation(info[k], OfUser(s, k))
  {
    if s != [] {
      var init, last := s[..|s| - 1], s[|s| - 1];
      GroupPartitions(init, info);
      var g, g' := Group(init, info), Group(s, info);
      assert g' == AddToConversations(g, last, info);
      forall k
        ensures k in g' <==> k in info && OfUser(s, k) != []
        ensures k in g' ==> g'[k] == Conversation(info[k], OfUser(s, k))
      {
        assert OfUser(s, k) == OfUser(init, k) + (if last.userPk == k then [last] else []);
      }
    }
  }

  /**
   * For an authenticated user, the joined and ordered query result holds exactly
   * that user's stored messages, oldest first.
   */
  lemma SourceThread(ms: seq<ChatMessage>, users: map<UserPk, User>, k: UserPk)
    requires IsAuthenticated(users, k)
    ensures multiset(OfUser(Sort(OfAuthenticated(ms, users)), k)) == multiset(OfUser(ms, k))
    ensures OrderedByTime(OfUser(Sort(OfAuthenticated(ms, users)), k))
    ensures OfUser(Sort(OfAuthenticated(ms, users)), k) != [] <==> exists x :: x in ms && x.userPk == k
  {
    var all := Sort(OfAuthenticated(ms, users));
    var a, b := OfUser(all, k), OfUser(ms, k);
    SourceThreadCounts(ms, users, k);
    assert |a| == |multiset(a)| == |multiset(b)| == |b|;
    OfUserKeepsOrder(all, k);
    OneUserOrderIsTimeOrder(a, k);
    if b != [] {
      assert b[0] in b;
    }
  }

  /** The ordered query result holds each message of an authenticated user as often as the store does. */
  lemma SourceThreadCounts(ms: seq<ChatMessage>, users: map<UserPk, User>, k: UserPk)
    requires IsAuthenticated(users, k)
    ensures multiset(OfUser(Sort(OfAuthenticated(ms, users)), k)) == multiset(OfUser(ms, k))
  {
    var all := Sort(OfAuthenticated(ms, users));
    var a, b := OfUser(all, k), OfUser(ms, k);
    forall x: ChatMessage ensures multiset(a)[x] == multiset(b)[x] {
      if x.userPk == k {
        calc {
          multiset(a)[x];
          multiset(all)[x];
          multiset(OfAuthenticated(ms, users))[x];
          multiset(ms)[x];
          multiset(b)[x];
        }
      }
    }
    assert multiset(a) == multiset(b);
  }

  // ---------------------------------------------------------------------------
  // The store

  class ChatStore {
    var users: map<UserPk, User>
    var messages: seq<ChatMessage>
    /** The next autoincrement id of the chat table. */
    var nextId: nat

    /** Ids are assigned in increasing order and all lie below `nextId`. */
    ghost predicate Valid()
      reads this
    {
      && (forall i :: 0 <= i < |messages| ==> messages[i].id < nextId)
      && (forall i, j :: 0 <= i < j < |messages| ==> messages[i].id < messages[j].id)
    }

    constructor (users: map<UserPk, User>)
      ensures Valid()
      ensures this.users == users && messages == [] && nextId == 0
    {
      this.users := users;
      messages := [];
      nextId := 0;
    }

    /**
     * `save_chat_message`: a missing user (or a NULL key) is "User not found" and
     * changes nothing; otherwise exactly one row is appended and returned.
     */
    method Save(userPk: Option<UserPk>, message: string, now: int, isFromAdmin: bool := false)
      returns (r: Result<ChatMessage, ChatError>)
      requires Valid()
      modifies this
      ensures Valid() && users == old(users)
      ensures r.Failure? <==> userPk.None? || userPk.value !in users
      ensures r.Failure? ==> r.error == UserNotFound && messages == old(messages) && nextId == old(nextId)
      ensures r.Success? ==>
        && r.value == ChatMessage(old(nextId), userPk.value, message, isFromAdmin, now)
        && messages == old(messages) + [r.value]
        && nextId == old(nextId) + 1
    {
      if userPk.None? || userPk.value !in users {
        return Failure(UserNotFound);
      }
      var chat := ChatMessage(nextId, userPk.value, message, isFromAdmin, now);
      messages := messages + [chat];
      nextId := nextId + 1;
      r := Success(chat);
    }

    /** `get_messages_by_user_pk`: exactly the messages of `k`, oldest first. */
    function MessagesByUser(k: UserPk): (r: seq<ChatMessage>)
      reads this
      ensures forall x :: x in r ==> x.userPk == k
      ensures multiset(r) == multiset(OfUser(messages, k))
      ensures OrderedByTime(r)
    {
      var r := Sort(OfUser(messages, k));
      assert forall x :: x in r ==> x in multiset(OfUser(messages, k));
      OneUserOrderIsTimeOrder(r, k);
      r
    }

    /** The joined, ordered query result that the grouping loop consumes. */
    function ConversationSource(): (all: seq<ChatMessage>)
      reads this
      ensures Ordered(all)
      ensures forall x :: multiset(all)[x] == if IsAuthenticated(users, x.userPk) then multiset(messages)[x] else 0
    {
      Sort(OfAuthenticated(messages, users))
    }

    /**
     * `get_all_conversations`: one entry per authenticated user with at least one
     * message, holding that user's info and exactly that user's messages oldest
     * first; `total` is the number of entries.
     */
    method GetAllConversations() returns (conversations: map<UserPk, Conversation>, total: nat)
      ensures conversations == Group(ConversationSource(), AuthenticatedInfo(users))
      ensures total == |conversations|
      ensures forall k :: k in conversations <==>
        IsAuthenticated(users, k) && exists x :: x in messages && x.userPk == k
      ensures forall k :: k in conversations ==>
        && conversations[k].userInfo == UserInfo(k, users[k].username, users[k].email)
        && multiset(conversations[k].messages) == multiset(OfUser(messages, k))
        && OrderedByTime(conversations[k].messages)
    {
      var allMessages := ConversationSource();
      var userInfo := AuthenticatedInfo(users);
      conversations := GroupByUser(allMessages, userInfo);
      total := |conversations|;
      ConversationsAreThreads(allMessages, userInfo);
    }

    /** Relates the grouped query result back to the stored messages. */
    lemma ConversationsAreThreads(all: seq<ChatMessage>, info: map<UserPk, UserInfo>)
      requires all == ConversationSource() && info == AuthenticatedInfo(users)
      ensures forall k :: k in Group(all, info) <==>
        IsAuthenticated(users, k) && exists x :: x in messages && x.userPk == k
      ensures forall k :: k in Group(all, info) ==>
        && Group(all, info)[k].userInfo == UserInfo(k, users[k].username, users[k].email)
        && multiset(Group(all, info)[k].messages) == multiset(OfUser(messages, k))
        && OrderedByTime(Group(all, info)[k].messages)
    {
      GroupPartitions(all, info);
      forall k | IsAuthenticated(users, k)
        ensures multiset(OfUser(all, k)) == multiset(OfUser(messages, k))
        ensures OrderedByTime(OfUser(all, k))
        ensures OfUser(all, k) != [] <==> exists x :: x in messages && x.userPk == k
      {
        SourceThread(messages, users, k);
      }
    }
  }
}
