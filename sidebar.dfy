/**
 * The side bar's list of chats. The GET_BOT_USERS entry of the Apollo
 * cache is `cached`; the list the side bar draws is `users`, which an
 * effect copies from the query data whenever the data holds chats.
 * Remote results (the insert and delete mutations) are parameters.
 */
module SideBar {
  import opened Wrappers
  import Text

  /** A row of the `chats` table as the side bar receives it. */
  datatype Chat = Chat(id: string, title: string, createdAt: string)

  /** The argument handed to the `onSelectChat` callback. */
  datatype Selection = Selection(chatId: string, title: string)

  /** The variables of the CreateChat mutation. */
  datatype CreateRequest = CreateRequest(title: string, userId: string)

  /** What `createBotUser` came back with: a rejected promise, or a
      response whose `data?.insert_chats.returning` may be absent. */
  datatype CreateOutcome = CreateRejected | CreateResolved(returning: Option<seq<Chat>>)

  /** What `deleteBotUser` came back with: a rejected promise, or a
      response whose `data?.delete_chats?.affected_rows` may be absent. */
  datatype DeleteOutcome = DeleteRejected | DeleteResolved(affectedRows: Option<int>)

  // ---------------------------------------------------------------------
  // The cache callbacks: pure computations of the new GET_BOT_USERS list.
  // ---------------------------------------------------------------------

  /** `chats.filter(chat => chat.id !== id)`. */
  function WithoutChat(chats: seq<Chat>, id: string): (r: seq<Chat>)
    ensures |r| <= |chats|
    ensures forall c :: c in r <==> c in chats && c.id != id
  {
    if chats == [] then []
    else if chats[0].id != id then [chats[0]] + WithoutChat(chats[1..], id)
    else WithoutChat(chats[1..], id)
  }

  /** The `update` callback of `createBotUser`: with no returned row the cache
      is left alone; otherwise the first returned row goes in front of the
      cached list (an empty list when nothing was cached). */
  function CacheAfterCreate(cached: Option<seq<Chat>>, returning: Option<seq<Chat>>): (r: Option<seq<Chat>>)
    ensures returning.None? || returning.value == [] ==> r == cached
    ensures returning.Some? && returning.value != [] ==>
      r.Some? && |r.value| == |cached.GetOr([])| + 1
      && r.value[0] == returning.value[0] && r.value[1..] == cached.GetOr([])
  {
    if returning.None? || returning.value == [] then cached
    else Some([returning.value[0]] + cached.GetOr([]))
  }

  /** `!data?.delete_chats?.affected_rows`: an absent or zero count. */
  predicate NothingDeleted(affectedRows: Option<int>): (b: bool)
    ensures b <==> affectedRows.GetOr(0) == 0
  {
    affectedRows.None? || affectedRows.value == 0
  }

  /** The `update` callback of `deleteBotUser`: with no affected row the cache
      is left alone; otherwise the cached list loses every chat with that id
      and keeps every other chat. */
  function CacheAfterDelete(cached: Option<seq<Chat>>, affectedRows: Option<int>, id: string): (r: Option<seq<Chat>>)
    ensures NothingDeleted(affectedRows) ==> r == cached
    ensures !NothingDeleted(affectedRows) ==>
      r.Some? && (forall c :: c in r.value <==> c in cached.GetOr([]) && c.id != id)
  {
    if NothingDeleted(affectedRows) then cached
    else Some(WithoutChat(cached.GetOr([]), id))
  }

  // ---------------------------------------------------------------------
  // Properties of the delete filter.
  // ---------------------------------------------------------------------

  /** `a` is `b` with some entries left out and the rest in their order. */
  predicate IsSubsequence(a: seq<Chat>, b: seq<Chat>)
    decreases |b|
  {
    if a == [] then true
    else if b == [] then false
    else (a[0] == b[0] && IsSubsequence(a[1..], b[1..])) || IsSubsequence(a, b[1..])
  }

  /** The chats that survive a delete keep their original relative order. */
  lemma {:induction false} WithoutChatKeepsOrder(chats: seq<Chat>, id: string)
    ensures IsSubsequence(WithoutChat(chats, id), chats)
    decreases |chats|
  {
    if chats != [] {
      WithoutChatKeepsOrder(chats[1..], id);
      var r := WithoutChat(chats, id);
      if chats[0].id != id {
        assert r[0] == chats[0] && r[1..] == WithoutChat(chats[1..], id);
      }
    }
  }

  /** Every copy of every chat with another id is kept, and no copy of a chat with that id. */
  lemma {:induction false} WithoutChatCounts(chats: seq<Chat>, id: string, c: Chat)
    ensures multiset(WithoutChat(chats, id))[c] == if c.id == id then 0 else multiset(chats)[c]
    decreases |chats|
  {
    if chats != [] {
      var rest := WithoutChat(chats[1..], id);
      WithoutChatCounts(chats[1..], id, c);
      assert chats == [chats[0]] + chats[1..];
      assert multiset(chats) == multiset([chats[0]]) + multiset(chats[1..]);
      if chats[0].id != id {
        assert multiset(WithoutChat(chats, id)) == multiset([chats[0]]) + multiset(rest);
      }
    }
  }

  /** Filtering a concatenation filters each part: the filter works entry by entry, in order. */
  lemma {:induction false} WithoutChatAppend(a: seq<Chat>, b: seq<Chat>, id: string)
    ensures WithoutChat(a + b, id) == WithoutChat(a, id) + WithoutChat(b, id)
    decreases |a|
  {
    if a != [] {
      assert (a + b)[1..] == a[1..] + b;
      WithoutChatAppend(a[1..], b, id);
    } else {
      assert a + b == b;
    }
  }

  /** Deleting an id that no listed chat has leaves the list as it was. */
  lemma {:induction false} WithoutAbsentChat(chats: seq<Chat>, id: string)
    requires forall k :: 0 <= k < |chats| ==> chats[k].id != id
    ensures WithoutChat(chats, id) == chats
    decreases |chats|
  {
    if chats != [] { WithoutAbsentChat(chats[1..], id); }
  }

  /** A chat just created and then deleted (by a delete that reports a row)
      leaves none of that id, and the chats that were there before, in order. */
  lemma CreateThenDelete(cached: Option<seq<Chat>>, created: Chat, affectedRows: int)
    requires affectedRows != 0
    requires forall k :: 0 <= k < |cached.GetOr([])| ==> cached.GetOr([])[k].id != created.id
    ensures CacheAfterDelete(CacheAfterCreate(cached, Some([created])), Some(affectedRows), created.id)
      == Some(cached.GetOr([]))
  {
    var old_ := cached.GetOr([]);
    assert [created] + old_ == [created] + old_;
    WithoutChatAppend([created], old_, created.id);
    WithoutAbsentChat(old_, created.id);
  }

  // ---------------------------------------------------------------------
  // The side bar component's state and handlers.
  // ---------------------------------------------------------------------

  class ChatList {
    /** The "Enter chat title" text box. */
    var input: string
    /** `useUserId()`: absent (or empty, which `!userId` treats alike) while nobody is signed in. */
    var userId: Option<string>
    /** The cached GET_BOT_USERS result; absent until loaded (and while the query is skipped). */
    var cached: Option<seq<Chat>>
    /** The `users` state: the list drawn. */
    var users: seq<Chat>
    /** Whether the side bar is open (the `isOpen` prop, closed through `setIsOpen`). */
    var isOpen: bool
    /** The last value handed to `onSelectChat`. */
    var selection: Option<Selection>

    /** The sync effect's promise: the drawn list is the cached one whenever there is one. */
    ghost predicate Valid()
      reads this
    {
      users == cached.GetOr([])
    }

    constructor (userId: Option<string>, isOpen: bool)
      ensures Valid()
      ensures this.userId == userId && this.isOpen == isOpen
      ensures input == "" && cached == None && users == [] && selection == None
    {
      this.userId := userId;
      this.isOpen := isOpen;
      input := "";
      cached := None;
      users := [];
      selection := None;
    }

    /** Typing in the title box. */
    method SetInput(text: string)
      requires Valid()
      modifies this
      ensures Valid()
      ensures input == text
      ensures userId == old(userId) && cached == old(cached) && users == old(users)
      ensures isOpen == old(isOpen) && selection == old(selection)
    {
      input := text;
    }

    /** The GET_BOT_USERS query returning `chats`, followed by the sync effect.
        The query is skipped when `!userId`. */
    method Loaded(chats: seq<Chat>)
      requires Valid()
      modifies this
      ensures Valid()
      ensures cached == if Truthy(old(userId)) then Some(chats) else old(cached)
      ensures Truthy(old(userId)) ==> users == chats
      ensures input == old(input) && userId == old(userId)
      ensures isOpen == old(isOpen) && selection == old(selection)
    {
      if Truthy(userId) {
        cached := Some(chats);
        users := chats;
      }
    }

    /** `handleCreateBotUser`, with the mutation's result given as `outcome`.
        Returns the mutation's variables, or `None` when the guard stops it. */
    method Create(outcome: CreateOutcome) returns (request: Option<CreateRequest>)
      requires Valid()
      modifies this
      ensures Valid()
      ensures request.Some? <==> !Text.IsBlank(old(input)) && Truthy(old(userId))
      ensures request.Some? ==> request.value == CreateRequest(Text.Trim(old(input)), old(userId).value)
      ensures cached == if request.Some? && outcome.CreateResolved?
        then CacheAfterCreate(old(cached), outcome.returning) else old(cached)
      ensures input == if request.Some? && outcome.CreateResolved? && outcome.returning.Some?
        && outcome.returning.value != [] then "" else old(input)
      ensures userId == old(userId) && isOpen == old(isOpen) && selection == old(selection)
    {
      var title := Text.Trim(input);
      if title == [] || !Truthy(userId) {
        return None;
      }
      request := Some(CreateRequest(title, userId.value));
      match outcome {
        case CreateRejected =>
          // the error is only logged
        case CreateResolved(returning) =>
          cached := CacheAfterCreate(cached, returning);
          users := cached.GetOr([]);
          if returning.Some? && returning.value != [] {
            input := "";
          }
      }
    }

    /** `handleDeleteBotUser(id)`, with the mutation's result given as `outcome`.
        There is no guard, and the selection is not touched. */
    method Delete(id: string, outcome: DeleteOutcome)
      requires Valid()
      modifies this
      ensures Valid()
      ensures cached == if outcome.DeleteResolved?
        then CacheAfterDelete(old(cached), outcome.affectedRows, id) else old(cached)
      ensures input == old(input) && userId == old(userId)
      ensures isOpen == old(isOpen) && selection == old(selection)
    {
      match outcome {
        case DeleteRejected =>
          // the error is only logged
        case DeleteResolved(affectedRows) =>
          cached := CacheAfterDelete(cached, affectedRows, id);
          users := cached.GetOr([]);
      }
    }

    /** `handleSelectChat(chat)`: reports the chat and closes the side bar,
        provided both its id and its title are non-empty. */
    method Select(chat: Chat) returns (fired: Option<Selection>)
      requires Valid()
      modifies this
      ensures Valid()
      ensures fired.Some? <==> chat.id != "" && chat.title != ""
      ensures fired.Some? ==>
        fired.value == Selection(chat.id, chat.title) && selection == fired && !isOpen
      ensures fired.None? ==> selection == old(selection) && isOpen == old(isOpen)
      ensures input == old(input) && userId == old(userId) && cached == old(cached) && users == old(users)
    {
      if chat.id != "" && chat.title != "" {
        fired := Some(Selection(chat.id, chat.title));
        selection := fired;
        isOpen := false;
      } else {
        fired := None;
      }
    }

    /** The close button and the overlay: `setIsOpen(false)`. */
    method Close()
      requires Valid()
      modifies this
      ensures Valid()
      ensures !isOpen
      ensures input == old(input) && userId == old(userId) && cached == old(cached)
      ensures users == old(users) && selection == old(selection)
    {
      isOpen := false;
    }
  }
}
