/** Chat persistence of backend/app/chat/service.py over the three DynamoDB
    tables `chats`, `user_chats` and `messages`, each an in-memory map from
    (partition key, sort key) to item. Generated ids and timestamps are
    parameters, and `translate_text` is a function parameter. */
module ChatStore {
  import opened Wrappers
  import Text

  /** (PK, SK) */
  type Key = (string, string)

  function UserPk(userId: string): string { "USER#" + userId }
  function ChatSk(chatId: string): string { "CHAT#" + chatId }
  function MessagesPk(userId: string, chatId: string): string { "USER#" + userId + "#CHAT#" + chatId }
  function MessageSk(now: string, msgId: string): string { "MSG#" + now + "#" + msgId }

  const MetaSk: string := "META"

  /** Keys built on a fixed prefix are equal only for equal ids. */
  lemma PrefixInjective(prefix: string, a: string, b: string)
    ensures prefix + a == prefix + b <==> a == b
  {
    if prefix + a == prefix + b {
      assert a == (prefix + a)[|prefix|..];
      assert b == (prefix + b)[|prefix|..];
    }
  }

  /** The user record the routes pass in. */
  datatype User = User(userId: string, username: string, nativeLanguage: string)

  datatype ChatMeta = ChatMeta(chatId: string, memberUserIds: seq<string>, createdAt: string)

  /** A `user_chats` item. `update_item` creates an item with only the
      fields it sets, so every other field may be absent; a null preview and
      an absent one are both None. */
  datatype UserChat = UserChat(chatId: Option<string>, otherUsername: Option<string>, otherUserId: Option<string>,
                               lastMessagePreview: Option<string>, updatedAt: Option<string>)

  datatype Message = Message(messageId: string, text: string, fromUserId: string, language: string, timestamp: string)

  /** `text[:100]`. */
  function Preview(text: string): (r: string)
    ensures |r| <= 100 && |r| <= |text|
    ensures r == text[..|r|]
    ensures |text| <= 100 ==> r == text
    ensures |text| > 100 ==> |r| == 100
  {
    if |text| <= 100 then text else text[..100]
  }

  /** The text stored for the recipient: the original when both speak the
      same language, its translation otherwise. */
  function RecipientText(text: string, senderLang: string, recipientLang: string,
                         translate: (string, string, string) -> string): (r: string)
    ensures senderLang == recipientLang ==> r == text
    ensures senderLang != recipientLang ==> r == translate(text, senderLang, recipientLang)
  {
    if senderLang == recipientLang then text else translate(text, senderLang, recipientLang)
  }

  /** The sender's and the recipient's copies of one message. */
  function DualWrite(sender: User, recipient: User, text: string, msgId: string, now: string,
                     translate: (string, string, string) -> string): (r: (Message, Message))
    // both copies carry the same id, timestamp and author ...
    ensures r.0.messageId == r.1.messageId == msgId
    ensures r.0.timestamp == r.1.timestamp == now
    ensures r.0.fromUserId == r.1.fromUserId == sender.userId
    // ... the sender's holds the original in the sender's language ...
    ensures r.0.text == text && r.0.language == sender.nativeLanguage
    // ... the recipient's holds what the recipient reads, in the recipient's language
    ensures r.1.text == RecipientText(text, sender.nativeLanguage, recipient.nativeLanguage, translate)
    ensures r.1.language == recipient.nativeLanguage
    ensures sender.nativeLanguage == recipient.nativeLanguage ==> r.0 == r.1
  {
    var translated := RecipientText(text, sender.nativeLanguage, recipient.nativeLanguage, translate);
    (Message(msgId, text, sender.userId, sender.nativeLanguage, now),
     Message(msgId, translated, sender.userId, recipient.nativeLanguage, now))
  }

  /** The `update_item` of a preview: sets preview and `updatedAt`, keeps
      any other field, and creates the item if it is missing. */
  function SetPreview(row: Option<UserChat>, preview: string, now: string): (r: UserChat)
    ensures r.lastMessagePreview == Some(preview) && r.updatedAt == Some(now)
    ensures row.Some? ==> r.chatId == row.value.chatId && r.otherUsername == row.value.otherUsername &&
                          r.otherUserId == row.value.otherUserId
    ensures row.None? ==> r.chatId.None? && r.otherUsername.None? && r.otherUserId.None?
  {
    match row
    case Some(u) => u.(lastMessagePreview := Some(preview), updatedAt := Some(now))
    case None => UserChat(None, None, None, Some(preview), Some(now))
  }

  /** The value `list_user_chats` sorts on: `updatedAt`, or "" when absent. */
  function SortKey(row: UserChat): (r: string)
    ensures row.updatedAt.Some? ==> r == row.updatedAt.value
    ensures row.updatedAt.None? ==> r == ""
  {
    row.updatedAt.GetOr("")
  }

  /** Newest first: `updatedAt` never increases along the list. */
  predicate NewestFirst(rows: seq<UserChat>) {
    forall i, j :: 0 <= i < j < |rows| ==> Text.LexLe(SortKey(rows[j]), SortKey(rows[i]))
  }

  /** Inserts `x` after every row at least as recent, which keeps the
      order of equally recent rows as `list.sort` does. */
  function InsertNewestFirst(x: UserChat, rows: seq<UserChat>): (r: seq<UserChat>)
    ensures multiset(r) == multiset(rows) + multiset{x}
    ensures forall y :: y in r <==> y in rows || y == x
  {
    if rows == [] then [x]
    else if !Text.LexLe(SortKey(x), SortKey(rows[0])) then [x] + rows
    else
      assert rows == [rows[0]] + rows[1..];
      [rows[0]] + InsertNewestFirst(x, rows[1..])
  }

  /** In a newest-first list an item without `updatedAt` comes after every
      item with a non-empty one. */
  lemma UndatedLast(rows: seq<UserChat>, i: nat, j: nat)
    requires NewestFirst(rows) && i < |rows| && j < |rows|
    requires rows[i].updatedAt.None? && rows[j].updatedAt.Some? && rows[j].updatedAt.value != ""
    ensures j < i
  {
  }

  /** Every row of a newest-first list is at most as recent as its head. */
  lemma HeadNewest(rows: seq<UserChat>, y: UserChat)
    requires NewestFirst(rows) && rows != [] && y in rows
    ensures Text.LexLe(SortKey(y), SortKey(rows[0]))
  {
    var k :| 0 <= k < |rows| && rows[k] == y;
    if k == 0 {
      Text.LexLeTotal(SortKey(y), SortKey(y));
    }
  }

  /** Insertion keeps a newest-first list newest first. */
  lemma {:induction false} InsertKeepsNewestFirst(x: UserChat, rows: seq<UserChat>)
    requires NewestFirst(rows)
    ensures NewestFirst(InsertNewestFirst(x, rows))
  {
    var r := InsertNewestFirst(x, rows);
    if rows == [] {
    } else if !Text.LexLe(SortKey(x), SortKey(rows[0])) {
      Text.LexLeTotal(SortKey(x), SortKey(rows[0]));
      assert r[1..] == rows;
      forall i, j | 0 <= i < j < |r| ensures Text.LexLe(SortKey(r[j]), SortKey(r[i])) {
        if i == 0 && j > 1 {
          Text.LexLeTransitive(SortKey(r[j]), SortKey(rows[0]), SortKey(x));
        }
      }
    } else {
      var rest := InsertNewestFirst(x, rows[1..]);
      assert NewestFirst(rows[1..]);
      InsertKeepsNewestFirst(x, rows[1..]);
      assert r == [rows[0]] + rest;
      forall i, j | 0 <= i < j < |r| ensures Text.LexLe(SortKey(r[j]), SortKey(r[i])) {
        if i == 0 {
          assert r[j] in rest;
          if r[j] != x {
            HeadNewest(rows, r[j]);
          }
        } else {
          assert r[i] == rest[i - 1] && r[j] == rest[j - 1];
        }
      }
    }
  }

  class ChatDb {
    var chats: map<Key, ChatMeta>
    var userChats: map<Key, UserChat>
    var messages: map<Key, Message>

    constructor ()
      ensures chats == map[] && userChats == map[] && messages == map[]
    {
      chats := map[];
      userChats := map[];
      messages := map[];
    }

    /** `get_chat_meta`. */
    function GetChatMeta(chatId: string): (r: Option<ChatMeta>)
      reads this
      ensures r.Some? <==> (ChatSk(chatId), MetaSk) in chats
      ensures r.Some? ==> r.value == chats[(ChatSk(chatId), MetaSk)]
    {
      Get(chats, (ChatSk(chatId), MetaSk))
    }

    /** The user has a `user_chats` item naming `otherUserId`. */
    predicate HasChatWith(userId: string, otherUserId: string)
      reads this
    {
      exists k :: k in userChats && k.0 == UserPk(userId) && userChats[k].otherUserId == Some(otherUserId)
    }

    /** The query's result: the items of the user's partition in the order
        `order` lists their sort keys (DynamoDB returns them by ascending
        sort key). */
    predicate IsPartitionOrder(userId: string, order: seq<string>)
      reads this
    {
      (forall i :: 0 <= i < |order| ==> (UserPk(userId), order[i]) in userChats) &&
      (forall k :: k in userChats && k.0 == UserPk(userId) ==> k.1 in order) &&
      (forall i, j :: 0 <= i < j < |order| ==> order[i] != order[j])
    }

    function QueryRows(userId: string, order: seq<string>): (r: seq<UserChat>)
      reads this
      requires IsPartitionOrder(userId, order)
      ensures |r| == |order|
      ensures forall i :: 0 <= i < |order| ==> r[i] == userChats[(UserPk(userId), order[i])]
    {
      var table := userChats;
      seq(|order|, i requires 0 <= i < |order| && (UserPk(userId), order[i]) in table =>
                     table[(UserPk(userId), order[i])])
    }

    /** `find_existing_chat`: the first of the user's items naming the other
        user, or None when there is none. */
    method FindExistingChat(userId: string, otherUserId: string, order: seq<string>) returns (found: Option<UserChat>)
      requires IsPartitionOrder(userId, order)
      ensures found.None? <==> !HasChatWith(userId, otherUserId)
      ensures found.Some? ==>
                exists i :: 0 <= i < |order| && found.value == userChats[(UserPk(userId), order[i])] &&
                  found.value.otherUserId == Some(otherUserId) &&
                  forall j :: 0 <= j < i ==> userChats[(UserPk(userId), order[j])].otherUserId != Some(otherUserId)
    {
      var i := 0;
      while i < |order|
        invariant 0 <= i <= |order|
        invariant forall j :: 0 <= j < i ==> userChats[(UserPk(userId), order[j])].otherUserId != Some(otherUserId)
      {
        var item := userChats[(UserPk(userId), order[i])];
        if item.otherUserId == Some(otherUserId) {
          return Some(item);
        }
        i := i + 1;
      }
      found := None;
    }

    /** `list_user_chats`: the user's items, most recently updated first. */
    method ListUserChats(userId: string, order: seq<string>) returns (items: seq<UserChat>)
      requires IsPartitionOrder(userId, order)
      ensures NewestFirst(items)
      ensures multiset(items) == multiset(QueryRows(userId, order))
    {
      var rows := QueryRows(userId, order);
      items := [];
      for i := 0 to |rows|
        invariant NewestFirst(items)
        invariant multiset(items) == multiset(rows[..i])
      {
        assert rows[..i + 1] == rows[..i] + [rows[i]];
        InsertKeepsNewestFirst(rows[i], items);
        items := InsertNewestFirst(rows[i], items);
      }
      assert rows[..|rows|] == rows;
    }

    /** `create_chat`: the META item listing both members, then one
        `user_chats` item per member naming the other, with no preview. */
    method CreateChat(current: User, other: User, chatId: string, now: string) returns (id: string)
      modifies this`chats, this`userChats
      ensures id == chatId
      ensures chats == old(chats)[(ChatSk(chatId), MetaSk) := ChatMeta(chatId, [current.userId, other.userId], now)]
      ensures userChats ==
                old(userChats)
                  [(UserPk(current.userId), ChatSk(chatId)) :=
                     UserChat(Some(chatId), Some(other.username), Some(other.userId), None, Some(now))]
                  [(UserPk(other.userId), ChatSk(chatId)) :=
                     UserChat(Some(chatId), Some(current.username), Some(current.userId), None, Some(now))]
      ensures messages == old(messages)
      // each member can now find the chat with the other
      ensures HasChatWith(current.userId, other.userId) && HasChatWith(other.userId, current.userId)
      ensures GetChatMeta(chatId) == Some(ChatMeta(chatId, [current.userId, other.userId], now))
    {
      chats := chats[(ChatSk(chatId), MetaSk) := ChatMeta(chatId, [current.userId, other.userId], now)];
      userChats := userChats[(UserPk(current.userId), ChatSk(chatId)) :=
                               UserChat(Some(chatId), Some(other.username), Some(other.userId), None, Some(now))];
      userChats := userChats[(UserPk(other.userId), ChatSk(chatId)) :=
                               UserChat(Some(chatId), Some(current.username), Some(current.userId), None, Some(now))];
      id := chatId;
      PrefixInjective("USER#", current.userId, other.userId);
      assert (UserPk(other.userId), ChatSk(chatId)) in userChats;
      var kc := (UserPk(current.userId), ChatSk(chatId));
      assert kc in userChats && userChats[kc].otherUserId == Some(other.userId);
    }

    /** `send_message`: stores both copies under each user's partition with
        the same sort key, then sets both members' previews (at most 100
        characters each) and the same `updatedAt`. `translateRaises` says
        whether the translation call raises; it is only made between
        different languages, after the sender's copy is already stored. */
    method SendMessage(chatId: string, sender: User, recipient: User, text: string, msgId: string, now: string,
                       translate: (string, string, string) -> string, translateRaises: bool)
      returns (result: Option<(Message, Message)>)
      modifies this`messages, this`userChats
      // the sender's copy is stored before the recipient's text is computed ...
      ensures var fails := translateRaises && sender.nativeLanguage != recipient.nativeLanguage;
              var pair := DualWrite(sender, recipient, text, msgId, now, translate);
              fails ==>
                result == None && userChats == old(userChats) &&
                messages == old(messages)[(MessagesPk(sender.userId, chatId), MessageSk(now, msgId)) := pair.0]
      // ... and when nothing raises, both copies are stored and both previews set
      ensures var fails := translateRaises && sender.nativeLanguage != recipient.nativeLanguage;
              var pair := DualWrite(sender, recipient, text, msgId, now, translate);
              !fails ==>
                result == Some(pair) &&
                messages == old(messages)[(MessagesPk(sender.userId, chatId), MessageSk(now, msgId)) := pair.0]
                                         [(MessagesPk(recipient.userId, chatId), MessageSk(now, msgId)) := pair.1] &&
                var senderRow := SetPreview(Get(old(userChats), (UserPk(sender.userId), ChatSk(chatId))),
                                            Preview(text), now);
                var mid := old(userChats)[(UserPk(sender.userId), ChatSk(chatId)) := senderRow];
                userChats == mid[(UserPk(recipient.userId), ChatSk(chatId)) :=
                                   SetPreview(Get(mid, (UserPk(recipient.userId), ChatSk(chatId))),
                                              Preview(pair.1.text), now)]
      ensures chats == old(chats)
    {
      var pair := DualWrite(sender, recipient, text, msgId, now, translate);
      var senderItem := pair.0;
      messages := messages[(MessagesPk(sender.userId, chatId), MessageSk(now, msgId)) := senderItem];
      if translateRaises && sender.nativeLanguage != recipient.nativeLanguage {
        // `translate_text` raised: the exception leaves the sender's copy behind
        return None;
      }
      var recipientItem := pair.1;
      messages := messages[(MessagesPk(recipient.userId, chatId), MessageSk(now, msgId)) := recipientItem];
      var senderKey := (UserPk(sender.userId), ChatSk(chatId));
      userChats := userChats[senderKey := SetPreview(Get(userChats, senderKey), Preview(text), now)];
      var recipientKey := (UserPk(recipient.userId), ChatSk(chatId));
      userChats := userChats[recipientKey := SetPreview(Get(userChats, recipientKey), Preview(recipientItem.text), now)];
      result := Some(pair);
    }
  }

  /** After a message between two different users, each member's chat item
      shows the message's preview as that member reads it, at most 100
      characters, and both items carry the same `updatedAt`. */
  lemma SendMessagePreviews(old_: map<Key, UserChat>, chatId: string, sender: User, recipient: User,
                            text: string, translated: string, now: string)
    requires sender.userId != recipient.userId
    ensures var sk := (UserPk(sender.userId), ChatSk(chatId));
            var rk := (UserPk(recipient.userId), ChatSk(chatId));
            var mid := old_[sk := SetPreview(Get(old_, sk), Preview(text), now)];
            var r := mid[rk := SetPreview(Get(mid, rk), Preview(translated), now)];
            sk in r && rk in r &&
            r[sk].lastMessagePreview == Some(Preview(text)) &&
            r[rk].lastMessagePreview == Some(Preview(translated)) &&
            r[sk].updatedAt == r[rk].updatedAt == Some(now) &&
            (sk in old_ ==> r[sk].otherUserId == old_[sk].otherUserId) &&
            (rk in old_ ==> r[rk].otherUserId == old_[rk].otherUserId)
  {
    PrefixInjective("USER#", sender.userId, recipient.userId);
  }

  /** `ExclusiveStartKey` for a page: the caller's cursor, when it is a
      non-empty string, as the sort key within the user's copy of the chat. */
  function StartKey(userId: string, chatId: string, cursor: Option<string>): (r: Option<Key>)
    ensures r.None? <==> cursor.None? || cursor.value == ""
    ensures r.Some? ==> r.value == (MessagesPk(userId, chatId), cursor.value)
  {
    if cursor.Some? && cursor.value != "" then Some((MessagesPk(userId, chatId), cursor.value)) else None
  }

  /** `next_cursor`: the sort key of `LastEvaluatedKey`, when the query
      returned one. */
  function NextCursor(lastEvaluatedKey: Option<Key>): (r: Option<string>)
    ensures r.Some? <==> lastEvaluatedKey.Some?
    ensures r.Some? ==> r.value == lastEvaluatedKey.value.1
  {
    match lastEvaluatedKey
    case Some(k) => Some(k.1)
    case None => None
  }

  /** Handing a page's cursor back resumes the query exactly after the
      page's last message: every message sort key is non-empty. */
  lemma CursorRoundTrip(userId: string, chatId: string, now: string, msgId: string)
    ensures var last := (MessagesPk(userId, chatId), MessageSk(now, msgId));
            StartKey(userId, chatId, NextCursor(Some(last))) == Some(last)
  {
    assert MessageSk(now, msgId)[0] == 'M';
  }
}
