/** The chat handlers. Each loads a chat (here: the `Chat?` argument, `null`
    when no chat has the requested id), runs its guards, each failing with its
    own status and message, and then updates the loaded chat in place. The pure
    functions `After...` state what each update does to a chat's value; the
    handler methods are proved to follow them, and the lemmas below state the
    rules the handlers keep. */
module ChatController {
  import opened Common
  import opened Helpers
  import opened ChatModel
  import opened ReportsModel

  const ChatNotFound: HttpError := HttpError(404, "Chat not found")
  const UsersMissing: HttpError := HttpError(404, "Chat cannot be created, users don't exist")
  const ChatExists: HttpError := HttpError(400, "Chat already exists")
  const BlockedBySender: HttpError := HttpError(400, "You blocked this chat. Unblock them to send a message")
  const MessageNotSent: HttpError := HttpError(400, "Message not sent")
  const NotInChat: HttpError := HttpError(401, "Not authorized, you are not part of this chat")
  const NotBlocker: HttpError := HttpError(401, "Not authorized!")
  const MessageNotFound: HttpError := HttpError(404, "Message not found!")
  const NotSender: HttpError := HttpError(401, "You can't delete this message!")
  const SelfReport: HttpError := HttpError(400, "you can't report your self!")
  const ReporterMismatch: HttpError := HttpError(401, "You are no't authorized to report this user,Please login again!")
  const NoReportee: HttpError := HttpError(404, "No user found!")
  const NoSharedChat: HttpError := HttpError(401, "you can't report this user,you don't have a chat together!")
  /** The TypeError `getChatLastMessage` throws on a chat without messages; no
      status was set, so it is thrown with the status still 200. */
  const NoLastMessage: HttpError := HttpError(200, "Cannot read properties of undefined (reading 'content')")

  /** The rejection of `chat.save()` when a message's `content` was set to a
      string: the nested path refuses the cast, and the validation error carries
      no status. Only the start of Mongoose's message is kept. */
  const ChatInvalid: HttpError := HttpError(200, "Chat validation failed")
  /** The rejection of `Reports.create` when an excerpt message's object
      `content` fails the `String` cast; only the start of the message is kept. */
  const ReportInvalid: HttpError := HttpError(200, "Reports validation failed")
  const RecentMessageCount: nat := 5

  /** A loaded chat document. */
  class Chat {
    var users: seq<Id>
    var messages: seq<Message>
    var status: Status

    function Doc(): ChatDoc
      reads this
    {
      ChatDoc(users, messages, status)
    }

    /** `new Chat({ users, messages })`: the status takes its schema default. */
    constructor (users: seq<Id>, messages: seq<Message>)
      ensures Doc() == ChatDoc(users, messages, DefaultStatus)
      ensures !status.blocked && status.blockedBy == None
    {
      this.users := users;
      this.messages := messages;
      status := DefaultStatus;
    }
  }

  // ---------------------------------------------------------------------------
  // createChat

  /** A message as the request body gives it to `createChat`. */
  datatype NewMessage = NewMessage(sender: Id, content: string, createdAt: Option<int>)

  /** `User.find({ _id: { $in: users } })`: the distinct registered users named. */
  function FoundUsers(users: seq<Id>, registered: set<Id>): (r: set<Id>)
    ensures r <= registered
    ensures forall u :: u in r ==> u in users
  {
    set u | u in users && u in registered
  }

  /** The lookup finds as many users as were named exactly when every named
      user is registered and none is named twice. */
  lemma {:induction false} FoundUsersCount(users: seq<Id>, registered: set<Id>)
    ensures |FoundUsers(users, registered)| <= |users|
    ensures |FoundUsers(users, registered)| == |users| <==>
              (forall u :: u in users ==> u in registered) && NoDup(users)
  {
    if users != [] {
      var h, t := users[0], users[1..];
      assert users == [h] + t;
      FoundUsersCount(t, registered);
      NoDupCons(h, t);
      var found, rest := FoundUsers(users, registered), FoundUsers(t, registered);
      if h in registered && h !in t {
        assert found == rest + {h};
        assert h !in rest;
      } else {
        assert found == rest;
      }
    }
  }

  /** `Chat.findOne({ users: { $all: users } })`: some chat has every named
      user among its users. MongoDB's `$all` with an empty list matches nothing. */
  predicate HasChatWithAll(chats: seq<ChatDoc>, users: seq<Id>)
    ensures HasChatWithAll(chats, users) ==> users != [] && chats != []
  {
    users != [] && exists c :: c in chats && forall u :: u in users ==> u in c.users
  }

  /** The guards of `createChat`, in order. */
  function CreateChatCheck(users: seq<Id>, registered: set<Id>, chats: seq<ChatDoc>): (e: Option<HttpError>)
    ensures e.None? <==> (forall u :: u in users ==> u in registered) && NoDup(users) && !HasChatWithAll(chats, users)
    ensures e == None || e == Some(UsersMissing) || e == Some(ChatExists)
  {
    FoundUsersCount(users, registered);
    if |FoundUsers(users, registered)| != |users| then Some(UsersMissing)
    else if HasChatWithAll(chats, users) then Some(ChatExists)
    else None
  }

  /** A chat naming an unregistered user is refused with 404. */
  lemma CreateChatUnknownUser(users: seq<Id>, registered: set<Id>, chats: seq<ChatDoc>, u: Id)
    requires u in users && u !in registered
    ensures CreateChatCheck(users, registered, chats) == Some(UsersMissing)
  {
    FoundUsersCount(users, registered);
  }

  /** Naming the same registered user twice is refused with 404 too, because
      the lookup returns each user once. */
  lemma CreateChatRepeatedUser(users: seq<Id>, registered: set<Id>, chats: seq<ChatDoc>, i: nat, j: nat)
    requires i < j < |users| && users[i] == users[j]
    ensures CreateChatCheck(users, registered, chats) == Some(UsersMissing)
  {
    FoundUsersCount(users, registered);
  }

  /** Distinct registered users with no chat holding all of them pass both guards;
      with such a chat the request is refused with 400. */
  lemma CreateChatAccepted(users: seq<Id>, registered: set<Id>, chats: seq<ChatDoc>)
    requires forall u :: u in users ==> u in registered
    requires NoDup(users)
    ensures CreateChatCheck(users, registered, chats) ==
              if HasChatWithAll(chats, users) then Some(ChatExists) else None
  {
    FoundUsersCount(users, registered);
  }

  /** The stored messages: each request message with its content encrypted. */
  function StoreMessages(messages: seq<NewMessage>, encrypt: string -> Envelope, schemaLoadedAt: int): (r: seq<Message>)
    ensures |r| == |messages|
    ensures forall i :: 0 <= i < |r| ==>
              && r[i].sender == messages[i].sender
              && r[i].content == encrypt(messages[i].content)
              && r[i].createdAt == StoredCreatedAt(messages[i].createdAt, schemaLoadedAt)
  {
    seq(|messages|, i requires 0 <= i < |messages| =>
      Message(messages[i].sender, encrypt(messages[i].content),
              StoredCreatedAt(messages[i].createdAt, schemaLoadedAt)))
  }

  /** `createChat`. `registered` is the set of user ids in the database and
      `chats` the stored chats; `encrypt` stands for `encryptMessage` with the
      random IV it draws. */
  method CreateChat(users: seq<Id>, messages: seq<NewMessage>, registered: set<Id>, chats: seq<ChatDoc>,
                    encrypt: string -> Envelope, schemaLoadedAt: int) returns (r: Result<Chat>)
    ensures CreateChatCheck(users, registered, chats).Some? ==>
              r == Err(CreateChatCheck(users, registered, chats).value)
    ensures CreateChatCheck(users, registered, chats).None? ==>
              && r.Ok? && fresh(r.value)
              && r.value.users == users && r.value.status == DefaultStatus
              && |r.value.messages| == |messages|
              && forall i :: 0 <= i < |messages| ==>
                   && r.value.messages[i].sender == messages[i].sender
                   && r.value.messages[i].content == encrypt(messages[i].content)
                   && r.value.messages[i].createdAt == StoredCreatedAt(messages[i].createdAt, schemaLoadedAt)
  {
    if |FoundUsers(users, registered)| != |users| {
      return Err(UsersMissing);
    }
    if HasChatWithAll(chats, users) {
      return Err(ChatExists);
    }
    var chat := new Chat(users, StoreMessages(messages, encrypt, schemaLoadedAt));
    r := Ok(chat);
  }

  // ---------------------------------------------------------------------------
  // sendMessage

  /** The message list after `sendMessage`: refused on a blocked chat, with a
      message that depends on who blocked it, otherwise one message appended. */
  function AfterSend(c: ChatDoc, sender: Id, content: Envelope, createdAt: int): (r: Result<ChatDoc>)
    ensures c.status.blocked ==>
              r == Err(if c.status.blockedBy == Some(sender) then BlockedBySender else MessageNotSent)
    ensures !c.status.blocked ==>
              && r.Ok? && r.value.users == c.users && r.value.status == c.status
              && |r.value.messages| == |c.messages| + 1
              && r.value.messages[..|c.messages|] == c.messages
              && Last(r.value.messages) == Message(sender, content, createdAt)
  {
    if c.status.blocked && c.status.blockedBy == Some(sender) then Err(BlockedBySender)
    else if c.status.blocked && c.status.blockedBy != Some(sender) then Err(MessageNotSent)
    else
      assert (c.messages + [Message(sender, content, createdAt)])[..|c.messages|] == c.messages;
      Ok(c.(messages := c.messages + [Message(sender, content, createdAt)]))
  }

  /** `sendMessage` up to the save; the push notification to the other member
      that follows is not part of this model. */
  method SendMessage(chat: Chat?, sender: Id, content: string, createdAt: Option<int>,
                     encrypt: string -> Envelope, schemaLoadedAt: int) returns (r: Result<seq<Message>>)
    modifies chat
    ensures chat == null ==> r == Err(ChatNotFound)
    ensures chat != null ==>
              var after := AfterSend(old(chat.Doc()), sender, encrypt(content), StoredCreatedAt(createdAt, schemaLoadedAt));
              if after.Ok? then chat.Doc() == after.value && r == Ok(chat.messages)
              else chat.Doc() == old(chat.Doc()) && r == Err(after.error)
  {
    if chat == null {
      return Err(ChatNotFound);
    }
    if chat.status.blocked && chat.status.blockedBy == Some(sender) {
      return Err(BlockedBySender);
    }
    if chat.status.blocked && chat.status.blockedBy != Some(sender) {
      return Err(MessageNotSent);
    }
    var encrypted := encrypt(content);
    chat.messages := chat.messages + [Message(sender, encrypted, StoredCreatedAt(createdAt, schemaLoadedAt))];
    r := Ok(chat.messages);
  }

  // ---------------------------------------------------------------------------
  // getChatLastMessage

  /** `getChatLastMessage`: the content of the last message (decryption is not
      modelled); on a chat without messages the handler dereferences `undefined`. */
  method GetChatLastMessage(chat: Chat?) returns (r: Result<Envelope>)
    ensures chat == null ==> r == Err(ChatNotFound)
    ensures chat != null && chat.messages == [] ==> r == Err(NoLastMessage)
    ensures chat != null && chat.messages != [] ==>
              r == Ok(Last(chat.messages).content)
  {
    if chat == null {
      return Err(ChatNotFound);
    }
    if chat.messages == [] {
      return Err(NoLastMessage);
    }
    r := Ok(chat.messages[|chat.messages| - 1].content);
  }

  // ---------------------------------------------------------------------------
  // blockChat and unblockChat

  /** Members of a chat can block it; the last blocker is recorded. */
  function AfterBlock(c: ChatDoc, userId: Id): (r: Result<ChatDoc>)
    ensures userId !in c.users ==> r == Err(NotInChat)
    ensures userId in c.users ==>
              r == Ok(c.(status := Status(true, Some(userId))))
  {
    if userId !in c.users then Err(NotInChat)
    else Ok(c.(status := c.status.(blocked := true, blockedBy := Some(userId))))
  }

  /** Only the member recorded as blocker can unblock. */
  function AfterUnblock(c: ChatDoc, userId: Id): (r: Result<ChatDoc>)
    ensures userId !in c.users ==> r == Err(NotInChat)
    ensures userId in c.users && c.status.blockedBy != Some(userId) ==> r == Err(NotBlocker)
    ensures userId in c.users && c.status.blockedBy == Some(userId) ==> r == Ok(c.(status := DefaultStatus))
  {
    if userId !in c.users then Err(NotInChat)
    else if c.status.blockedBy == Some(userId) then Ok(c.(status := c.status.(blocked := false, blockedBy := None)))
    else Err(NotBlocker)
  }

  /** `blocked` and `blockedBy` agree: a chat is blocked exactly when it names a blocker. */
  predicate StatusConsistent(s: Status)
  {
    s.blocked <==> s.blockedBy.Some?
  }

  /** A new chat's status is consistent and block and unblock keep it so. */
  lemma StatusStaysConsistent(c: ChatDoc, userId: Id)
    ensures StatusConsistent(DefaultStatus)
    ensures AfterBlock(c, userId).Ok? ==> StatusConsistent(AfterBlock(c, userId).value.status)
    ensures StatusConsistent(c.status) && AfterUnblock(c, userId).Ok? ==>
              StatusConsistent(AfterUnblock(c, userId).value.status)
  {
  }

  /** Blocking and then unblocking by the same member gives the unblocked chat back,
      with its users and messages untouched. */
  lemma BlockThenUnblock(c: ChatDoc, userId: Id)
    requires userId in c.users
    ensures AfterBlock(c, userId).Ok?
    ensures AfterUnblock(AfterBlock(c, userId).value, userId) == Ok(c.(status := DefaultStatus))
  {
  }

  /** Once blocked by a member, nothing can be sent: the blocker is told to
      unblock, everyone else is told the message was not sent, and the message
      list stays as it was. */
  lemma BlockedChatRefusesMessages(c: ChatDoc, blocker: Id, sender: Id, content: Envelope, createdAt: int)
    requires blocker in c.users
    ensures AfterBlock(c, blocker).Ok?
    ensures AfterSend(AfterBlock(c, blocker).value, sender, content, createdAt) ==
              Err(if sender == blocker then BlockedBySender else MessageNotSent)
  {
  }

  /** A member who did not block the chat cannot unblock it, even by blocking
      first: the later block replaces the earlier blocker. */
  lemma LaterBlockReplacesBlocker(c: ChatDoc, first: Id, second: Id)
    requires first in c.users && second in c.users && first != second
    ensures AfterBlock(c, first).Ok?
    ensures AfterBlock(AfterBlock(c, first).value, second).Ok?
    ensures AfterUnblock(AfterBlock(AfterBlock(c, first).value, second).value, first) == Err(NotBlocker)
  {
  }

  method BlockChat(chat: Chat?, userId: Id) returns (r: Result<string>)
    modifies chat
    ensures chat == null ==> r == Err(ChatNotFound)
    ensures chat != null ==>
              var after := AfterBlock(old(chat.Doc()), userId);
              if after.Ok? then chat.Doc() == after.value && r == Ok("You blocked this user!")
              else chat.Doc() == old(chat.Doc()) && r == Err(after.error)
  {
    if chat == null {
      return Err(ChatNotFound);
    }
    if userId !in chat.users {
      return Err(NotInChat);
    }
    chat.status := chat.status.(blocked := true);
    chat.status := chat.status.(blockedBy := Some(userId));
    r := Ok("You blocked this user!");
  }

  method UnblockChat(chat: Chat?, userId: Id) returns (r: Result<string>)
    modifies chat
    ensures chat == null ==> r == Err(ChatNotFound)
    ensures chat != null ==>
              var after := AfterUnblock(old(chat.Doc()), userId);
              if after.Ok? then chat.Doc() == after.value && r == Ok("You unblocked this user!")
              else chat.Doc() == old(chat.Doc()) && r == Err(after.error)
  {
    if chat == null {
      return Err(ChatNotFound);
    }
    if userId !in chat.users {
      return Err(NotInChat);
    }
    if chat.status.blockedBy == Some(userId) {
      chat.status := chat.status.(blocked := false);
      chat.status := chat.status.(blockedBy := None);
      r := Ok("You unblocked this user!");
    } else {
      r := Err(NotBlocker);
    }
  }

  // ---------------------------------------------------------------------------
  // deleteMessage

  /** `messages.find(m => m.content === message)` as an index; `matches` is the
      comparison of a stored content with the request's `message`. */
  function FirstMatch(messages: seq<Message>, matches: Envelope -> bool): (r: Option<nat>)
    ensures r.None? <==> forall i :: 0 <= i < |messages| ==> !matches(messages[i].content)
    ensures r.Some? ==> r.value < |messages| && matches(messages[r.value].content)
    ensures r.Some? ==> forall i :: 0 <= i < r.value ==> !matches(messages[i].content)
  {
    if messages == [] then None
    else if matches(messages[0].content) then Some(0)
    else
      var rest := FirstMatch(messages[1..], matches);
      if rest.None? then None else Some(rest.value + 1)
  }

  /** How `deleteMessage` ends on a found chat. Its guards refuse non-members,
      requests matching no message and callers who did not send the first
      match. Past them, the handler assigns the string 'message deleted' to
      the nested `content` path; the assignment is refused as a cast error,
      so the save rejects and nothing is stored. The handler never succeeds. */
  function DeleteOutcome(c: ChatDoc, userId: Id, matches: Envelope -> bool): (e: HttpError)
    ensures userId !in c.users ==> e == NotInChat
    ensures userId in c.users && FirstMatch(c.messages, matches).None? ==> e == MessageNotFound
    ensures userId in c.users && FirstMatch(c.messages, matches).Some? ==>
              var i := FirstMatch(c.messages, matches).value;
              e == (if c.messages[i].sender == userId then ChatInvalid else NotSender)
    ensures e == ChatInvalid <==>
              userId in c.users && FirstMatch(c.messages, matches).Some?
              && c.messages[FirstMatch(c.messages, matches).value].sender == userId
  {
    if userId !in c.users then NotInChat
    else
      match FirstMatch(c.messages, matches)
      case None => MessageNotFound
      case Some(i) => if c.messages[i].sender != userId then NotSender else ChatInvalid
  }

  /** `===` between a stored content object and a value parsed from a JSON body
      never holds; with that comparison every member of the chat gets 404. */
  lemma DeleteWithStrictEquality(c: ChatDoc, userId: Id)
    requires userId in c.users
    ensures DeleteOutcome(c, userId, _ => false) == MessageNotFound
  {
    assert FirstMatch(c.messages, _ => false).None?;
  }

  /** `deleteMessage`: it only reads the chat, since no outcome is saved. */
  method DeleteMessage(chat: Chat?, userId: Id, matches: Envelope -> bool) returns (r: Result<string>)
    ensures chat == null ==> r == Err(ChatNotFound)
    ensures chat != null ==> r == Err(DeleteOutcome(chat.Doc(), userId, matches))
  {
    if chat == null {
      return Err(ChatNotFound);
    }
    if userId !in chat.users {
      return Err(NotInChat);
    }
    var found := FirstMatch(chat.messages, matches);
    if found.None? {
      return Err(MessageNotFound);
    }
    var i := found.value;
    if chat.messages[i].sender != userId {
      return Err(NotSender);
    }
    r := Err(ChatInvalid);
  }

  // ---------------------------------------------------------------------------
  // reportChat

  /** The guards of `reportChat`, in order. `authId` is the authenticated user,
      `chat` the chat found (if any) and `reporteeExists` whether the reported
      user is in the database. */
  function ReportCheck(reporter: Id, reportee: Id, authId: Id, chat: Option<ChatDoc>, reporteeExists: bool): (e: Option<HttpError>)
    ensures e.None? <==>
              reporter == authId && reportee != authId && chat.Some? && reporteeExists && reportee in chat.value.users
    ensures e.Some? ==> e.value.status in {400, 401, 404}
  {
    if reportee == authId then Some(SelfReport)
    else if reporter != authId then Some(ReporterMismatch)
    else if chat.None? then Some(ChatNotFound)
    else if !reporteeExists then Some(NoReportee)
    else if reportee !in chat.value.users then Some(NoSharedChat)
    else None
  }

  /** The identity guards come before any lookup: a self-report (400) and a
      reporter other than the caller (401) are refused whatever the database holds. */
  lemma ReportIdentityGuardsFirst(reporter: Id, reportee: Id, authId: Id,
                                  chat1: Option<ChatDoc>, exists1: bool, chat2: Option<ChatDoc>, exists2: bool)
    requires reportee == authId || reporter != authId
    ensures ReportCheck(reporter, reportee, authId, chat1, exists1) == ReportCheck(reporter, reportee, authId, chat2, exists2)
    ensures ReportCheck(reporter, reportee, authId, chat1, exists1) ==
              Some(if reportee == authId then SelfReport else ReporterMismatch)
  {
  }

  /** The excerpt attached to a report. The handler sorts with the comparator
      `b.timestamp - a.timestamp`; messages have no `timestamp`, so every
      comparison is NaN, which the sort treats as "equal", and the stable sort
      keeps the stored order. The excerpt is thus the first five stored messages. */
  function RecentMessages(messages: seq<Message>): (r: seq<Message>)
    ensures |r| <= RecentMessageCount
    ensures |r| == if |messages| < RecentMessageCount then |messages| else RecentMessageCount
    ensures r == messages[..|r|]
  {
    if |messages| < RecentMessageCount then messages else messages[..RecentMessageCount]
  }

  /** `reportChat`. `existing` is the report already kept for the reported user,
      if any; otherwise a new report is created. The excerpt goes through the
      report schema's cast, which succeeds only for a chat without messages.
      On a failed cast a new report is refused; an existing one gets the entry
      in memory, but its save is not awaited and rejects after the reply, so the
      stored report stays as it was. */
  method ReportChat(chat: Chat?, existing: Report?, chatId: Id, reporter: Id, reportee: Id, authId: Id,
                    reporteeExists: bool) returns (r: Result<Report>)
    requires existing != null ==> existing.user == reportee
    modifies existing
    ensures var check := ReportCheck(reporter, reportee, authId, if chat == null then None else Some(chat.Doc()), reporteeExists);
            check.Some? ==> r == Err(check.value) && (existing != null ==> existing.Doc() == old(existing.Doc()))
    ensures var check := ReportCheck(reporter, reportee, authId, if chat == null then None else Some(chat.Doc()), reporteeExists);
            check.None? ==>
              && chat != null
              && var entry := ReportEntry(chatId, []);
              && (existing != null ==>
                    && r.Ok? && r.value == existing
                    && existing.Doc() == if chat.messages == [] then Saved(WithEntry(old(existing.Doc()), entry))
                                         else old(existing.Doc()))
              && (existing == null && chat.messages == [] ==>
                    r.Ok? && fresh(r.value) && r.value.Doc() == ReportDoc(reportee, [entry], 1))
              && (existing == null && chat.messages != [] ==> r == Err(ReportInvalid))
  {
    if reportee == authId {
      return Err(SelfReport);
    }
    if reporter != authId {
      return Err(ReporterMismatch);
    }
    if chat == null {
      return Err(ChatNotFound);
    }
    if !reporteeExists {
      return Err(NoReportee);
    }
    if reportee !in chat.users {
      return Err(NoSharedChat);
    }
    var excerpt := CastExcerpt(RecentMessages(chat.messages));
    if existing != null {
      if excerpt.Some? {
        existing.reportedFrom := existing.reportedFrom + [ReportEntry(chatId, excerpt.value)];
        existing.Save();
      }
      return Ok(existing);
    }
    if excerpt.None? {
      return Err(ReportInvalid);
    }
    var report := new Report(reportee, [ReportEntry(chatId, excerpt.value)]);
    report.Save();
    r := Ok(report);
  }

  // ---------------------------------------------------------------------------
  // updateChat

  /** A message's `content` as the request body gives it to `updateChat`: an
      object of the stored shape, or a string. */
  datatype RequestContent = ObjectContent(envelope: Envelope) | StringContent(text: string)

  /** A message as the request body gives it to `updateChat`. */
  datatype UpdateMessage = UpdateMessage(sender: Id, content: RequestContent)

  predicate HasStringContent(messages: seq<UpdateMessage>)
  {
    exists i :: 0 <= i < |messages| && messages[i].content.StringContent?
  }

  /** `updateChat` replaces users and messages; it copies only sender and
      content, so every message gets the schema default `createdAt`. A string
      `content` cannot be cast to the nested path, and the save then rejects. */
  function AfterUpdate(c: ChatDoc, users: seq<Id>, messages: seq<UpdateMessage>, schemaLoadedAt: int): (r: Result<ChatDoc>)
    ensures r.Err? <==> exists i :: 0 <= i < |messages| && messages[i].content.StringContent?
    ensures r.Err? ==> r.error == ChatInvalid
    ensures r.Ok? ==>
              && r.value.users == users && r.value.status == c.status
              && |r.value.messages| == |messages|
              && forall i :: 0 <= i < |messages| ==>
                   r.value.messages[i].sender == messages[i].sender
                   && messages[i].content == ObjectContent(r.value.messages[i].content)
  {
    if HasStringContent(messages) then Err(ChatInvalid)
    else
      Ok(c.(users := users,
            messages := seq(|messages|, i requires 0 <= i < |messages| =>
                          Message(messages[i].sender, messages[i].content.envelope, StoredCreatedAt(None, schemaLoadedAt)))))
  }

  /** After an update every message carries the same `createdAt`, the time the
      schema was loaded, whatever the request's messages held. */
  lemma UpdateSharesOneCreatedAt(c: ChatDoc, users: seq<Id>, messages: seq<UpdateMessage>, schemaLoadedAt: int, i: nat, j: nat)
    requires i < |messages| && j < |messages|
    requires AfterUpdate(c, users, messages, schemaLoadedAt).Ok?
    ensures AfterUpdate(c, users, messages, schemaLoadedAt).value.messages[i].createdAt ==
            AfterUpdate(c, users, messages, schemaLoadedAt).value.messages[j].createdAt == schemaLoadedAt
  {
  }

  method UpdateChat(chat: Chat?, users: seq<Id>, messages: seq<UpdateMessage>, schemaLoadedAt: int) returns (r: Result<ChatDoc>)
    modifies chat
    ensures chat == null ==> r == Err(ChatNotFound)
    ensures chat != null ==>
              var after := AfterUpdate(old(chat.Doc()), users, messages, schemaLoadedAt);
              if after.Ok? then chat.Doc() == after.value && r == Ok(chat.Doc())
              else chat.Doc() == old(chat.Doc()) && r == Err(after.error)
  {
    if chat == null {
      return Err(ChatNotFound);
    }
    if HasStringContent(messages) {
      return Err(ChatInvalid);
    }
    chat.users := users;
    chat.messages := seq(|messages|, i requires 0 <= i < |messages| =>
                       Message(messages[i].sender, messages[i].content.envelope, StoredCreatedAt(None, schemaLoadedAt)));
    r := Ok(chat.Doc());
  }
}
