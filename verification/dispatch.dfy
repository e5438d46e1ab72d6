/**
 The body of the bot's update loop (src/main.go:53-95) as a pure step over the
 pendingBalanceRequests map, and the loop over a stream of updates as a
 function of the map it starts from. The balance RPC, key generation and the
 success of sending a message are oracles the step is given.
 */
module Dispatch {
  import opened Wrappers
  import opened GoText
  import opened Replies

  /** The numeric identity of a chat (telego's ChatID holds an int64). */
  type ChatId = x: int | -0x8000_0000_0000_0000 <= x < 0x8000_0000_0000_0000

  datatype Message = Message(chat: ChatId, text: string)

  /** An update from long polling; it need not carry a message. */
  datatype Update = Update(message: Option<Message>)

  /** What getBalance returns: a balance in lamports, or the text of the RPC error. */
  datatype Lookup = Found(lamports: uint64) | Failed(error: string)

  /** pendingBalanceRequests: for each chat, whether its next message is a public key. */
  type Flags = map<ChatId, bool>

  /** A chat is pending when the map says true; a chat missing from it reads as false, Go's zero value. */
  predicate Pending(flags: Flags, chat: ChatId) {
    chat in flags && flags[chat]
  }

  /** The six texts the switch recognises. */
  const Commands: set<string> := {"/start", "/create_account", "/fund_account", "/check_balance", "/list_tokens", "/help"}

  /** The update carries a message from chat with some text: the loop does not skip it. */
  predicate Addressed(u: Update, chat: ChatId) {
    u.message.Some? && u.message.value.chat == chat && u.message.value.text != ""
  }

  /**
   The switch on the text of a message from a chat that is not awaiting a key.
   Matching is exact: any text other than the six commands is invalid.
   */
  function CommandReply(text: string, account: Account): (r: Reply)
    ensures r == Invalid <==> text !in Commands
    ensures r == PromptKey <==> text == "/check_balance"
    ensures r == Help <==> text == "/help"
    ensures r == Welcome <==> text == "/start"
    ensures r == FundInfo <==> text == "/fund_account"
    ensures r == PromptTokens <==> text == "/list_tokens"
    ensures r.AccountCreated? <==> text == "/create_account"
    ensures r.AccountCreated? ==> r.account == account
    ensures r != EmptyKey && !r.Balance? && !r.BalanceError?
  {
    if text == "/start" then Welcome
    else if text == "/create_account" then AccountCreated(account)
    else if text == "/fund_account" then FundInfo
    else if text == "/check_balance" then PromptKey
    else if text == "/list_tokens" then PromptTokens
    else if text == "/help" then Help
    else Invalid
  }

  /**
   handlePublicKeyForBalance: the text is trimmed; an empty key is refused
   without a lookup, otherwise the trimmed key is looked up and the balance
   or the error is reported.
   */
  function KeyReply(text: string, lookup: string -> Lookup): (r: Reply)
    ensures r == EmptyKey <==> AllSpace(text)
    ensures r.EmptyKey? || r.Balance? || r.BalanceError?
    ensures r.Balance? ==> r.key == TrimSpace(text) && r.key != "" && lookup(r.key) == Found(r.lamports)
    ensures r.BalanceError? ==> TrimSpace(text) != "" && lookup(TrimSpace(text)) == Failed(r.message)
  {
    TrimSpaceEmpty(text);
    var key := TrimSpace(text);
    if key == "" then EmptyKey
    else
      match lookup(key)
      case Found(n) => Balance(key, n)
      case Failed(e) => BalanceError(e)
  }

  /** What one pass of the loop's body sends (None: nothing) and the map it leaves. */
  datatype Outcome = Outcome(reply: Option<Reply>, flags: Flags)

  /**
   One pass of the loop's body on one update. An absent or empty message is
   skipped; otherwise the text is answered as a public key (KeyReply) exactly
   when the chat was pending and by the command switch (CommandReply) when it
   was not, the chat is pending afterwards exactly when it was not
   and the text is "/check_balance". No other chat's entry changes
   (StepIsolatesChats).
   */
  function Step(flags: Flags, u: Update, lookup: string -> Lookup, account: Account): (o: Outcome)
    ensures o.reply.None? <==> u.message.None? || u.message.value.text == ""
    ensures o.reply.None? ==> o.flags == flags
    ensures o.reply.Some? ==> var m := u.message.value;
      && (Pending(flags, m.chat) ==> o.reply.value == KeyReply(m.text, lookup))
      && (!Pending(flags, m.chat) ==> o.reply.value == CommandReply(m.text, account))
      && (o.reply.value.EmptyKey? || o.reply.value.Balance? || o.reply.value.BalanceError? <==> Pending(flags, m.chat))
      && (Pending(o.flags, m.chat) <==> !Pending(flags, m.chat) && m.text == "/check_balance")
  {
    match u.message
    case None => Outcome(None, flags)
    case Some(m) =>
      if m.text == "" then Outcome(None, flags)
      else if Pending(flags, m.chat) then Outcome(Some(KeyReply(m.text, lookup)), flags[m.chat := false])
      else if m.text == "/check_balance" then Outcome(Some(CommandReply(m.text, account)), flags[m.chat := true])
      else Outcome(Some(CommandReply(m.text, account)), flags)
  }

  /** The key a step passes to getBalance, if it performs a lookup at all. */
  function Queried(flags: Flags, u: Update): (k: Option<string>)
    ensures k.Some? <==> exists c :: Addressed(u, c) && Pending(flags, c) && !AllSpace(u.message.value.text)
    ensures k.Some? ==> k.value == TrimSpace(u.message.value.text) && k.value != ""
  {
    if u.message.Some? && Addressed(u, u.message.value.chat) && Pending(flags, u.message.value.chat) then
      var text := u.message.value.text;
      TrimSpaceEmpty(text);
      if AllSpace(text) then None else Some(TrimSpace(text))
    else None
  }

  /** The step generates a keypair: "/create_account" from a chat that is not pending. */
  predicate CreatesAccount(flags: Flags, u: Update) {
    u.message.Some? && Addressed(u, u.message.value.chat) && !Pending(flags, u.message.value.chat)
    && u.message.value.text == "/create_account"
  }

  /** A message that is absent or empty is skipped: no reply, and the map is as it was. */
  lemma StepSkipsEmpty(flags: Flags, u: Update, lookup: string -> Lookup, account: Account)
    requires u.message.None? || u.message.value.text == ""
    ensures Step(flags, u, lookup, account) == Outcome(None, flags)
  {
  }

  /**
   A pending chat's next message is taken as a public key whatever its text,
   a command such as "/help" included, and its flag is cleared.
   */
  lemma PendingChatConsumesKey(flags: Flags, u: Update, lookup: string -> Lookup, account: Account, chat: ChatId)
    requires Addressed(u, chat) && Pending(flags, chat)
    ensures var o := Step(flags, u, lookup, account);
      && o.reply == Some(KeyReply(u.message.value.text, lookup))
      && o.reply.value != Help && o.reply.value != Invalid && o.reply.value != PromptKey
      && o.flags == flags[chat := false]
      && !Pending(o.flags, chat)
  {
  }

  /** "/check_balance" from a chat that is not pending prompts for a key and sets the chat's flag. */
  lemma CheckBalanceArms(flags: Flags, u: Update, lookup: string -> Lookup, account: Account, chat: ChatId)
    requires Addressed(u, chat) && !Pending(flags, chat) && u.message.value.text == "/check_balance"
    ensures var o := Step(flags, u, lookup, account);
      o.reply == Some(PromptKey) && o.flags == flags[chat := true] && Pending(o.flags, chat)
  {
  }

  /**
   "/help" from a chat that is not pending is answered with the help text, and
   a reader of that reply finds exactly the five commands it lists.
   */
  lemma HelpRequestListsFiveCommands(flags: Flags, u: Update, lookup: string -> Lookup, account: Account, chat: ChatId)
    requires Addressed(u, chat) && !Pending(flags, chat) && u.message.value.text == "/help"
    ensures var o := Step(flags, u, lookup, account);
      && o.reply == Some(Help) && o.flags == flags
      && ListedCommands(Text(o.reply.value)) == HelpCommands
      && "/start" !in ListedCommands(Text(o.reply.value))
  {
    assert Step(flags, u, lookup, account) == Outcome(Some(Help), flags);
    HelpListsFiveCommands();
  }

  /**
   A chat that is not pending gets "Invalid command" exactly for a text that is
   not one of the six commands, and only "/check_balance" writes to the map.
   */
  lemma CommandMatchingIsExact(flags: Flags, u: Update, lookup: string -> Lookup, account: Account, chat: ChatId)
    requires Addressed(u, chat) && !Pending(flags, chat)
    ensures var o := Step(flags, u, lookup, account);
      && (o.reply == Some(Invalid) <==> u.message.value.text !in Commands)
      && (o.flags != flags <==> u.message.value.text == "/check_balance")
  {
    if u.message.value.text == "/check_balance" {
      assert Pending(flags[chat := true], chat);
    }
  }

  /**
   "/list_tokens" asks for a public key but, unlike "/check_balance", marks
   nothing: the chat stays not pending, so a key sent next is matched as a
   command and, not being one, is invalid.
   */
  lemma ListTokensPromptIsNotFollowedUp(flags: Flags, u: Update, next: Update, lookup: string -> Lookup, account: Account, chat: ChatId)
    requires Addressed(u, chat) && !Pending(flags, chat) && u.message.value.text == "/list_tokens"
    requires Addressed(next, chat) && next.message.value.text !in Commands
    ensures var o := Step(flags, u, lookup, account);
      && o.reply == Some(PromptTokens) && o.flags == flags
      && Step(o.flags, next, lookup, account) == Outcome(Some(Invalid), flags)
  {
  }

  /**
   A pending chat whose text is only white space gets the "cannot be empty"
   reply, no lookup is made, and the flag stays cleared.
   */
  lemma BlankKeyIsRefused(flags: Flags, u: Update, lookup: string -> Lookup, account: Account, chat: ChatId)
    requires Addressed(u, chat) && Pending(flags, chat) && AllSpace(u.message.value.text)
    ensures var o := Step(flags, u, lookup, account);
      o.reply == Some(EmptyKey) && !Pending(o.flags, chat) && Queried(flags, u) == None
  {
  }

  /**
   A step consults getBalance only at the key Queried names, and the keypair
   only for "/create_account": oracles that agree there give the same outcome.
   */
  lemma StepDependsOnlyOnQueriedKey(flags: Flags, u: Update, l1: string -> Lookup, l2: string -> Lookup, a1: Account, a2: Account)
    requires Queried(flags, u).Some? ==> l1(Queried(flags, u).value) == l2(Queried(flags, u).value)
    requires CreatesAccount(flags, u) ==> a1 == a2
    ensures Step(flags, u, l1, a1) == Step(flags, u, l2, a2)
  {
    if u.message.Some? && Addressed(u, u.message.value.chat) && Pending(flags, u.message.value.chat) {
      TrimSpaceEmpty(u.message.value.text);
    }
  }

  /**
   The chat's flag after a step on one of its messages: set exactly when it was
   clear and the text is "/check_balance". This names, for the caller's chat,
   the last conjunct of Step's own contract.
   */
  lemma StepPendingAfter(flags: Flags, u: Update, lookup: string -> Lookup, account: Account, chat: ChatId)
    requires Addressed(u, chat)
    ensures Pending(Step(flags, u, lookup, account).flags, chat) <==> !Pending(flags, chat) && u.message.value.text == "/check_balance"
  {
  }

  /** A step changes at most the entry of its own message's chat. */
  lemma StepIsolatesChats(flags: Flags, u: Update, lookup: string -> Lookup, account: Account, other: ChatId)
    requires !Addressed(u, other)
    ensures var o := Step(flags, u, lookup, account);
      (other in o.flags <==> other in flags) && (other in flags ==> o.flags[other] == flags[other])
  {
  }

  /** The oracles of a run of the loop, by the position of the update being handled. */
  datatype Env = Env(lookups: nat -> (string -> Lookup), accounts: nat -> Account, delivered: nat -> bool)

  /** What a run sends, update by update, whether it returned early, and the map it leaves. */
  datatype Trace = Trace(replies: seq<Option<Reply>>, stopped: bool, flags: Flags)

  /** The loop returns when an "Invalid command" reply fails to send (src/main.go:90-93). */
  predicate Stops(reply: Option<Reply>, delivered: bool) {
    reply == Some(Invalid) && !delivered
  }

  /** The loop over updates, the first of which is at position at of the stream. */
  function Run(flags: Flags, updates: seq<Update>, env: Env, at: nat): (t: Trace)
    ensures |t.replies| <= |updates|
    ensures !t.stopped ==> |t.replies| == |updates|
    ensures t.stopped ==> |t.replies| >= 1
    ensures forall i :: 0 <= i < |t.replies| ==> (Stops(t.replies[i], env.delivered(at + i)) <==> t.stopped && i == |t.replies| - 1)
    decreases |updates|
  {
    if updates == [] then Trace([], false, flags)
    else
      var o := Step(flags, updates[0], env.lookups(at), env.accounts(at));
      if Stops(o.reply, env.delivered(at)) then Trace([o.reply], true, o.flags)
      else
        var t := Run(o.flags, updates[1..], env, at + 1);
        PrependKeepsStops(o.reply, t, env, at);
        Prepend([o.reply], t)
  }

  /** A reply that did not stop the loop, put in front of a run from the next position. */
  lemma PrependKeepsStops(first: Option<Reply>, t: Trace, env: Env, at: nat)
    requires !Stops(first, env.delivered(at))
    requires t.stopped ==> |t.replies| >= 1
    requires forall i :: 0 <= i < |t.replies| ==> (Stops(t.replies[i], env.delivered(at + 1 + i)) <==> t.stopped && i == |t.replies| - 1)
    ensures var w := Prepend([first], t);
      && (w.stopped ==> |w.replies| >= 1)
      && (forall i :: 0 <= i < |w.replies| ==> (Stops(w.replies[i], env.delivered(at + i)) <==> w.stopped && i == |w.replies| - 1))
  {
    var w := Prepend([first], t);
    forall i | 0 <= i < |w.replies|
      ensures Stops(w.replies[i], env.delivered(at + i)) <==> w.stopped && i == |w.replies| - 1
    {
      if i > 0 {
        assert w.replies[i] == t.replies[i - 1];
        assert at + i == at + 1 + (i - 1);
      }
    }
  }

  /** A trace with replies sent before it put in front. */
  function Prepend(replies: seq<Option<Reply>>, t: Trace): Trace {
    Trace(replies + t.replies, t.stopped, t.flags)
  }

  /**
   The loop's progress: if the whole run is what was sent so far followed by
   the run from position i, then after handling update i it is what has been
   sent by then, followed by the run from i + 1, or it ends there if the loop
   returns.
   */
  lemma RunAdvances(total: Trace, sent: seq<Option<Reply>>, flags: Flags, updates: seq<Update>, env: Env, i: nat, o: Outcome)
    requires i < |updates|
    requires total == Prepend(sent, Run(flags, updates[i..], env, i))
    requires o == Step(flags, updates[i], env.lookups(i), env.accounts(i))
    ensures Stops(o.reply, env.delivered(i)) ==> total == Trace(sent + [o.reply], true, o.flags)
    ensures !Stops(o.reply, env.delivered(i)) ==> total == Prepend(sent + [o.reply], Run(o.flags, updates[i + 1..], env, i + 1))
  {
    RunFrom(flags, updates, env, i, o);
    PrependTwice(sent, [o.reply], Run(o.flags, updates[i + 1..], env, i + 1));
  }

  lemma PrependTwice(first: seq<Option<Reply>>, second: seq<Option<Reply>>, t: Trace)
    ensures Prepend(first, Prepend(second, t)) == Prepend(first + second, t)
  {
    assert first + (second + t.replies) == (first + second) + t.replies;
  }

  /** The run from position i of the updates, by the step on update i. */
  lemma RunFrom(flags: Flags, updates: seq<Update>, env: Env, i: nat, o: Outcome)
    requires i < |updates|
    requires o == Step(flags, updates[i], env.lookups(i), env.accounts(i))
    ensures Stops(o.reply, env.delivered(i)) ==> Run(flags, updates[i..], env, i) == Trace([o.reply], true, o.flags)
    ensures !Stops(o.reply, env.delivered(i)) ==> Run(flags, updates[i..], env, i) == Prepend([o.reply], Run(o.flags, updates[i + 1..], env, i + 1))
  {
    assert updates[i..][0] == updates[i];
    assert updates[i..][1..] == updates[i + 1..];
  }

  /**
   The loop over a stream a + b: the loop over a, and unless it returned
   within a, the loop over b from the map a left, at the positions after a.
   */
  lemma {:induction false} RunAppend(flags: Flags, a: seq<Update>, b: seq<Update>, env: Env, at: nat)
    ensures var ra := Run(flags, a, env, at);
      && (ra.stopped ==> Run(flags, a + b, env, at) == ra)
      && (!ra.stopped ==> Run(flags, a + b, env, at) == Prepend(ra.replies, Run(ra.flags, b, env, at + |a|)))
    decreases |a|, 1
  {
    if a == [] {
      RunAppendEmpty(flags, a, b, env, at);
    } else {
      RunAppendCons(flags, a, b, env, at);
    }
  }

  lemma RunAppendEmpty(flags: Flags, a: seq<Update>, b: seq<Update>, env: Env, at: nat)
    requires a == []
    ensures Run(flags, a, env, at) == Trace([], false, flags)
    ensures Run(flags, a + b, env, at) == Prepend([], Run(flags, b, env, at))
  {
    assert a + b == b;
    assert [] + Run(flags, b, env, at).replies == Run(flags, b, env, at).replies;
  }

  /** RunAppend for a stream a that is not empty: the step on its first update, then RunAppend on the rest of a. */
  lemma {:induction false} RunAppendCons(flags: Flags, a: seq<Update>, b: seq<Update>, env: Env, at: nat)
    requires |a| >= 1
    ensures var ra := Run(flags, a, env, at);
      && (ra.stopped ==> Run(flags, a + b, env, at) == ra)
      && (!ra.stopped ==> Run(flags, a + b, env, at) == Prepend(ra.replies, Run(ra.flags, b, env, at + |a|)))
    decreases |a|, 0
  {
    var o := Step(flags, a[0], env.lookups(at), env.accounts(at));
    RunCons(flags, a, env, at);
    RunConsAppend(flags, a, b, env, at);
    if !Stops(o.reply, env.delivered(at)) {
      RunAppend(o.flags, a[1..], b, env, at + 1);
      var rest := Run(o.flags, a[1..], env, at + 1);
      assert at + 1 + |a[1..]| == at + |a|;
      AppendAfterReply(o.reply, rest, Run(o.flags, a[1..] + b, env, at + 1), Run(rest.flags, b, env, at + |a|));
    }
  }

  /** RunCons for a + b, stated in terms of a's first update and the rest of a followed by b. */
  lemma RunConsAppend(flags: Flags, a: seq<Update>, b: seq<Update>, env: Env, at: nat)
    requires |a| >= 1
    ensures var o := Step(flags, a[0], env.lookups(at), env.accounts(at));
      && (Stops(o.reply, env.delivered(at)) ==> Run(flags, a + b, env, at) == Trace([o.reply], true, o.flags))
      && (!Stops(o.reply, env.delivered(at)) ==> Run(flags, a + b, env, at) == Prepend([o.reply], Run(o.flags, a[1..] + b, env, at + 1)))
  {
    var ab := a + b;
    assert ab[0] == a[0];
    assert ab[1..] == a[1..] + b;
    RunCons(flags, ab, env, at);
  }

  /** One reply in front of a run over a, and of the run over a + b that continues it with tail. */
  lemma AppendAfterReply(first: Option<Reply>, rest: Trace, longer: Trace, tail: Trace)
    requires rest.stopped ==> longer == rest
    requires !rest.stopped ==> longer == Prepend(rest.replies, tail)
    ensures var whole := Prepend([first], rest);
      && (whole.stopped ==> Prepend([first], longer) == whole)
      && (!whole.stopped ==> Prepend([first], longer) == Prepend(whole.replies, tail))
  {
    if !rest.stopped {
      PrependTwice([first], rest.replies, tail);
    }
  }

  /** The run over a stream that is not empty, by the step on its first update. */
  lemma RunCons(flags: Flags, s: seq<Update>, env: Env, at: nat)
    requires |s| >= 1
    ensures var o := Step(flags, s[0], env.lookups(at), env.accounts(at));
      && (Stops(o.reply, env.delivered(at)) ==> Run(flags, s, env, at) == Trace([o.reply], true, o.flags))
      && (!Stops(o.reply, env.delivered(at)) ==> Run(flags, s, env, at) == Prepend([o.reply], Run(o.flags, s[1..], env, at + 1)))
  {
  }

  /** A chat that sends nothing the loop handles keeps its entry through a whole run. */
  lemma {:induction false} RunLeavesSilentChats(flags: Flags, updates: seq<Update>, env: Env, at: nat, chat: ChatId)
    requires forall i :: 0 <= i < |updates| ==> !Addressed(updates[i], chat)
    ensures var t := Run(flags, updates, env, at);
      (chat in t.flags <==> chat in flags) && (chat in flags ==> t.flags[chat] == flags[chat])
    decreases |updates|
  {
    if updates != [] {
      var o := Step(flags, updates[0], env.lookups(at), env.accounts(at));
      StepIsolatesChats(flags, updates[0], env.lookups(at), env.accounts(at), chat);
      if !Stops(o.reply, env.delivered(at)) {
        RunLeavesSilentChats(o.flags, updates[1..], env, at + 1, chat);
      }
    }
  }

  /**
   While a chat is pending, other chats' messages and its own empty ones leave
   it pending, and its next non-empty message is answered as a public key and
   clears the flag, unless the loop returned before reaching it. The chat's
   message is the last of the updates.
   */
  lemma {:induction false} RunAnswersPendingKey(flags: Flags, updates: seq<Update>, env: Env, at: nat, chat: ChatId)
    requires Pending(flags, chat)
    requires |updates| >= 1 && Addressed(updates[|updates| - 1], chat)
    requires forall i :: 0 <= i < |updates| - 1 ==> !Addressed(updates[i], chat)
    ensures var t := Run(flags, updates, env, at);
      !t.stopped ==> t.replies[|updates| - 1] == Some(KeyReply(updates[|updates| - 1].message.value.text, env.lookups(at + (|updates| - 1)))) && !Pending(t.flags, chat)
    decreases |updates|
  {
    if |updates| == 1 {
      PendingChatAnswered(flags, updates, env, at, chat);
    } else {
      var o := Step(flags, updates[0], env.lookups(at), env.accounts(at));
      PendingSurvivesOtherUpdate(flags, updates, env, at, chat);
      if !Stops(o.reply, env.delivered(at)) {
        var rest := updates[1..];
        assert at + (|updates| - 1) == at + 1 + (|rest| - 1);
        RunAnswersPendingKey(o.flags, rest, env, at + 1, chat);
        PrependedReplyAt(o.reply, Run(o.flags, rest, env, at + 1), |rest| - 1);
        assert |rest| - 1 + 1 == |updates| - 1;
      }
    }
  }

  /** A run of the pending chat's own message alone answers it as a public key. */
  lemma {:induction false} PendingChatAnswered(flags: Flags, updates: seq<Update>, env: Env, at: nat, chat: ChatId)
    requires |updates| == 1 && Pending(flags, chat) && Addressed(updates[|updates| - 1], chat)
    ensures var t := Run(flags, updates, env, at);
      !t.stopped ==> t.replies[|updates| - 1] == Some(KeyReply(updates[|updates| - 1].message.value.text, env.lookups(at + (|updates| - 1)))) && !Pending(t.flags, chat)
  {
    assert |updates| - 1 == 0;
    PendingChatConsumesKey(flags, updates[0], env.lookups(at), env.accounts(at), chat);
    assert updates[1..] == [];
  }

  /**
   The first of the updates is not addressed by the pending chat, so the chat
   stays pending; unless the loop returns there, the run continues with the
   rest of the updates, which meet the same conditions.
   */
  lemma {:induction false} PendingSurvivesOtherUpdate(flags: Flags, updates: seq<Update>, env: Env, at: nat, chat: ChatId)
    requires Pending(flags, chat)
    requires |updates| >= 2 && Addressed(updates[|updates| - 1], chat)
    requires forall i :: 0 <= i < |updates| - 1 ==> !Addressed(updates[i], chat)
    ensures var o := Step(flags, updates[0], env.lookups(at), env.accounts(at)); var rest := updates[1..];
      && Pending(o.flags, chat)
      && rest[|rest| - 1] == updates[|updates| - 1]
      && Addressed(rest[|rest| - 1], chat)
      && (forall i :: 0 <= i < |rest| - 1 ==> !Addressed(rest[i], chat))
      && (!Stops(o.reply, env.delivered(at)) ==> Run(flags, updates, env, at) == Prepend([o.reply], Run(o.flags, rest, env, at + 1)))
  {
    StepIsolatesChats(flags, updates[0], env.lookups(at), env.accounts(at), chat);
    var rest := updates[1..];
    assert rest[|rest| - 1] == updates[|updates| - 1];
    forall i | 0 <= i < |rest| - 1
      ensures !Addressed(rest[i], chat)
    {
      assert rest[i] == updates[i + 1];
    }
  }

  /**
   The run's first update arms the chat with "/check_balance": the prompt is
   sent, the loop goes on, and the rest of the run starts from a pending chat.
   */
  lemma {:induction false} CheckBalanceStartsRun(flags: Flags, updates: seq<Update>, env: Env, at: nat, chat: ChatId)
    requires |updates| >= 2 && !Pending(flags, chat)
    requires Addressed(updates[0], chat) && updates[0].message.value.text == "/check_balance"
    requires forall i :: 1 <= i < |updates| - 1 ==> !Addressed(updates[i], chat)
    ensures var rest := updates[1..];
      && Pending(flags[chat := true], chat)
      && (forall i :: 0 <= i < |rest| - 1 ==> !Addressed(rest[i], chat))
      && Run(flags, updates, env, at) == Prepend([Some(PromptKey)], Run(flags[chat := true], rest, env, at + 1))
  {
    CheckBalanceArms(flags, updates[0], env.lookups(at), env.accounts(at), chat);
    var rest := updates[1..];
    forall i | 0 <= i < |rest| - 1
      ensures !Addressed(rest[i], chat)
    {
      assert rest[i] == updates[i + 1];
    }
  }

  /** A run that sent first and then went on as t: t's replies, one place later. */
  lemma PrependedReplyAt(first: Option<Reply>, t: Trace, k: nat)
    requires !t.stopped ==> k < |t.replies|
    ensures var whole := Prepend([first], t);
      && |whole.replies| >= 1 && whole.replies[0] == first
      && whole.stopped == t.stopped
      && (!t.stopped ==> whole.replies[k + 1] == t.replies[k])
  {
  }

  /**
   "/check_balance" from a chat that is not pending is answered with the key
   prompt, and the chat's next non-empty message, however many updates of
   other chats come between, is answered as a public key.
   */
  lemma {:induction false} CheckBalanceThenKey(flags: Flags, updates: seq<Update>, env: Env, at: nat, chat: ChatId)
    requires |updates| >= 2 && !Pending(flags, chat)
    requires Addressed(updates[0], chat) && updates[0].message.value.text == "/check_balance"
    requires Addressed(updates[|updates| - 1], chat)
    requires forall i :: 1 <= i < |updates| - 1 ==> !Addressed(updates[i], chat)
    ensures var t := Run(flags, updates, env, at); var last := |updates| - 1;
      && t.replies[0] == Some(PromptKey)
      && (!t.stopped ==> t.replies[last] == Some(KeyReply(updates[last].message.value.text, env.lookups(at + last))))
  {
    var armed := flags[chat := true];
    var rest := updates[1..];
    CheckBalanceStartsRun(flags, updates, env, at, chat);
    assert rest[|rest| - 1] == updates[|updates| - 1];
    assert at + (|updates| - 1) == at + 1 + (|rest| - 1);
    RunAnswersPendingKey(armed, rest, env, at + 1, chat);
    PrependedReplyAt(Some(PromptKey), Run(armed, rest, env, at + 1), |rest| - 1);
    assert |rest| - 1 + 1 == |updates| - 1;
  }
}
