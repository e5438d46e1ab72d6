/**
 The running bot (src/main.go:15-16, 53-95, 109-112): the process-wide
 pendingBalanceRequests map, updated in place as the update loop handles one
 update after another.
 */
module UpdateLoop {
  import opened Wrappers
  import opened Replies
  import opened Dispatch

  class Bot {
    var pendingBalanceRequests: Flags

    /** The map starts empty: no chat awaits a key. */
    constructor ()
      ensures pendingBalanceRequests == map[]
    {
      pendingBalanceRequests := map[];
    }

    /** handleCheckBalance: prompt for a key and mark the chat as awaiting one. */
    method HandleCheckBalance(chat: ChatId) returns (reply: Reply)
      modifies this
      ensures reply == PromptKey
      ensures pendingBalanceRequests == old(pendingBalanceRequests)[chat := true]
    {
      reply := PromptKey;
      pendingBalanceRequests := pendingBalanceRequests[chat := true];
    }

    /** One pass of the update loop's body: what it sends, if anything, and how it changes the map. */
    method HandleUpdate(u: Update, lookup: string -> Lookup, account: Account) returns (reply: Option<Reply>)
      modifies this
      ensures Outcome(reply, pendingBalanceRequests) == Step(old(pendingBalanceRequests), u, lookup, account)
    {
      if u.message.None? || u.message.value.text == "" {
        return None;
      }
      var command := u.message.value.text;
      var chatId := u.message.value.chat;
      if chatId in pendingBalanceRequests && pendingBalanceRequests[chatId] {
        pendingBalanceRequests := pendingBalanceRequests[chatId := false];
        return Some(KeyReply(command, lookup));
      }
      if command == "/check_balance" {
        var r := HandleCheckBalance(chatId);
        return Some(r);
      }
      return Some(CommandReply(command, account));
    }

    /**
     The update loop: each update in turn, until the stream ends or an
     "Invalid command" reply cannot be sent.
     */
    method Serve(updates: seq<Update>, env: Env) returns (replies: seq<Option<Reply>>, stopped: bool)
      modifies this
      ensures Trace(replies, stopped, pendingBalanceRequests) == Run(old(pendingBalanceRequests), updates, env, 0)
    {
      replies, stopped := [], false;
      ghost var total := Run(pendingBalanceRequests, updates, env, 0);
      var i := 0;
      while i < |updates|
        invariant 0 <= i <= |updates|
        invariant total == Prepend(replies, Run(pendingBalanceRequests, updates[i..], env, i))
      {
        ghost var before := pendingBalanceRequests;
        var reply := HandleUpdate(updates[i], env.lookups(i), env.accounts(i));
        RunAdvances(total, replies, before, updates, env, i, Outcome(reply, pendingBalanceRequests));
        replies := replies + [reply];
        if Stops(reply, env.delivered(i)) {
          stopped := true;
          return;
        }
        i := i + 1;
      }
      assert replies + [] == replies;
    }
  }
}
