# Solana Telegram bot: the update loop and its "awaiting public key" state

This project models the command dispatcher of a Telegram bot that fronts a
Solana RPC endpoint. The bot reads chat updates one at a time. It keeps one
process-wide map, `pendingBalanceRequests`, from chat to a flag that says
"the next message from this chat is a public key". For each update the loop:

1. skips an update with no message or with empty text;
2. if the chat's flag is set, clears it and treats the text as a public key:
   the key is trimmed, an empty key is refused, otherwise its balance is
   looked up and the balance or the lookup error is reported;
3. otherwise matches the text exactly against `/start`, `/create_account`,
   `/fund_account`, `/check_balance`, `/list_tokens` and `/help`, and replies
   "Invalid command" to anything else. Only `/check_balance` sets a flag.

Files:

- `go_text.dfy` (module `GoText`): the Go library text operations the replies
  use. `strings.TrimSpace` over `unicode.IsSpace`, the `%d` verb on a `uint64`
  and the `%x` verb on a byte slice. Each comes with its inverse or
  characterisation. Also line splitting and joining, which is how a reader
  takes the `/help` text apart.
- `replies.dfy` (module `Replies`): the `Reply` datatype and the exact text of
  every reply. Includes what a reader can recover from the help, balance and
  new-account texts.
- `dispatch.dfy` (module `Dispatch`): the loop body as a pure step
  `Step(flags, update, lookup, account)`. It gives the reply and the new map.
  `Run` is the loop over a stream of updates. The lemmas cover the state
  machine.
- `bot.dfy` (module `UpdateLoop`): class `Bot`, which holds the
  `pendingBalanceRequests` map and updates it in place. `HandleUpdate` is one
  pass of the loop body and `Serve` is the loop. `HandleUpdate` and `Serve`
  are proved equal to `Step` and `Run`.

Things outside the model are parameters. The balance RPC is a function from
key to `Lookup`, either `Found(lamports)` or `Failed(error text)`. The keypair
from `types.NewAccount` is an `Account` value: the Base58 public key text and
the private key bytes. Whether a `SendMessage` succeeded is a boolean. `Env`
indexes all three by the update's position in the stream, so answers can
differ from one update to the next.

## Model

| member | source | states |
|---|---|---|
| `GoText.TrimSpace` | src/main.go:127 | The trimmed key is a slice of the input. Only white space was cut before and after it, and it neither starts nor ends with white space. |
| `GoText.TrimSpaceEmpty` | src/main.go:127-128 | The key trims to "" exactly when every character of the text is white space. |
| `GoText.TrimSpaceIdempotent` | src/main.go:127 | Trimming an already trimmed key changes nothing. |
| `GoText.Decimal` | src/main.go:139 | `%d` on the balance prints at least one decimal digit, with no leading zero unless the value is 0. |
| `GoText.DecimalRoundTrip` | src/main.go:139 | The digits printed for a balance denote that balance. |
| `GoText.Hex` | src/main.go:100 | `%x` on the private key prints two lower-case hex digits per byte. |
| `GoText.HexRoundTrip` | src/main.go:100 | The hex digits printed give back the private key bytes. |
| `Replies.Text` | src/main.go:70-141 | The text sent for each reply. A text begins with "Balance for account " exactly when it reports a balance, with "Failed to get balance: " exactly when it reports a failed lookup, and with "New Solana account created:" exactly when it reports a new account. |
| `Replies.HelpListsFiveCommands` | src/main.go:82-87 | The `/help` text lists exactly `/create_account`, `/fund_account`, `/check_balance`, `/list_tokens`, `/help`, in that order and one per line. It does not list `/start`. |
| `Replies.BalanceTextRoundTrip` | src/main.go:139 | "Balance for account <key>: <n> lamports" gives back the key and the amount, whatever the key's text. |
| `Replies.AccountTextCarriesPrivateKey` | src/main.go:100 | The new-account reply is its header with the public key, followed by hex digits that decode to the private key. |
| `Dispatch.CommandReply` | src/main.go:70-94 | Matching is exact. The reply is "Invalid command" exactly when the text is not one of the six commands. The key prompt comes exactly for `/check_balance`, the token prompt exactly for `/list_tokens`, the funding note exactly for `/fund_account`, the help exactly for `/help`, the welcome exactly for `/start`. A new account comes exactly for `/create_account` and carries the generated keypair. |
| `Dispatch.KeyReply` | src/main.go:126-141 | The "cannot be empty" reply comes exactly when the text is all white space. Otherwise the reply is the balance or the error that the lookup returned for the trimmed, non-empty key. |
| `Dispatch.Step` | src/main.go:54-94 | An update with no message or with empty text gets no reply and leaves the map as it was. Otherwise a pending chat's text gets `KeyReply`, and any other chat's text gets the switch's reply, `CommandReply`. Afterwards the chat is pending exactly when it was not pending before and the text was `/check_balance`. |
| `Dispatch.Queried` | src/main.go:126-133 | A lookup is made exactly when the chat is pending and its text is not all white space. The key looked up is the trimmed text, which is never empty. |
| `Dispatch.StepSkipsEmpty` | src/main.go:54-56 | An update with no message or with empty text gets no reply and leaves the map as it was. A pending flag is not consumed. |
| `Dispatch.PendingChatConsumesKey` | src/main.go:64-67 | A pending chat's next non-empty message is answered as a public key, whatever its text, commands such as `/help` included. The chat's entry becomes false. |
| `Dispatch.CheckBalanceArms` | src/main.go:77-78 | `/check_balance` from a chat that is not pending replies with the key prompt and sets that chat's entry to true. |
| `Dispatch.HelpRequestListsFiveCommands` | src/main.go:81-88 | `/help` from a chat that is not pending is answered with the help text and leaves the map unchanged. Reading that reply line by line gives exactly the five commands, and `/start` is not among them. |
| `Dispatch.CommandMatchingIsExact` | src/main.go:70-94 | For a chat that is not pending, "Invalid command" comes exactly for a non-command text. The map changes exactly when the text is `/check_balance`. |
| `Dispatch.ListTokensPromptIsNotFollowedUp` | src/main.go:79-80 | `/list_tokens` prompts for a key but leaves the map unchanged. A key sent next that is not a command gets "Invalid command". |
| `Dispatch.BlankKeyIsRefused` | src/main.go:126-131 | A pending chat that sends only white space gets the "cannot be empty" reply. No lookup is made, and the flag stays cleared. |
| `Dispatch.StepDependsOnlyOnQueriedKey` | src/main.go:133 | The outcome of a step depends on the balance oracle only at the queried key. It depends on the keypair only for `/create_account`. |
| `Dispatch.StepPendingAfter` | src/main.go:64-78 | After a message from a chat, that chat is pending exactly when it was not pending before and the text was `/check_balance`. |
| `Dispatch.StepIsolatesChats` | src/main.go:62-67 | A step changes at most the entry of its own message's chat. Every other chat's presence and flag are unchanged. |
| `Dispatch.Run` | src/main.go:53-95 | The loop sends at most one reply per update. A reply is an "Invalid command" that failed to send exactly when it is the last reply of a run that returned. So the loop returns at the first such reply and at no other, and a run that does not return handles every update. |
| `Dispatch.RunAdvances` | src/main.go:53-95 | Handling update i either ends the run there, when the loop returns, or leaves the run from update i + 1 to finish it. |
| `Dispatch.RunAppend` | src/main.go:53-95 | The loop over a stream `a + b` is the loop over `a`. Unless it returned within `a`, it is followed by the loop over `b`, from the map `a` left and at the positions after `a`. |
| `Dispatch.RunLeavesSilentChats` | src/main.go:53-95 | A chat that sends no non-empty message keeps its entry through a whole run. |
| `Dispatch.RunAnswersPendingKey` | src/main.go:53-68 | A pending chat stays pending while other chats talk and while it sends empty messages. Its next non-empty message is answered as a public key and clears the flag, unless the loop has already returned. The stream is stated up to that message; `RunAppend` carries the result to any updates after it. |
| `Dispatch.CheckBalanceThenKey` | src/main.go:64-78 | After `/check_balance`, the chat's next non-empty message is answered as a public key, however many other chats' updates come between. The stream is stated up to that message; `RunAppend` carries the result to any updates after it. |
| `UpdateLoop.Bot.constructor` | src/main.go:16 | The map starts empty. |
| `UpdateLoop.Bot.HandleCheckBalance` | src/main.go:109-112 | Replies with the key prompt and sets the chat's entry to true. |
| `UpdateLoop.Bot.HandleUpdate` | src/main.go:54-94 | One pass of the loop body. Its reply and the map it leaves are those of `Step`. |
| `UpdateLoop.Bot.Serve` | src/main.go:53-95 | The loop over the update stream. The replies, the early return and the final map are those of `Run`. |

## Left out

- Loading `.env` and the environment checks that end in `log.Fatal` (src/main.go:19-31). These are process start-up I/O.
- Creating the bot, `SetMyCommands` and the long-polling channel (src/main.go:33-52). These are calls into the Telegram library. The updates are a plain input sequence.
- Sending messages. A reply is a value, and the text it would carry is `Replies.Text`. Send errors are ignored by every branch but the default one. There they make the loop return (src/main.go:90-93), and the model captures that return through the `delivered` oracle.
- Key generation and Base58 encoding of the public key (src/main.go:99-100). These come from a cryptographic library, so the keypair is an input with the Base58 text already made. The `%x` formatting of the private key is modelled.
- The RPC call `solClient.GetBalance` (src/main.go:118-124). It is network I/O, so it is an oracle returning a `uint64` or the error's text.
- Logging of each received command (src/main.go:60).
- Byte-level strings. Go strings are UTF-8 bytes and `strings.TrimSpace` decodes them. The model works on Unicode characters, so invalid UTF-8 in a message is not modelled.
- The username part of telego's `ChatID`. The loop only builds chat IDs from the numeric ID, so a chat is an int64.
- `Replies.HelpText` is built from its heading, commands and descriptions, joined by " - " and line breaks. The result is the same text the source concatenates at src/main.go:82-87, but no lemma states that equality against a single literal.
