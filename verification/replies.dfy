/**
 What the bot sends back to a chat, and the exact text of each reply
 (src/main.go: the /start and /help texts in the update loop and the texts of
 handleCreateAccount, handleFundAccount, handleCheckBalance, handleListTokens
 and handlePublicKeyForBalance).
 */
module Replies {
  import opened Wrappers
  import opened GoText

  /**
   A freshly generated keypair as handleCreateAccount prints it: the public key
   already in Base58 (the encoding is done by the key library) and the raw
   private key bytes.
   */
  datatype Account = Account(publicKeyBase58: string, privateKey: seq<byte>)

  datatype Reply =
    | Welcome                                  // "/start"
    | AccountCreated(account: Account)         // "/create_account"
    | FundInfo                                 // "/fund_account"
    | PromptKey                                // "/check_balance"
    | PromptTokens                             // "/list_tokens"
    | Help                                     // "/help"
    | Invalid                                  // any other text
    | EmptyKey                                 // a public key that trims to ""
    | Balance(key: string, lamports: uint64)   // a successful balance lookup
    | BalanceError(message: string)            // a failed balance lookup

  // Each long text is written as its first word and the rest: the contract of Text rests on how the texts begin.
  const WelcomeText := "Welcome" + " to Solana Bot! Use /create_account to create a new account."
  const FundText := "To" + " fund your Solana account, send some SOL to a valid account address. Use /check_balance to verify the balance."
  const PromptKeyText := "Please" + " reply with the Solana public key to check balance."
  const PromptTokensText := "Please" + " reply with the Solana public key to list tokens."
  const InvalidText := "Invalid command"
  const EmptyKeyText := "Public" + " key cannot be empty. Please try again with a valid key."
  const BalancePrefix := "Balance for account "
  const BalanceSuffix := " lamports"
  const BalanceErrorPrefix := "Failed to get balance: "

  /** The opening of the account reply, before the public key. */
  const AccountHeading := "New" + " Solana account created:\nPublic Key: "

  /**
   The message text sent for each reply. A reader tells a balance report, a
   failed lookup and a new account from every other reply by how the text
   begins.
   */
  function Text(r: Reply): (t: string)
    ensures BalancePrefix <= t <==> r.Balance?
    ensures BalanceErrorPrefix <= t <==> r.BalanceError?
    ensures AccountHeading <= t <==> r.AccountCreated?
  {
    TextOpenings();
    match r
    case Welcome => WelcomeText
    case AccountCreated(a) => AccountHeader(a) + Hex(a.privateKey)
    case FundInfo => FundText
    case PromptKey => PromptKeyText
    case PromptTokens => PromptTokensText
    case Help => HelpText()
    case Invalid => InvalidText
    case EmptyKey => EmptyKeyText
    case Balance(key, n) => BalancePrefix + key + ": " + Decimal(n) + BalanceSuffix
    case BalanceError(message) => BalanceErrorPrefix + message
  }

  /** The first character of each fixed text; no two of the prefixes above share one. */
  lemma TextOpenings()
    ensures BalancePrefix[0] == 'B' && BalanceErrorPrefix[0] == 'F' && AccountHeading[0] == 'N'
    ensures WelcomeText[0] == 'W' && FundText[0] == 'T' && PromptKeyText[0] == 'P' && PromptTokensText[0] == 'P'
    ensures InvalidText[0] == 'I' && EmptyKeyText[0] == 'P' && HelpText()[0] == 'A'
  {
  }

  /** The account reply up to the private key. */
  function AccountHeader(a: Account): string {
    AccountHeading + a.publicKeyBase58 + "\nPrivate Key: "
  }

  const HelpHeading := "Available commands:"

  /** A line of the /help text. */
  function HelpLine(command: string, description: string): string {
    command + " - " + description
  }

  /** The commands the /help text lists, and what it says each one does. */
  const HelpCommands := ["/create_account", "/fund_account", "/check_balance", "/list_tokens", "/help"]
  const HelpDescriptions := [
    "Create a new Solana account",
    "Fund a Solana account",
    "Check Solana account balance",
    "List tokens in a Solana account",
    "Show this help message"
  ]

  /**
   The /help text: the heading, then "command - description" for each
   command, one per line, with no line break after the last.
   */
  function HelpText(): string {
    HelpLayout(HelpHeading, HelpCommands, HelpDescriptions)
  }

  /** A heading followed by five help lines. */
  function HelpLayout(heading: string, c: seq<string>, d: seq<string>): string
    requires |c| == 5 && |d| == 5
  {
    heading + "\n" + HelpLine(c[0], d[0]) + "\n" + HelpLine(c[1], d[1]) + "\n" + HelpLine(c[2], d[2]) + "\n" +
    HelpLine(c[3], d[3]) + "\n" + HelpLine(c[4], d[4])
  }

  /** The commands a reader finds in a help text: the first word of every line after the heading. */
  function ListedCommands(text: string): seq<string> {
    var lines := Split(text, '\n');
    seq(|lines| - 1, i requires 0 <= i < |lines| - 1 => FirstWord(lines[i + 1]))
  }

  lemma JoinSix(l0: string, l1: string, l2: string, l3: string, l4: string, l5: string)
    ensures Join([l0, l1, l2, l3, l4, l5], '\n') == l0 + "\n" + l1 + "\n" + l2 + "\n" + l3 + "\n" + l4 + "\n" + l5
  {
    JoinCons(l4, [l5], '\n');
    assert [l4, l5] == [l4] + [l5];
    JoinCons(l3, [l4, l5], '\n');
    assert [l3, l4, l5] == [l3] + [l4, l5];
    JoinCons(l2, [l3, l4, l5], '\n');
    assert [l2, l3, l4, l5] == [l2] + [l3, l4, l5];
    JoinCons(l1, [l2, l3, l4, l5], '\n');
    assert [l1, l2, l3, l4, l5] == [l1] + [l2, l3, l4, l5];
    JoinCons(l0, [l1, l2, l3, l4, l5], '\n');
    assert [l0, l1, l2, l3, l4, l5] == [l0] + [l1, l2, l3, l4, l5];
  }

  /** Line k of the help text is "command - description", and its first word is the command. */
  lemma HelpLineCommand(command: string, description: string)
    requires ' ' !in command && '\n' !in command && '\n' !in description
    ensures '\n' !in HelpLine(command, description)
    ensures FirstWord(HelpLine(command, description)) == command
  {
    assert HelpLine(command, description) == command + " " + ("- " + description);
    FirstWordBeforeBlank(command, "- " + description);
  }

  lemma HelpLayoutSplitsIntoLines(heading: string, c: seq<string>, d: seq<string>)
    requires |c| == 5 && |d| == 5 && '\n' !in heading
    requires forall k :: 0 <= k < 5 ==> ' ' !in c[k] && '\n' !in c[k] && '\n' !in d[k]
    ensures Split(HelpLayout(heading, c, d), '\n') ==
      [heading, HelpLine(c[0], d[0]), HelpLine(c[1], d[1]), HelpLine(c[2], d[2]), HelpLine(c[3], d[3]), HelpLine(c[4], d[4])]
  {
    var ls := [heading, HelpLine(c[0], d[0]), HelpLine(c[1], d[1]), HelpLine(c[2], d[2]), HelpLine(c[3], d[3]), HelpLine(c[4], d[4])];
    JoinSix(ls[0], ls[1], ls[2], ls[3], ls[4], ls[5]);
    HelpLineCommand(c[0], d[0]);
    HelpLineCommand(c[1], d[1]);
    HelpLineCommand(c[2], d[2]);
    HelpLineCommand(c[3], d[3]);
    HelpLineCommand(c[4], d[4]);
    SplitJoin(ls, '\n');
  }

  /**
   Whatever the heading, commands and descriptions, a text laid out like the
   /help text lists exactly its five commands, provided no command holds a
   blank and no piece holds a line break.
   */
  lemma ListedCommandsOfHelpLayout(heading: string, c: seq<string>, d: seq<string>)
    requires |c| == 5 && |d| == 5 && '\n' !in heading
    requires forall k :: 0 <= k < 5 ==> ' ' !in c[k] && '\n' !in c[k] && '\n' !in d[k]
    ensures ListedCommands(HelpLayout(heading, c, d)) == c
  {
    HelpLayoutSplitsIntoLines(heading, c, d);
    HelpLineCommand(c[0], d[0]);
    HelpLineCommand(c[1], d[1]);
    HelpLineCommand(c[2], d[2]);
    HelpLineCommand(c[3], d[3]);
    HelpLineCommand(c[4], d[4]);
    ListedFromLines(HelpLayout(heading, c, d), heading,
      HelpLine(c[0], d[0]), HelpLine(c[1], d[1]), HelpLine(c[2], d[2]), HelpLine(c[3], d[3]), HelpLine(c[4], d[4]), c);
  }

  lemma ListedFromLines(text: string, l0: string, l1: string, l2: string, l3: string, l4: string, l5: string, c: seq<string>)
    requires Split(text, '\n') == [l0, l1, l2, l3, l4, l5] && |c| == 5
    requires FirstWord(l1) == c[0] && FirstWord(l2) == c[1] && FirstWord(l3) == c[2]
    requires FirstWord(l4) == c[3] && FirstWord(l5) == c[4]
    ensures ListedCommands(text) == c
  {
  }

  lemma DescriptionsAreSingleLines()
    ensures forall k :: 0 <= k < 5 ==> '\n' !in HelpDescriptions[k]
  {
    assert '\n' !in HelpDescriptions[0];
    assert '\n' !in HelpDescriptions[1];
    assert '\n' !in HelpDescriptions[2];
    assert '\n' !in HelpDescriptions[3];
    assert '\n' !in HelpDescriptions[4];
  }

  lemma HelpPiecesAreSingleLines()
    ensures '\n' !in HelpHeading
    ensures forall k :: 0 <= k < 5 ==> ' ' !in HelpCommands[k] && '\n' !in HelpCommands[k] && '\n' !in HelpDescriptions[k]
  {
    DescriptionsAreSingleLines();
  }

  /**
   The /help reply lists exactly the five commands /create_account,
   /fund_account, /check_balance, /list_tokens and /help, in that order;
   /start is not among them.
   */
  lemma HelpListsFiveCommands()
    ensures ListedCommands(Text(Help)) == HelpCommands
    ensures "/start" !in ListedCommands(Text(Help))
  {
    HelpPiecesAreSingleLines();
    ListedCommandsOfHelpLayout(HelpHeading, HelpCommands, HelpDescriptions);
    assert "/start" !in HelpCommands;
  }

  /**
   How a reader takes a balance reply apart: the text between the prefix and
   the suffix holds the key, then ": ", then the amount in decimal digits.
   */
  function ParseBalance(t: string): Option<(string, nat)>
  {
    if |t| < |BalancePrefix| + |BalanceSuffix| then None
    else if t[..|BalancePrefix|] != BalancePrefix || t[|t| - |BalanceSuffix|..] != BalanceSuffix then None
    else ParseKeyAndAmount(t[|BalancePrefix|..|t| - |BalanceSuffix|])
  }

  /** Splits "key: digits" at its last colon. */
  function ParseKeyAndAmount(middle: string): Option<(string, nat)>
  {
    if ':' !in middle then None
    else
      var i := LastIndexOf(middle, ':');
      var amount := middle[i + 1..];
      if |amount| >= 2 && amount[0] == ' ' && AllDigits(amount[1..]) then Some((middle[..i], ParseDecimal(amount[1..])))
      else None
  }

  lemma ParseBalanceUnwraps(middle: string)
    ensures ParseBalance(BalancePrefix + middle + BalanceSuffix) == ParseKeyAndAmount(middle)
  {
    var t := BalancePrefix + middle + BalanceSuffix;
    assert t[..|BalancePrefix|] == BalancePrefix;
    assert t[|t| - |BalanceSuffix|..] == BalanceSuffix;
    assert t[|BalancePrefix|..|t| - |BalanceSuffix|] == middle;
  }

  lemma ParseKeyAndAmountSplits(key: string, digits: string)
    requires 1 <= |digits| && AllDigits(digits)
    ensures ParseKeyAndAmount(key + ": " + digits) == Some((key, ParseDecimal(digits)))
  {
    var rest := [' '] + digits;
    forall k | 0 <= k < |digits|
      ensures digits[k] != ':'
    {
      assert IsDigit(digits[k]);
    }
    assert ':' !in rest;
    var middle := key + ": " + digits;
    assert middle == key + [':'] + rest;
    LastIndexOfSeparator(key, ':', rest);
    var amount := middle[|key| + 1..];
    assert amount == rest;
    assert amount[1..] == digits;
    assert middle[..|key|] == key;
  }

  /**
   A balance reply names the key that was looked up and the amount found,
   and both can be read back from the text whatever the key holds.
   */
  lemma BalanceTextRoundTrip(key: string, n: uint64)
    ensures ParseBalance(Text(Balance(key, n))) == Some((key, n))
  {
    assert Text(Balance(key, n)) == BalancePrefix + (key + ": " + Decimal(n)) + BalanceSuffix;
    BalanceOfKeyAndDigits(key, Decimal(n));
    DecimalRoundTrip(n);
  }

  /** A balance text built from a key and decimal digits reads back as that key and the digits' value. */
  lemma BalanceOfKeyAndDigits(key: string, digits: string)
    requires 1 <= |digits| && AllDigits(digits)
    ensures ParseBalance(BalancePrefix + (key + ": " + digits) + BalanceSuffix) == Some((key, ParseDecimal(digits)))
  {
    ParseBalanceUnwraps(key + ": " + digits);
    ParseKeyAndAmountSplits(key, digits);
  }

  /** The account reply carries the private key as hex digits that give back its bytes. */
  lemma AccountTextCarriesPrivateKey(a: Account)
    ensures var t := Text(AccountCreated(a)); var n := |AccountHeader(a)|;
      n <= |t| && t[..n] == AccountHeader(a) && |t[n..]| % 2 == 0 && AllHexDigits(t[n..]) && Unhex(t[n..]) == a.privateKey
  {
    var t := Text(AccountCreated(a));
    assert t[|AccountHeader(a)|..] == Hex(a.privateKey);
    HexRoundTrip(a.privateKey);
  }
}
