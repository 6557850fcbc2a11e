/**
 * Input validation for wallet addresses, Telegram usernames and usage
 * limits. Each validator answers a validity flag and a message that is
 * empty exactly when the input is valid.
 */
module Validators {
  import opened Text

  datatype Validation = Validation(isValid: bool, message: string)

  const EmptyAddressMessage := "Wallet address cannot be empty"
  const AddressLengthMessage := "Invalid wallet address length"
  const AddressFormatMessage := "Invalid wallet address format. Please provide a valid cryptocurrency address."
  const EmptyUsernameMessage := "Username cannot be empty"
  const UsernameLengthMessage := "Username must be 5-32 characters long"
  const UsernameCharsMessage := "Username can only contain letters, numbers, and underscores"

  /** Bounds `validate_limit` applies when the caller gives none. */
  const DefaultMinLimit := 1
  const DefaultMaxLimit := 10000

  // Character classes of the regular expressions

  predicate IsAsciiLetter(c: char) {
    'a' <= c <= 'z' || 'A' <= c <= 'Z'
  }

  predicate IsAsciiAlnum(c: char) {
    IsAsciiLetter(c) || IsAsciiDigit(c)
  }

  /** `[a-zA-Z0-9_]` */
  predicate IsWordChar(c: char) {
    IsAsciiAlnum(c) || c == '_'
  }

  /** `[a-km-zA-HJ-NP-Z1-9]`: the Base58 alphabet (no 0, O, I, l). */
  predicate IsBase58Char(c: char) {
    || 'a' <= c <= 'k' || 'm' <= c <= 'z'
    || 'A' <= c <= 'H' || 'J' <= c <= 'N' || 'P' <= c <= 'Z'
    || '1' <= c <= '9'
  }

  /** `[a-z0-9]` */
  predicate IsLowerAlnum(c: char) {
    'a' <= c <= 'z' || IsAsciiDigit(c)
  }

  /** `[a-fA-F0-9]` */
  predicate IsHexDigit(c: char) {
    'a' <= c <= 'f' || 'A' <= c <= 'F' || IsAsciiDigit(c)
  }

  predicate AllChars(s: string, p: char -> bool) {
    forall i :: 0 <= i < |s| ==> p(s[i])
  }

  /**
   * Python's `re.match(r'^B$', s)` for a pattern body B: the `$` anchor
   * matches at the end of the string and also just before a newline that
   * ends it.
   */
  predicate AnchoredMatch(s: string, body: string -> bool) {
    body(s) || (|s| > 0 && s[|s| - 1] == '\n' && body(s[..|s| - 1]))
  }

  // The pattern bodies of validate_wallet_address

  /** `[13][a-km-zA-HJ-NP-Z1-9]{25,34}` */
  predicate BtcLegacy(s: string) {
    26 <= |s| <= 35 && (s[0] == '1' || s[0] == '3') && AllChars(s[1..], IsBase58Char)
  }

  /** `bc1[a-z0-9]{39,59}` */
  predicate BtcSegwit(s: string) {
    42 <= |s| <= 62 && s[..3] == "bc1" && AllChars(s[3..], IsLowerAlnum)
  }

  /** `0x[a-fA-F0-9]{40}` */
  predicate Ethereum(s: string) {
    |s| == 42 && s[..2] == "0x" && AllChars(s[2..], IsHexDigit)
  }

  /** `[LM3][a-km-zA-HJ-NP-Z1-9]{26,33}` */
  predicate Litecoin(s: string) {
    27 <= |s| <= 34 && (s[0] == 'L' || s[0] == 'M' || s[0] == '3') && AllChars(s[1..], IsBase58Char)
  }

  /** `[a-zA-Z0-9]{26,90}` */
  predicate GenericAddress(s: string) {
    26 <= |s| <= 90 && AllChars(s, IsAsciiAlnum)
  }

  /** The pattern disjunction of validate_wallet_address, each tried with `re.match`. */
  predicate MatchesAddressPattern(s: string) {
    || AnchoredMatch(s, BtcLegacy) || AnchoredMatch(s, BtcSegwit)
    || AnchoredMatch(s, Ethereum) || AnchoredMatch(s, Litecoin)
    || AnchoredMatch(s, GenericAddress)
  }

  /** validate_wallet_address */
  function ValidateWalletAddress(address: string): (r: Validation)
    ensures r.isValid <==> r.message == ""
  {
    if address == "" then Validation(false, EmptyAddressMessage)
    else
      var s := Strip(address);
      if |s| < 26 || |s| > 90 then Validation(false, AddressLengthMessage)
      else if MatchesAddressPattern(s) then Validation(true, "")
      else Validation(false, AddressFormatMessage)
  }

  /** Every specific address pattern only accepts ASCII letters and digits. */
  lemma PatternsAreAlphanumeric(s: string)
    requires BtcLegacy(s) || BtcSegwit(s) || Ethereum(s) || Litecoin(s)
    ensures GenericAddress(s)
  {
    forall i | 0 <= i < |s| ensures IsAsciiAlnum(s[i]) {
      if BtcLegacy(s) || Litecoin(s) {
        if i > 0 { assert s[1..][i - 1] == s[i]; }
      } else if BtcSegwit(s) {
        if i < 3 { assert s[..3][i] == s[i]; } else { assert s[3..][i - 3] == s[i]; }
      } else {
        if i < 2 { assert s[..2][i] == s[i]; } else { assert s[2..][i - 2] == s[i]; }
      }
    }
  }

  /** On a string that does not end in a newline the disjunction is the generic pattern alone. */
  lemma AddressPatternIsGeneric(s: string)
    requires s == [] || s[|s| - 1] != '\n'
    ensures MatchesAddressPattern(s) <==> GenericAddress(s)
  {
    if BtcLegacy(s) || BtcSegwit(s) || Ethereum(s) || Litecoin(s) {
      PatternsAreAlphanumeric(s);
    }
  }

  /**
   * The five-way pattern disjunction collapses: an address is valid exactly
   * when, once stripped, it is 26 to 90 ASCII letters and digits.
   */
  lemma WalletAddressValidIff(address: string)
    ensures var s := Strip(address);
      ValidateWalletAddress(address).isValid <==> 26 <= |s| <= 90 && AllChars(s, IsAsciiAlnum)
  {
    var s := Strip(address);
    StripShape(address);
    AddressPatternIsGeneric(s);
  }

  /** Empty input and whitespace-only input are both rejected, each with its own message. */
  lemma WalletAddressEmptyOrBlank(address: string)
    requires forall i :: 0 <= i < |address| ==> IsSpace(address[i])
    ensures address == "" ==> ValidateWalletAddress(address) == Validation(false, EmptyAddressMessage)
    ensures address != "" ==> ValidateWalletAddress(address) == Validation(false, AddressLengthMessage)
  {
    TrimStartShape(address, IsSpace);
  }

  /** `[a-zA-Z0-9_]+` */
  predicate WordRun(s: string) {
    |s| >= 1 && AllChars(s, IsWordChar)
  }

  /**
   * validate_telegram_username as written: the final test is
   * `re.match(r'^[a-zA-Z0-9_]+$', u)`, whose `$` also matches before a
   * trailing newline.
   */
  function ValidateTelegramUsernameAsWritten(username: string): (r: Validation)
    ensures r.isValid <==> r.message == ""
  {
    if username == "" then Validation(false, EmptyUsernameMessage)
    else
      var u := LStripChar(username, '@');
      if |u| < 5 || |u| > 32 then Validation(false, UsernameLengthMessage)
      else if !AnchoredMatch(u, WordRun) then Validation(false, UsernameCharsMessage)
      else Validation(true, "")
  }

  /** validate_telegram_username with the whole name required to match the character class. */
  function ValidateTelegramUsername(username: string): (r: Validation)
    ensures r.isValid <==> r.message == ""
  {
    if username == "" then Validation(false, EmptyUsernameMessage)
    else
      var u := LStripChar(username, '@');
      if |u| < 5 || |u| > 32 then Validation(false, UsernameLengthMessage)
      else if !WordRun(u) then Validation(false, UsernameCharsMessage)
      else Validation(true, "")
  }

  /** Leading '@'s aside, a username is valid iff it is 5 to 32 characters of `[A-Za-z0-9_]`. */
  lemma TelegramUsernameValidIff(username: string)
    ensures var u := LStripChar(username, '@');
      ValidateTelegramUsername(username).isValid <==> 5 <= |u| <= 32 && AllChars(u, IsWordChar)
  {
  }

  /** The source's version accepts a name followed by a newline, which no Telegram name contains. */
  lemma TrailingNewlineAccepted()
    ensures ValidateTelegramUsernameAsWritten("alice\n").isValid
    ensures !ValidateTelegramUsername("alice\n").isValid
  {
    assert LStripChar("alice\n", '@') == "alice\n";
    assert "alice\n"[..5] == "alice";
    assert !IsWordChar("alice\n"[5]);
  }

  /** Without a newline in the input the two versions agree. */
  lemma UsernameVersionsAgree(username: string)
    requires forall i :: 0 <= i < |username| ==> username[i] != '\n'
    ensures ValidateTelegramUsernameAsWritten(username) == ValidateTelegramUsername(username)
  {
    var u := LStripChar(username, '@');
    TrimStartShape(username, c => c == '@');
    if |u| > 0 {
      assert u[|u| - 1] == username[|username| - 1];
    }
  }

  /** validate_limit */
  function ValidateLimit(limit: int, minVal: int, maxVal: int): (r: Validation)
    ensures r.isValid <==> minVal <= limit <= maxVal
    ensures r.isValid <==> r.message == ""
  {
    if limit < minVal || limit > maxVal then
      Validation(false, "Limit must be between " + IntToString(minVal) + " and " + IntToString(maxVal))
    else Validation(true, "")
  }
}
