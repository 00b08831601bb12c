/**
  The contract-address detector, `detect_ca_and_chain` in bot.py.

  The function searches the message text with the regular expression
  `\b[A-HJ-NP-Za-km-z1-9]{32,44}\b` (a base-58 token of 32 to 44 characters
  between word boundaries) and reports the leftmost match as a Solana
  address. The hex pattern for EVM addresses is declared next to it but is
  never searched for.

  `SolanaMatch` states what the regular expression matches; `MatchAt` and
  `Search` model the regex engine (greedy repetition, then backtracking,
  tried at each start position from the left) and are proved to find
  exactly the leftmost match.
*/
module Detector {
  import opened Basics

  const MinLen := 32
  const MaxLen := 44
  const Solana := "solana"

  /** `\w` on ASCII text: letters, digits and the underscore. */
  predicate IsWordChar(c: char) {
    ('a' <= c <= 'z') || ('A' <= c <= 'Z') || ('0' <= c <= '9') || c == '_'
  }

  /** The character class `[A-HJ-NP-Za-km-z1-9]`. */
  predicate IsBase58(c: char) {
    ('A' <= c <= 'H') || ('J' <= c <= 'N') || ('P' <= c <= 'Z')
    || ('a' <= c <= 'k') || ('m' <= c <= 'z') || ('1' <= c <= '9')
  }

  predicate AllBase58(s: string) {
    forall j :: 0 <= j < |s| ==> IsBase58(s[j])
  }

  /** Every character of `text` from position `i` up to (not including) `e` is base-58. */
  predicate Base58Between(text: string, i: nat, e: nat)
    requires i <= e <= |text|
  {
    forall j :: i <= j < e ==> IsBase58(text[j])
  }

  /** `\b` at position `i`: exactly one of the characters around `i` is a word character. */
  predicate Boundary(text: string, i: nat)
    requires i <= |text|
  {
    (0 < i && IsWordChar(text[i - 1])) != (i < |text| && IsWordChar(text[i]))
  }

  /** The Solana pattern matches the `k` characters of `text` starting at `i`. */
  ghost predicate SolanaMatch(text: string, i: nat, k: nat) {
    && MinLen <= k <= MaxLen
    && i + k <= |text|
    && Boundary(text, i)
    && Base58Between(text, i, i + k)
    && Boundary(text, i + k)
  }

  /** At a given start the pattern can match at most one length, so the
      order in which the engine tries lengths does not change the result. */
  lemma MatchLengthUnique(text: string, i: nat, k1: nat, k2: nat)
    requires SolanaMatch(text, i, k1) && SolanaMatch(text, i, k2)
    ensures k1 == k2
  {
  }

  /** A match is exactly one whole word: it starts and ends at the edges of a
      maximal run of word characters, and that run is base-58 and 32 to 44
      long; and every such word is a match. */
  lemma MatchIsWholeWord(text: string, i: nat, k: nat)
    requires MinLen <= k <= MaxLen && i + k <= |text|
    ensures SolanaMatch(text, i, k) <==>
      && (i == 0 || !IsWordChar(text[i - 1]))
      && Base58Between(text, i, i + k)
      && (i + k == |text| || !IsWordChar(text[i + k]))
  {
  }

  /** Greedy repetition: the number of base-58 characters from `i` on, at most `cap`. */
  function Run(text: string, i: nat, cap: nat): (r: nat)
    requires i <= |text|
    ensures i + r <= |text| && r <= cap
    ensures Base58Between(text, i, i + r)
    ensures r < cap && i + r < |text| ==> !IsBase58(text[i + r])
    decreases cap
  {
    if cap == 0 || i == |text| || !IsBase58(text[i]) then 0
    else 1 + Run(text, i + 1, cap - 1)
  }

  /** Backtracking: give back one character at a time until `\b` follows or
      fewer than 32 remain. */
  function Backtrack(text: string, i: nat, k: nat): (r: Option<nat>)
    requires i + k <= |text|
    ensures r.Some? ==> MinLen <= r.value <= k && Boundary(text, i + r.value)
    ensures r.Some? ==> forall j: nat :: i + r.value < j <= i + k ==> !Boundary(text, j)
    ensures r.None? ==> forall j: nat :: i + MinLen <= j <= i + k ==> !Boundary(text, j)
    decreases k
  {
    if k < MinLen then None
    else if Boundary(text, i + k) then Some(k)
    else Backtrack(text, i, k - 1)
  }

  /** One attempt of the engine at start position `i`: the length matched there, if any. */
  function MatchAt(text: string, i: nat): (r: Option<nat>)
    requires i <= |text|
    ensures r.Some? ==> SolanaMatch(text, i, r.value)
    ensures r.None? ==> forall k: nat :: !SolanaMatch(text, i, k)
  {
    if !Boundary(text, i) then None
    else
      Backtrack(text, i, Run(text, i, MaxLen))
  }

  /** The span of a match in the text. */
  datatype Span = Span(start: nat, len: nat)

  /** `re.search` from position `i` on: try every start position, leftmost first. */
  function SearchFrom(text: string, i: nat): (r: Option<Span>)
    requires i <= |text|
    ensures r.Some? ==> i <= r.value.start && SolanaMatch(text, r.value.start, r.value.len)
    ensures r.Some? ==> forall j: nat, k: nat :: i <= j < r.value.start ==> !SolanaMatch(text, j, k)
    ensures r.None? ==> forall j: nat, k: nat :: i <= j ==> !SolanaMatch(text, j, k)
    decreases |text| - i
  {
    match MatchAt(text, i)
    case Some(k) => Some(Span(i, k))
    case None => if i == |text| then None else SearchFrom(text, i + 1)
  }

  /** `re.search(sol_ca_pattern, text)`: the leftmost match of the pattern. */
  function Search(text: string): (r: Option<Span>)
    ensures r.None? <==> forall j: nat, k: nat :: !SolanaMatch(text, j, k)
    ensures r.Some? ==> SolanaMatch(text, r.value.start, r.value.len)
    ensures r.Some? ==> forall j: nat, k: nat :: j < r.value.start ==> !SolanaMatch(text, j, k)
  {
    SearchFrom(text, 0)
  }

  /** A detected contract address and the chain it is taken to belong to. */
  datatype Detection = Detection(address: string, chain: string)

  /** The base-58 alphabet leaves out the look-alike characters `0`, `O`, `I` and `l`. */
  lemma NoLookalikes(s: string)
    requires AllBase58(s)
    ensures '0' !in s && 'O' !in s && 'I' !in s && 'l' !in s
  {
  }

  /** `detect_ca_and_chain`: the leftmost Solana-pattern match, reported on chain "solana". */
  function DetectCaAndChain(text: string): Option<Detection> {
    match Search(text)
    case None => None
    case Some(span) => Some(Detection(text[span.start..span.start + span.len], Solana))
  }

  /** `detect_ca_and_chain` returns nothing exactly when the text holds no match. */
  lemma DetectNoneIffNoMatch(text: string)
    ensures DetectCaAndChain(text).None? <==> forall j: nat, k: nat :: !SolanaMatch(text, j, k)
  {
    var r := Search(text);
  }

  /** Otherwise it returns the text of the leftmost match. */
  lemma DetectLeftmost(text: string)
    ensures var r := DetectCaAndChain(text);
      r.Some? ==> exists i: nat, k: nat :: && SolanaMatch(text, i, k)
                                   && r.value.address == text[i..i + k]
                                   && forall j: nat, k': nat :: j < i ==> !SolanaMatch(text, j, k')
  {
    match Search(text)
    case None =>
    case Some(span) =>
      assert SolanaMatch(text, span.start, span.len);
  }

  /** What it returns is on chain "solana" and is 32 to 44 base-58
      characters, so it holds none of `0`, `O`, `I` and `l`. */
  lemma DetectShape(text: string)
    ensures var r := DetectCaAndChain(text);
      && (r.Some? ==> r.value.chain == Solana)
      && (r.Some? ==> MinLen <= |r.value.address| <= MaxLen && AllBase58(r.value.address))
      && (r.Some? ==> '0' !in r.value.address && 'O' !in r.value.address
                      && 'I' !in r.value.address && 'l' !in r.value.address)
  {
    match Search(text)
    case None =>
    case Some(span) =>
      var address := text[span.start..span.start + span.len];
      assert forall j :: 0 <= j < |address| ==> address[j] == text[span.start + j];
      NoLookalikes(address);
  }

  /** An EVM address token, the shape of `\b0x[a-fA-F0-9]{40}\b` alone. */
  predicate IsHexDigit(c: char) {
    ('0' <= c <= '9') || ('a' <= c <= 'f') || ('A' <= c <= 'F')
  }

  predicate IsEvmAddress(s: string) {
    |s| == 42 && s[0] == '0' && s[1] == 'x' && forall j :: 2 <= j < |s| ==> IsHexDigit(s[j])
  }

  /** A message holding only an EVM address yields no detection: the hex
      pattern is never searched and the base-58 pattern cannot start at `0`. */
  lemma EvmAddressNotDetected(s: string)
    requires IsEvmAddress(s)
    ensures DetectCaAndChain(s) == None
  {
    DetectNoneIffNoMatch(s);
  }

  /** No match can start inside an EVM address followed by a space. */
  lemma NoMatchWithinEvm(text: string, evm: string, i: nat, k: nat)
    requires IsEvmAddress(evm) && |evm| < |text| && text[..|evm|] == evm && text[|evm|] == ' '
    requires i <= |evm|
    ensures !SolanaMatch(text, i, k)
  {
    if i == 0 {
      assert text[0] == evm[0];
    } else if i < |evm| {
      assert text[i - 1] == evm[i - 1] && text[i] == evm[i];
    }
  }

  /** A base-58 token standing after a space and at the end of the text matches. */
  lemma TokenAtEndMatches(text: string, start: nat, token: string)
    requires 0 < start && start + |token| == |text| && text[start..] == token && text[start - 1] == ' '
    requires MinLen <= |token| <= MaxLen && AllBase58(token)
    ensures SolanaMatch(text, start, |token|)
  {
    assert forall j :: start <= j < |text| ==> text[j] == token[j - start];
  }

  /** A match with no match to its left is what `Search` returns. */
  lemma SearchFindsLeftmost(text: string, start: nat, len: nat)
    requires SolanaMatch(text, start, len)
    requires forall j: nat, k: nat :: j < start ==> !SolanaMatch(text, j, k)
    ensures Search(text) == Some(Span(start, len))
  {
    var r := Search(text);
    assert r.value.start == start;
    MatchLengthUnique(text, start, r.value.len, len);
  }

  /** With an EVM address first and a base-58 token after it, the base-58
      token is what is reported, on chain "solana". */
  lemma Base58WinsOverEvm(evm: string, token: string)
    requires IsEvmAddress(evm)
    requires MinLen <= |token| <= MaxLen && AllBase58(token)
    ensures DetectCaAndChain(evm + " " + token) == Some(Detection(token, Solana))
  {
    var text := evm + " " + token;
    var start := |evm| + 1;
    assert text[..|evm|] == evm && text[start..] == token && text[|evm|] == ' ';
    TokenAtEndMatches(text, start, token);
    forall j: nat, k: nat | j < start ensures !SolanaMatch(text, j, k) {
      NoMatchWithinEvm(text, evm, j, k);
    }
    SearchFindsLeftmost(text, start, |token|);
    assert text[start..start + |token|] == token;
  }
}
