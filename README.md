# Call backtester model

`bot.py` is a Telegram bot that rates a channel of crypto "calls". Given a channel name, it reads the channel's history, newest first. In each message it looks for a Solana contract address: a base-58 token of 32 to 44 characters standing as a word of its own. It records every address it finds with the date of the message. Then it looks up each recorded address's entry price and its highest and lowest price over the next 12, 24 and 48 hours. It stores the median percentage moves (take profit and stop loss per horizon) and the number of calls under the channel's name, and answers later requests for the same channel from that store.

This project models that core in Dafny, one module per part:

- `Detector` (`detector.dfy`): `detect_ca_and_chain`. It is a model of the regular-expression search, with greedy repetition, backtracking and leftmost start. It is proved to return exactly the leftmost whole-word base-58 token.
- `Collector` (`collector.dfy`): the paging loop of `get_tp_sl`. It is written both as a specification function and as the imperative loops, which are proved to compute it. Proved about it: why it stops, the bound on the number of addresses, one entry per address, and that nothing older than the cutoff is recorded. The dictionary it ends with is shown to be the result of processing the messages it read, in order, across all pages. On that sequence, last write wins, every entry comes from a processed message, and on a history read newest first an address keeps its oldest mention.
- `Extremes` and `PriceRange` (`extremes.dfy`, `price_range.dfy`): the `max`/`min` reduction of `get_price_history`. The loop that builds `prices` is proved against `RangeOf`.
- `Median` (`median.dfy`): `calculate_median`. Sorting is insertion sort, proved to produce the ascending permutation, which is unique. The median is order-independent and lies between the minimum and the maximum. An empty list is the IndexError case.
- `Outcomes` (`outcomes.dfy`): the outcome loop, which skips "ethereum" calls and calls with entry price 0.0 and appends six percentage moves per other call. Also `calculate_tp_sl`.
- `Analysis` (`analysis.dfy`): `get_tp_sl` as a whole. `Analyze` is what a cache miss computes. `ChannelCache` is a class whose `data` map is the stored records, and `GetTpSl` returns a stored record on a hit and writes exactly one key on a successful miss.

The network services (`get_price`, the price-history request and `confirm_ca`) and the Telegram history are parameters: oracle functions and a sequence of pages. `basics.dfy` holds `Option` and `Result`.

The model follows the code, including three behaviours that are easy to misread:

- A repeated address keeps the chain and timestamp of its last-processed mention (`Collector.CollectLastWins`). That is the oldest one, since history is read newest first (`Collector.CollectKeepsOldest`). It keeps its place in the insertion order from its first mention (`Collector.Store`, `Collector.ScanPrefixGrows`).
- A message dated exactly at the cutoff is processed, because the comparison is strict `<` (`Collector.CutoffIsStrict`).
- A failed range request gives a move of −100 percent instead of being left out (`Outcomes.FailedFetchIsMinusHundred`).

## Model

| member | source | states |
|---|---|---|
| `Detector.MatchLengthUnique` | bot.py:304 | At one start position the pattern `\b[base-58]{32,44}\b` matches at most one length, so the order in which the engine tries lengths cannot change the match. |
| `Detector.MatchIsWholeWord` | bot.py:304 | A match is exactly a whole word (no word character on either side) of 32 to 44 base-58 characters, in both directions. |
| `Detector.Run` | bot.py:304 | Greedy repetition: the number of base-58 characters from a position, capped at 44. All of them are base-58, and the next character is not base-58 unless the cap was reached. |
| `Detector.Backtrack` | bot.py:304 | Backtracking returns the longest length of at least 32 that is followed by `\b`, and none when no such length exists. |
| `Detector.MatchAt` | bot.py:304-305 | The engine's attempt at one start returns a length exactly when the pattern matches there. |
| `Detector.SearchFrom` | bot.py:305 | Trying starts from left to right finds a match with no match between the first start and it, and finds none only when no match exists from there on. |
| `Detector.Search` | bot.py:305 | `re.search` returns nothing exactly when the text has no match anywhere; otherwise it returns a match with no match to its left. |
| `Detector.SearchFindsLeftmost` | bot.py:305 | Conversely, any match with no match to its left is the one `re.search` returns. |
| `Detector.NoLookalikes` | bot.py:304 | The character class leaves out `0`, `O`, `I` and `l`. |
| `Detector.DetectNoneIffNoMatch` | bot.py:305-309 | `detect_ca_and_chain` returns None exactly when the text holds no match. |
| `Detector.DetectLeftmost` | bot.py:305-306 | Otherwise the address is the text of the leftmost match. |
| `Detector.DetectShape` | bot.py:306 | A detection is on chain "solana". Its address is 32 to 44 base-58 characters and holds none of `0`, `O`, `I`, `l`. |
| `Detector.EvmAddressNotDetected` | bot.py:303-309 | A message that is only an EVM address `0x…` yields no detection. The hex pattern is never searched, and the base-58 pattern cannot match a word starting with `0`. |
| `Detector.Base58WinsOverEvm` | bot.py:303-308 | For a text made of an EVM address, a space, and a base-58 token that ends the text, the token is reported, on chain "solana". |
| `Extremes.MaxOf` | bot.py:289 | `max(prices)` is an element of the list that no element exceeds. |
| `Extremes.MinOf` | bot.py:289 | `min(prices)` is an element of the list that exceeds no element. |
| `PriceRange.RangeOf` | bot.py:284-291 | For a response whose items all have a value and which is not empty, the pair is (max, min) of the values: both are values and they bound every value. Otherwise it is (0.0, 0.0). In every case high ≥ low. |
| `PriceRange.GetPriceHistory` | bot.py:284-291 | The loop that appends each item's value and then takes max and min returns `RangeOf` of the response. A missing `value` key or an empty list gives (0.0, 0.0). |
| `Median.InsertSorted` | bot.py:338 | Inserting into an ascending list keeps it ascending and adds exactly the new element. |
| `Median.SortSorted` | bot.py:338 | `sorted(prices)` is ascending and a permutation of the input. |
| `Median.SortedUnique` | bot.py:338 | Two ascending lists with the same elements are equal, so the sorted list is determined by the multiset of prices. |
| `Median.SortIsIdentityOnAscending` | bot.py:338 | Sorting an ascending list returns it unchanged. |
| `Median.CalculateMedian` | bot.py:338-345 | The result is missing (the IndexError of `sorted_prices[-1]` on an empty list) exactly when the list is empty. |
| `Median.MedianWithinRange` | bot.py:338-345 | On a non-empty list, the median lies between the minimum and the maximum. |
| `Median.MedianOrderIndependent` | bot.py:338-345 | Lists with the same elements in any order have the same median. |
| `Median.MedianOfOddCountIsAValue` | bot.py:343-344 | For an odd count, the median is one of the values. |
| `Median.MedianOfAscending` | bot.py:340-344 | On an ascending list, the median is `s[n/2]` for odd n and `(s[n/2-1] + s[n/2]) / 2` for even n. |
| `Median.MedianOddExample` | bot.py:338-345 | The median of [1, 2, 3] is 2. |
| `Median.MedianEvenExample` | bot.py:338-345 | The median of [1, 2, 3, 4] is 2.5. |
| `Median.MedianOfThreeCallsExample` | bot.py:338-345 | The median of the unsorted list [20, −10, 40] is 20. |
| `Collector.Store` | bot.py:143-147 | `founded_cas[address] = …` keeps the dictionary well formed and stores the new entry. Every other address keeps its presence and entry. A new address goes at the end of the insertion order, and an existing one keeps its place. |
| `Collector.Sighting` | bot.py:136-147 | A message without text contributes nothing. A recorded entry carries the message's date as its timestamp. |
| `Collector.ScanPrefixGrows` | bot.py:128-147 | Processing messages keeps the dictionary well formed, only extends the insertion order, and adds at most one address per message. |
| `Collector.ScanMessageKeeps` | bot.py:143-147 | A message that names no address, or another address, leaves an address's entry unchanged. |
| `Collector.ScanMessageStores` | bot.py:143-147 | A message that names an address overwrites that address's entry with its own. |
| `Collector.ScanPrefixLastWins` | bot.py:143-147 | Last write wins: an address's entry comes from the last processed message that named it. |
| `Collector.ScanPrefixProvenance` | bot.py:136-147 | Every entry after processing was there before, or is the sighting of one of the processed messages. |
| `Collector.CutoffFrom` | bot.py:128-134 | The inner loop processes the messages before the first one dated strictly before the cutoff. All processed messages are at or after the cutoff, and the one it stops at is older. |
| `Collector.CutoffIsStrict` | bot.py:131 | A message dated exactly at the cutoff, with no older message before it on its page, is processed. |
| `Collector.CutoffChecksAgree` | bot.py:131-154 | On a page ordered newest first, "the last message is older than the cutoff" holds exactly when the inner loop stopped early. So the two age checks agree. |
| `Collector.CollectFrom` | bot.py:105-154 | The collection loop reads between the starting page and the last page. |
| `Collector.CollectStopReasons` | bot.py:117-154 | The loop stops on an empty or missing page, or on more than 200 addresses before a page, or after a page whose last message is older than the cutoff. |
| `Collector.CollectPagesBeforeStop` | bot.py:151-154 | Every page read before the final one was non-empty and ended with a message not older than the cutoff. |
| `Collector.CollectValid` | bot.py:143-147 | The collected dictionary is well formed: one entry per address, stored under its own address. |
| `Collector.CollectBound` | bot.py:106-125 | The limit is checked only before a page. With pages of at most 100 messages, starting at or under 300 addresses, the loop ends with at most 200 + 100. |
| `Collector.CollectCallsBound` | bot.py:123-125 | The collected calls number at most 300 when every page holds at most 100 messages. |
| `Collector.ScanPrefixDates` | bot.py:131-147 | Processing messages dated at or after the cutoff records only such timestamps. |
| `Collector.CollectDates` | bot.py:128-154 | Every collected call's timestamp is at or after the cutoff. |
| `Collector.NoCallsValid` | bot.py:97 | `founded_cas = {}` is well formed. |
| `Collector.ScanPrefixAgree` | bot.py:128-147 | Processing depends only on the messages processed. |
| `Collector.ScanAppendPrefix` | bot.py:128-147 | Processing a concatenation up to a point inside its second part is processing the first part, then that prefix of the second. |
| `Collector.ScanAllAppend` | bot.py:105-147 | Processing the messages of one page and then the next is processing their concatenation. |
| `Collector.Kept` | bot.py:128-134 | The messages of a page the inner loop processes are a prefix of the page, all at or after the cutoff. |
| `Collector.ProcessedFirst` | bot.py:105-154 | The messages processed over a run of pages start with those of its first page. |
| `Collector.CollectProcesses` | bot.py:105-154 | The dictionary the paging loop ends with is the initial one after every processed message of every page read, in order. |
| `Collector.CollectLastWins` | bot.py:105-154 | Across pages, an address's collected entry is the sighting of the last processed message that named it. |
| `Collector.CollectProvenance` | bot.py:105-154 | Every collected entry is the sighting of a message the loop processed. |
| `Collector.ScanPrefixOldest` | bot.py:143-147 | On messages processed newest first, a newly recorded address ends with the date of its oldest mention. |
| `Collector.CollectKeepsOldest` | bot.py:105-154 | When the history is read newest first, a repeated address keeps the date of its oldest processed mention. |
| `Collector.ProcessMessage` | bot.py:136-147 | The body of the inner loop computes one step of the specification. |
| `Collector.ProcessPage` | bot.py:128-147 | The inner `for` loop with its `break` processes exactly the messages before the first older one. |
| `Collector.CollectCalls` | bot.py:105-154 | The `while True` loop returns the dictionary and the stop reason of the specification `Collect`. |
| `Outcomes.Contributions` | bot.py:167-196 | Each call contributes at most one excursion. |
| `Outcomes.TallyColumns` | bot.py:191-196 | The six lists have equal length, one entry per contributing call, and entry i of each list is the matching move of the i-th contributing call. |
| `Outcomes.TallyStep` | bot.py:191-196 | Appending an excursion appends one move to each of the six lists. |
| `Outcomes.MeasureCall` | bot.py:183-196 | The three range requests and the six percentage moves of a priced call. |
| `Outcomes.RecordCall` | bot.py:174-196 | The loop body leaves the lists unchanged for a skipped call and appends the call's moves otherwise. |
| `Outcomes.ComputeOutcomes` | bot.py:167-204 | The outcome loop builds the six lists from the contributions of the calls, in insertion order. |
| `Outcomes.EthereumSkipped` | bot.py:174-175 | A call on chain "ethereum" contributes nothing, whatever the prices. |
| `Outcomes.ZeroPriceSkipped` | bot.py:180-181 | A call whose entry price is the 0.0 sentinel contributes nothing. |
| `Outcomes.PricedCallCounted` | bot.py:181-196 | Any other call contributes exactly one excursion. |
| `Outcomes.ZeroIsMinusHundred` | bot.py:191-196 | A price of 0.0 is a move of −100 percent. |
| `Outcomes.FailedFetchIsMinusHundred` | bot.py:183-192 | A failed 12-hour range request still contributes a sample: both 12-hour moves are −100, not omitted. |
| `Outcomes.PctChangeMonotone` | bot.py:191-196 | With a positive entry price, a higher price is a larger move. |
| `Outcomes.HighMoveAtLeastLowMove` | bot.py:183-196 | With a positive entry price, each horizon's high move is at least its low move. |
| `Outcomes.TpSlInvertsMove` | bot.py:347-350 | `calculate_tp_sl`, given a move as a fraction (percentage / 100), returns the prices the move was measured to. |
| `Analysis.DistinctCount` | bot.py:143-147 | Addresses in the insertion order are distinct, so there are as many as the order is long. |
| `Analysis.ValuesCount` | bot.py:167 | `founded_cas.values()` yields one call per key. |
| `Analysis.ThreeCallsTakeProfitExample` | bot.py:191-212 | Entry prices 10, 20, 5 with 12-hour highs 12, 18, 7 move by 20, −10 and 40 percent, and their median is 20. |
| `Analysis.TokenDetected` | bot.py:303-309 | A message that is a single 32-character base-58 token is detected whole, on chain "solana". |
| `Analysis.OnePageCollected` | bot.py:105-154 | A history of one non-empty page whose last message is not older than the cutoff yields the dictionary of that page's messages up to the cutoff, processed in order. |
| `Analysis.ThreeCallScan` | bot.py:128-147 | One page of three distinct 32-character tokens dated 3, 2, 1, cutoff 0, with `confirm_ca` returning its input: all three messages are processed and the three addresses are stored on "solana" with their message dates, in message order. |
| `Analysis.ThreeCallsCollected` | bot.py:105-167 | For that page, `founded_cas.values()` after the collection loop is the three calls, newest first. |
| `Analysis.ThreeCallContributions` | bot.py:167-196 | With entry prices 10, 20, 5 and 12-hour series 12, 18, 7, each of the three calls contributes, and the 12-hour high moves are 20, −10 and 40. |
| `Analysis.AnalyzeStoresMedian` | bot.py:207-220 | When some call contributes, the analysis succeeds, stores as the 12-hour take profit the median of the contributions' 12-hour high moves, and counts every collected call. |
| `Analysis.ThreeCallsStoreTakeProfit` | bot.py:96-223 | End to end, for any three such tokens and oracles giving those prices, the channel's analysis succeeds, stores 20 as the 12-hour take profit, and counts 3 calls. |
| `Analysis.AlphaStoresTakeProfit` | bot.py:96-223 | The same, for the tokens of all `A`, all `B` and all `C` and concrete oracles, so the scenario's requirements can be met. |
| `Analysis.CollectedCalls` | bot.py:167 | The calls the outcome loop visits number `len(founded_cas)`. |
| `Analysis.Analyze` | bot.py:96-223 | A missing channel or a failing history request fails (`get_entity` or `GetHistoryRequest` raises). Otherwise the analysis fails (IndexError in `calculate_median`) exactly when no call contributes a sample. On success, `calls` is `len(founded_cas)`, counting skipped calls too, and is at least the number of samples. |
| `Analysis.AnalyzeMediansInRange` | bot.py:207-212 | Each stored take-profit and stop-loss median lies between the smallest and largest move of its list. |
| `Analysis.ChannelCache.constructor` | bot.py:93 | The cache starts with the stored records. |
| `Analysis.ChannelCache.GetTpSl` | bot.py:93-241 | On a hit, it returns the stored record and changes nothing. On a miss, it returns `Analyze` of the channel's history and, on success, sets only the channel's key. A failure changes nothing. |
| `Analysis.RepeatedScan` | bot.py:96-241 | After a successful request, a second request for the same channel returns the same record, whatever history it would see, and stores nothing more. |

## Left out

- The Telegram bot (`handle_scan`, `main`, the application set-up, reply formatting and rounding): this is user interface and asynchronous I/O.
- The Telethon client and `GetHistoryRequest` are replaced by the sequence of pages the requests return. `offset_id` bookkeeping is implied by page order, and a request past the last page returns no messages. `None` stands for a channel that cannot be resolved (bot.py:101) and also for a history request that raises on any page (bot.py:106-115, outside any `try`: a private channel, a flood wait, a network error). Either way `get_tp_sl` raises and nothing is cached, as in `Analysis.ChannelCache.GetTpSl` on `Failure`.
- `get_price`, `confirm_ca` and the request half of `get_price_history` are oracle function parameters. A `null` price is treated like the 0.0 sentinel, which `if initial:` also skips. Item values are numbers in the model; a non-numeric item value is not modelled (see the outcome-loop line below).
- `load_data`, `save_data` and `create_calculation_file`: the store is the in-memory map of `ChannelCache`, and file errors are not modelled.
- `log` and the text of the calculation log: they are diagnostics only. The stop reason is returned instead of logged.
- `date_limit` (one year before start-up) is a parameter. Message dates are integer seconds.
- `HorizonEnd`: a horizon end is `t + hours * 3600`. The code adds the hours in local time, so around a daylight-saving change the real end can differ by an hour.
- Floating-point rounding and overflow: prices and moves are reals.
- `\b` and `\w` are ASCII only. Python's `str` patterns also count non-ASCII letters and digits as word characters, so a token touching such a character matches here but not in Python.
- The `try`/`except` around each message (bot.py:129-149) and around each call (bot.py:168-204) catches nothing in the model, because detection, confirmation and the oracles are total, item values are numbers, and the only division is guarded by `if initial:`. The source has these exception paths, which the model therefore omits:
  - An item `value` that is `null` or a string. Values of types that cannot be compared make `max` raise, and `get_price_history` returns (0.0, 0.0). A single such value, or values that compare among themselves (all strings), is returned as the high or low. The subtraction at bot.py:191-196 then raises, and `except: pass` skips the rest of that call. The moves appended before the failing subtraction stay (for a bad 48-hour range, the four 12-hour and 24-hour moves; for a bad 12-hour low, the 12-hour high move), so the six lists end with different lengths.
  - `datetime.fromtimestamp` failing on an out-of-range timestamp (bot.py:184-188): the source skips the call; the model always measures it.
- `Outcomes.TallyColumns`: the six lists have equal length only because the model has none of the exception paths above; in the source a call that raises between two appends leaves them unequal.
- `Analysis.Analyze`: "fails exactly when no call contributes a sample" relies on the equal lengths above; in the source an empty 24-hour or 48-hour list with a non-empty 12-hour list also raises, at `calculate_median` (bot.py:207-212).
- Concurrency: two overlapping requests for the same channel are not modelled.
