/**
  The call collector, the `while True` loop at the start of `get_tp_sl` in
  bot.py. It reads the channel history page by page, newest messages first,
  detects a contract address in each message's text, confirms it, and
  records it in the `founded_cas` dictionary under the confirmed address.

  The loop stops when a page comes back empty, when more than 200 addresses
  have been recorded (checked before each page), or when the last message of
  a page is older than the age cutoff. Inside a page, the first message
  older than the cutoff ends the page.

  `CollectFrom` is the specification of the loop as a function;
  `CollectCalls` is the loop itself and is proved to compute it.
*/
module Collector {
  import opened Basics
  import opened Detector

  /** `address_limit` */
  const AddressLimit := 200
  /** The `limit` of each history request. */
  const PageSize := 100

  /** A channel message: its id, its date in seconds since the epoch, and
      its text ("" when the message has none). */
  datatype Message = Message(id: int, date: int, text: string)

  /** One entry of `founded_cas`: {address, chain, timestamp}. */
  datatype Call = Call(address: string, chain: string, timestamp: int)

  /** `confirm_ca`: the pair-lookup service, or the unchanged pair when it fails. */
  type Confirm = (string, string) -> (string, string)

  /** The `founded_cas` dictionary: the entries by address, and the
      addresses in insertion order (the order in which Python's dict
      yields its values). */
  datatype Calls = Calls(byAddress: map<string, Call>, order: seq<string>) {

    /** The two views agree, every address occurs once, and every entry
        is stored under its own address. */
    ghost predicate Valid() {
      && (forall a :: a in byAddress <==> a in order)
      && (forall i, j :: 0 <= i < j < |order| ==> order[i] != order[j])
      && (forall a :: a in byAddress ==> byAddress[a].address == a)
    }

    /** `founded_cas.values()`, in insertion order. */
    function Values(): seq<Call>
      requires Valid()
    {
      seq(|order|, i requires 0 <= i < |order| => byAddress[order[i]])
    }
  }

  /** `founded_cas = {}` */
  const NoCalls := Calls(map[], [])

  /** The empty dictionary is well formed. */
  lemma NoCallsValid()
    ensures NoCalls.Valid()
  {
  }

  /** `founded_cas[call.address] = call`: a new address goes to the end of
      the insertion order, an existing one keeps its place and gets the new entry. */
  function Store(c: Calls, call: Call): (r: Calls)
    ensures c.Valid() ==> r.Valid()
    ensures call.address in r.byAddress && r.byAddress[call.address] == call
    ensures forall a :: a != call.address ==> (a in r.byAddress <==> a in c.byAddress)
    ensures forall a :: a != call.address && a in c.byAddress ==> r.byAddress[a] == c.byAddress[a]
    ensures c.order <= r.order && |r.order| <= |c.order| + 1
  {
    Calls(c.byAddress[call.address := call],
          if call.address in c.byAddress then c.order else c.order + [call.address])
  }

  /** The entry a message contributes, if any: messages without text are
      skipped; otherwise the detected address is confirmed and recorded with
      the message's date. */
  function Sighting(m: Message, confirm: Confirm): (r: Option<Call>)
    ensures m.text == "" ==> r.None?
    ensures r.Some? ==> r.value.timestamp == m.date
  {
    if m.text == "" then None
    else
      match DetectCaAndChain(m.text)
      case None => None
      case Some(ca) =>
        var (address, chain) := confirm(ca.address, ca.chain);
        Some(Call(address, chain, m.date))
  }

  /** The dictionary after one message has been processed. */
  function ScanMessage(c: Calls, m: Message, confirm: Confirm): Calls {
    match Sighting(m, confirm)
    case None => c
    case Some(call) => Store(c, call)
  }

  /** The dictionary after the first `n` messages of `ms` have been processed in order. */
  function ScanPrefix(c: Calls, ms: seq<Message>, n: nat, confirm: Confirm): Calls
    requires n <= |ms|
    decreases n
  {
    if n == 0 then c
    else ScanMessage(ScanPrefix(c, ms, n - 1, confirm), ms[n - 1], confirm)
  }

  /** Processing keeps the dictionary well formed, never reorders or drops
      an address, and adds at most one address per message. */
  lemma {:induction false} ScanPrefixGrows(c: Calls, ms: seq<Message>, n: nat, confirm: Confirm)
    requires n <= |ms|
    ensures var r := ScanPrefix(c, ms, n, confirm);
      && (c.Valid() ==> r.Valid())
      && c.order <= r.order
      && |r.byAddress| <= |c.byAddress| + n
    decreases n
  {
    if n > 0 {
      ScanPrefixGrows(c, ms, n - 1, confirm);
    }
  }

  /** The dictionary after all the messages `ms` have been processed in order. */
  function ScanAll(c: Calls, ms: seq<Message>, confirm: Confirm): Calls {
    ScanPrefix(c, ms, |ms|, confirm)
  }

  /** The position, from `i` on, of the first message of a page dated
      strictly before the cutoff (the length of the page if there is none). */
  function CutoffFrom(page: seq<Message>, dateLimit: int, i: nat): (n: nat)
    requires i <= |page|
    ensures i <= n <= |page|
    ensures forall j :: i <= j < n ==> page[j].date >= dateLimit
    ensures n < |page| ==> page[n].date < dateLimit
    decreases |page| - i
  {
    if i == |page| || page[i].date < dateLimit then i
    else CutoffFrom(page, dateLimit, i + 1)
  }

  /** How many messages of a page the inner loop processes: those before the
      first message dated strictly before the cutoff. */
  function Cutoff(page: seq<Message>, dateLimit: int): nat {
    CutoffFrom(page, dateLimit, 0)
  }

  /** Why the collection loop ended. */
  datatype Stop =
    | EmptyPage      // "No more messages to fetch."
    | LimitExceeded  // "Exceeded 200 CAs."
    | AgeCutoff      // the last message of a page is older than the cutoff

  /** The state when the loop ends: the dictionary, the reason, and the
      number of pages whose messages were processed. */
  datatype Scan = Scan(calls: Calls, stop: Stop, pagesRead: nat)

  /** The collection loop from page `k` on, with dictionary `c`. A request
      past the last page returns no messages. */
  function CollectFrom(c: Calls, pages: seq<seq<Message>>, k: nat, dateLimit: int, confirm: Confirm): (r: Scan)
    requires k <= |pages|
    ensures k <= r.pagesRead <= |pages|
    decreases |pages| - k
  {
    if k == |pages| || pages[k] == [] then Scan(c, EmptyPage, k)
    else if |c.byAddress| > AddressLimit then Scan(c, LimitExceeded, k)
    else
      var next := ScanPrefix(c, pages[k], Cutoff(pages[k], dateLimit), confirm);
      if pages[k][|pages[k]| - 1].date < dateLimit then Scan(next, AgeCutoff, k + 1)
      else CollectFrom(next, pages, k + 1, dateLimit, confirm)
  }

  /** The collection loop over a channel's history. */
  function Collect(pages: seq<seq<Message>>, dateLimit: int, confirm: Confirm): Scan {
    CollectFrom(NoCalls, pages, 0, dateLimit, confirm)
  }

  /** Why the loop stopped, read off the state it stopped in: an empty (or
      missing) page, more than 200 addresses before a page, or a processed
      page whose last message is older than the cutoff. */
  lemma {:induction false} CollectStopReasons(c: Calls, pages: seq<seq<Message>>, k: nat, dateLimit: int, confirm: Confirm)
    requires k <= |pages|
    ensures var r := CollectFrom(c, pages, k, dateLimit, confirm);
      && (r.stop == EmptyPage ==> r.pagesRead == |pages| || pages[r.pagesRead] == [])
      && (r.stop == LimitExceeded ==>
            r.pagesRead < |pages| && pages[r.pagesRead] != [] && |r.calls.byAddress| > AddressLimit)
      && (r.stop == AgeCutoff ==>
            0 < r.pagesRead && pages[r.pagesRead - 1] != []
            && pages[r.pagesRead - 1][|pages[r.pagesRead - 1]| - 1].date < dateLimit)
    decreases |pages| - k
  {
    if k == |pages| || pages[k] == [] {
    } else if |c.byAddress| > AddressLimit {
    } else {
      var next := ScanPrefix(c, pages[k], Cutoff(pages[k], dateLimit), confirm);
      if pages[k][|pages[k]| - 1].date >= dateLimit {
        CollectStopReasons(next, pages, k + 1, dateLimit, confirm);
      }
    }
  }
  /** Every page read before the one the loop stopped on ended with a
      message not older than the cutoff. */
  lemma {:induction false} CollectPagesBeforeStop(c: Calls, pages: seq<seq<Message>>, k: nat, dateLimit: int, confirm: Confirm)
    requires k <= |pages|
    ensures var r := CollectFrom(c, pages, k, dateLimit, confirm);
      forall j :: k <= j < r.pagesRead && (r.stop != AgeCutoff || j < r.pagesRead - 1) ==>
            pages[j] != [] && pages[j][|pages[j]| - 1].date >= dateLimit
    decreases |pages| - k
  {
    if k == |pages| || pages[k] == [] {
    } else if |c.byAddress| > AddressLimit {
    } else {
      var next := ScanPrefix(c, pages[k], Cutoff(pages[k], dateLimit), confirm);
      if pages[k][|pages[k]| - 1].date >= dateLimit {
        CollectPagesBeforeStop(next, pages, k + 1, dateLimit, confirm);
      }
    }
  }

  /** The limit is checked only before a page, so with pages of at most 100
      messages the dictionary ends with at most 200 + 100 addresses. */
  lemma {:induction false} CollectBound(c: Calls, pages: seq<seq<Message>>, k: nat, dateLimit: int, confirm: Confirm)
    requires k <= |pages|
    requires forall j :: 0 <= j < |pages| ==> |pages[j]| <= PageSize
    requires |c.byAddress| <= AddressLimit + PageSize
    ensures |CollectFrom(c, pages, k, dateLimit, confirm).calls.byAddress| <= AddressLimit + PageSize
    decreases |pages| - k
  {
    if k == |pages| || pages[k] == [] {
    } else if |c.byAddress| > AddressLimit {
    } else {
      var next := ScanPrefix(c, pages[k], Cutoff(pages[k], dateLimit), confirm);
      ScanPrefixGrows(c, pages[k], Cutoff(pages[k], dateLimit), confirm);
      CollectBound(next, pages, k + 1, dateLimit, confirm);
    }
  }

  /** The collected dictionary is well formed. */
  lemma {:induction false} CollectValid(c: Calls, pages: seq<seq<Message>>, k: nat, dateLimit: int, confirm: Confirm)
    requires k <= |pages|
    requires c.Valid()
    ensures CollectFrom(c, pages, k, dateLimit, confirm).calls.Valid()
    decreases |pages| - k
  {
    if k == |pages| || pages[k] == [] {
    } else if |c.byAddress| > AddressLimit {
    } else {
      var next := ScanPrefix(c, pages[k], Cutoff(pages[k], dateLimit), confirm);
      ScanPrefixGrows(c, pages[k], Cutoff(pages[k], dateLimit), confirm);
      CollectValid(next, pages, k + 1, dateLimit, confirm);
    }
  }

  /** With pages of at most 100 messages, the collected calls number at most 300. */
  lemma CollectCallsBound(pages: seq<seq<Message>>, dateLimit: int, confirm: Confirm)
    requires forall j :: 0 <= j < |pages| ==> |pages[j]| <= PageSize
    ensures |Collect(pages, dateLimit, confirm).calls.byAddress| <= AddressLimit + PageSize
  {
    CollectBound(NoCalls, pages, 0, dateLimit, confirm);
  }

  /** On a page ordered newest first, the two age checks agree: the last
      message is older than the cutoff exactly when the inner loop stops
      before the end of the page. */
  lemma CutoffChecksAgree(page: seq<Message>, dateLimit: int)
    requires page != []
    requires forall i, j :: 0 <= i <= j < |page| ==> page[j].date <= page[i].date
    ensures page[|page| - 1].date < dateLimit <==> Cutoff(page, dateLimit) < |page|
  {
    var n := Cutoff(page, dateLimit);
    if n < |page| {
      assert page[|page| - 1].date <= page[n].date;
    }
  }

  /** Every entry that processing adds is the sighting of one of the
      processed messages; entries that were there before and were not
      overwritten keep their value. */
  lemma {:induction false} ScanPrefixProvenance(c: Calls, ms: seq<Message>, n: nat, confirm: Confirm, a: string)
    requires n <= |ms|
    requires a in ScanPrefix(c, ms, n, confirm).byAddress
    ensures var r := ScanPrefix(c, ms, n, confirm);
      || (a in c.byAddress && r.byAddress[a] == c.byAddress[a])
      || exists i :: 0 <= i < n && Sighting(ms[i], confirm) == Some(r.byAddress[a])
    decreases n
  {
    if n > 0 {
      var prev := ScanPrefix(c, ms, n - 1, confirm);
      var r := ScanPrefix(c, ms, n, confirm);
      match Sighting(ms[n - 1], confirm)
      case None =>
        ScanPrefixProvenance(c, ms, n - 1, confirm, a);
      case Some(call) =>
        if a != call.address {
          ScanPrefixProvenance(c, ms, n - 1, confirm, a);
        }
    }
  }

  /** The message yields an entry for address `a`. */
  predicate Names(m: Message, confirm: Confirm, a: string) {
    Sighting(m, confirm).Some? && Sighting(m, confirm).value.address == a
  }

  /** A message that names no address, or another one, leaves an address's entry alone. */
  lemma ScanMessageKeeps(c: Calls, m: Message, confirm: Confirm, a: string)
    requires a in c.byAddress
    requires !Names(m, confirm, a)
    ensures a in ScanMessage(c, m, confirm).byAddress
    ensures ScanMessage(c, m, confirm).byAddress[a] == c.byAddress[a]
  {
  }

  /** Every entry was recorded from a message dated at or after the cutoff. */
  ghost predicate AllAtOrAfter(c: Calls, dateLimit: int) {
    forall a :: a in c.byAddress ==> c.byAddress[a].timestamp >= dateLimit
  }

  /** Processing messages dated at or after the cutoff records only such dates. */
  lemma {:induction false} ScanPrefixDates(c: Calls, ms: seq<Message>, n: nat, confirm: Confirm, dateLimit: int)
    requires n <= |ms| && AllAtOrAfter(c, dateLimit)
    requires forall j :: 0 <= j < n ==> ms[j].date >= dateLimit
    ensures AllAtOrAfter(ScanPrefix(c, ms, n, confirm), dateLimit)
    decreases n
  {
    if n > 0 {
      ScanPrefixDates(c, ms, n - 1, confirm, dateLimit);
    }
  }

  /** No message older than the cutoff is ever recorded: every collected
      call's timestamp is at or after the cutoff. */
  lemma {:induction false} CollectDates(c: Calls, pages: seq<seq<Message>>, k: nat, dateLimit: int, confirm: Confirm)
    requires k <= |pages| && AllAtOrAfter(c, dateLimit)
    ensures AllAtOrAfter(CollectFrom(c, pages, k, dateLimit, confirm).calls, dateLimit)
    decreases |pages| - k
  {
    if k == |pages| || pages[k] == [] {
    } else if |c.byAddress| > AddressLimit {
    } else {
      var next := ScanPrefix(c, pages[k], Cutoff(pages[k], dateLimit), confirm);
      ScanPrefixDates(c, pages[k], Cutoff(pages[k], dateLimit), confirm, dateLimit);
      CollectDates(next, pages, k + 1, dateLimit, confirm);
    }
  }

  /** A message dated exactly at the cutoff, with no older message before it
      on its page, is processed: the comparison is strict. */
  lemma CutoffIsStrict(page: seq<Message>, dateLimit: int, i: nat)
    requires i < |page| && page[i].date == dateLimit
    requires forall j :: 0 <= j < i ==> page[j].date >= dateLimit
    ensures i < Cutoff(page, dateLimit)
  {
  }

  /** A message that names an address stores its sighting under it. */
  lemma ScanMessageStores(c: Calls, m: Message, confirm: Confirm, call: Call)
    requires Sighting(m, confirm) == Some(call)
    ensures call.address in ScanMessage(c, m, confirm).byAddress
    ensures ScanMessage(c, m, confirm).byAddress[call.address] == call
  {
  }

  /** Last write wins: the entry for an address is the sighting of the last
      processed message that named it. */
  lemma {:induction false} ScanPrefixLastWins(c: Calls, ms: seq<Message>, n: nat, confirm: Confirm, i: nat, call: Call)
    requires i < n <= |ms|
    requires Sighting(ms[i], confirm) == Some(call)
    requires forall j :: i < j < n ==> !Names(ms[j], confirm, call.address)
    ensures var r := ScanPrefix(c, ms, n, confirm);
      call.address in r.byAddress && r.byAddress[call.address] == call
    decreases n
  {
    var prev := ScanPrefix(c, ms, n - 1, confirm);
    assert ScanPrefix(c, ms, n, confirm) == ScanMessage(prev, ms[n - 1], confirm);
    if n - 1 > i {
      ScanPrefixLastWins(c, ms, n - 1, confirm, i, call);
      assert call.address in prev.byAddress;
      assert !Names(ms[n - 1], confirm, call.address);
      ScanMessageKeeps(prev, ms[n - 1], confirm, call.address);
    } else {
      ScanMessageStores(prev, ms[n - 1], confirm, call);
    }
  }

  /** Processing depends only on the messages processed. */
  lemma {:induction false} ScanPrefixAgree(c: Calls, ms: seq<Message>, ns: seq<Message>, n: nat, confirm: Confirm)
    requires n <= |ms| && n <= |ns|
    requires forall i :: 0 <= i < n ==> ms[i] == ns[i]
    ensures ScanPrefix(c, ms, n, confirm) == ScanPrefix(c, ns, n, confirm)
    decreases n
  {
    if n > 0 {
      ScanPrefixAgree(c, ms, ns, n - 1, confirm);
    }
  }

  /** Processing `a + b` up to `m` messages into `b` is processing `a`, then
      the first `m` messages of `b`. */
  lemma {:induction false} ScanAppendPrefix(c: Calls, a: seq<Message>, b: seq<Message>, m: nat, confirm: Confirm)
    requires m <= |b|
    ensures ScanPrefix(c, a + b, |a| + m, confirm) == ScanPrefix(ScanAll(c, a, confirm), b, m, confirm)
    decreases m
  {
    if m == 0 {
      ScanPrefixAgree(c, a + b, a, |a|, confirm);
    } else {
      ScanAppendPrefix(c, a, b, m - 1, confirm);
      assert (a + b)[|a| + m - 1] == b[m - 1];
    }
  }

  /** Processing `a + b` is processing `a`, then `b`. */
  lemma ScanAllAppend(c: Calls, a: seq<Message>, b: seq<Message>, confirm: Confirm)
    ensures ScanAll(c, a + b, confirm) == ScanAll(ScanAll(c, a, confirm), b, confirm)
  {
    ScanAppendPrefix(c, a, b, |b|, confirm);
  }

  /** The messages of a page the inner loop processes, in order. */
  function Kept(page: seq<Message>, dateLimit: int): (ms: seq<Message>)
    ensures forall j :: 0 <= j < |ms| ==> ms[j].date >= dateLimit
    ensures |ms| <= |page| && forall j :: 0 <= j < |ms| ==> ms[j] == page[j]
  {
    page[..Cutoff(page, dateLimit)]
  }

  /** The messages the loop processes on pages `lo` up to `hi`, in order. */
  function Processed(pages: seq<seq<Message>>, lo: nat, hi: nat, dateLimit: int): seq<Message>
    requires lo <= hi <= |pages|
    decreases hi - lo
  {
    if lo == hi then [] else Processed(pages, lo, hi - 1, dateLimit) + Kept(pages[hi - 1], dateLimit)
  }

  /** The processed messages start with those of the first page. */
  lemma {:induction false} ProcessedFirst(pages: seq<seq<Message>>, lo: nat, hi: nat, dateLimit: int)
    requires lo < hi <= |pages|
    ensures Processed(pages, lo, hi, dateLimit)
         == Kept(pages[lo], dateLimit) + Processed(pages, lo + 1, hi, dateLimit)
    decreases hi - lo
  {
    if lo < hi - 1 {
      ProcessedFirst(pages, lo, hi - 1, dateLimit);
    } else {
      assert Processed(pages, lo, hi - 1, dateLimit) == [];
    }
  }

  /** The dictionary the loop ends with is the one it started with after
      every processed message, page after page. */
  lemma {:induction false} CollectProcesses(c: Calls, pages: seq<seq<Message>>, k: nat, dateLimit: int, confirm: Confirm)
    requires k <= |pages|
    ensures var r := CollectFrom(c, pages, k, dateLimit, confirm);
      r.calls == ScanAll(c, Processed(pages, k, r.pagesRead, dateLimit), confirm)
    decreases |pages| - k
  {
    if k == |pages| || pages[k] == [] {
    } else if |c.byAddress| > AddressLimit {
    } else {
      var n := Cutoff(pages[k], dateLimit);
      var kept := Kept(pages[k], dateLimit);
      var next := ScanPrefix(c, pages[k], n, confirm);
      ScanPrefixAgree(c, pages[k], kept, n, confirm);
      assert next == ScanAll(c, kept, confirm);
      var r := CollectFrom(c, pages, k, dateLimit, confirm);
      if pages[k][|pages[k]| - 1].date < dateLimit {
        assert Processed(pages, k, k + 1, dateLimit) == kept;
      } else {
        CollectProcesses(next, pages, k + 1, dateLimit, confirm);
        ProcessedFirst(pages, k, r.pagesRead, dateLimit);
        ScanAllAppend(c, kept, Processed(pages, k + 1, r.pagesRead, dateLimit), confirm);
      }
    }
  }

  /** Every message the collection loop processes, in the order it processes them. */
  function CollectedMessages(pages: seq<seq<Message>>, dateLimit: int, confirm: Confirm): seq<Message> {
    Processed(pages, 0, Collect(pages, dateLimit, confirm).pagesRead, dateLimit)
  }

  /** Last write wins across pages: an address's collected entry is the
      sighting of the last processed message that named it. */
  lemma CollectLastWins(pages: seq<seq<Message>>, dateLimit: int, confirm: Confirm, i: nat, call: Call)
    requires i < |CollectedMessages(pages, dateLimit, confirm)|
    requires Sighting(CollectedMessages(pages, dateLimit, confirm)[i], confirm) == Some(call)
    requires forall j :: i < j < |CollectedMessages(pages, dateLimit, confirm)| ==>
               !Names(CollectedMessages(pages, dateLimit, confirm)[j], confirm, call.address)
    ensures var r := Collect(pages, dateLimit, confirm).calls;
      call.address in r.byAddress && r.byAddress[call.address] == call
  {
    var ms := CollectedMessages(pages, dateLimit, confirm);
    CollectProcesses(NoCalls, pages, 0, dateLimit, confirm);
    ScanPrefixLastWins(NoCalls, ms, |ms|, confirm, i, call);
  }

  /** Every collected entry is the sighting of a processed message. */
  lemma CollectProvenance(pages: seq<seq<Message>>, dateLimit: int, confirm: Confirm, a: string)
    requires a in Collect(pages, dateLimit, confirm).calls.byAddress
    ensures var ms := CollectedMessages(pages, dateLimit, confirm);
      exists i :: 0 <= i < |ms| && Sighting(ms[i], confirm) == Some(Collect(pages, dateLimit, confirm).calls.byAddress[a])
  {
    var ms := CollectedMessages(pages, dateLimit, confirm);
    CollectProcesses(NoCalls, pages, 0, dateLimit, confirm);
    ScanPrefixProvenance(NoCalls, ms, |ms|, confirm, a);
  }

  /** On messages processed newest first, an address that was not recorded
      before ends with the date of its oldest mention. */
  lemma {:induction false} ScanPrefixOldest(c: Calls, ms: seq<Message>, n: nat, confirm: Confirm, a: string)
    requires n <= |ms| && a !in c.byAddress
    requires forall i, j :: 0 <= i <= j < n ==> ms[j].date <= ms[i].date
    requires a in ScanPrefix(c, ms, n, confirm).byAddress
    ensures forall i :: 0 <= i < n && Names(ms[i], confirm, a) ==>
              ScanPrefix(c, ms, n, confirm).byAddress[a].timestamp <= ms[i].date
    decreases n
  {
    if n > 0 {
      var prev := ScanPrefix(c, ms, n - 1, confirm);
      if Names(ms[n - 1], confirm, a) {
        ScanMessageStores(prev, ms[n - 1], confirm, Sighting(ms[n - 1], confirm).value);
      } else {
        assert a in prev.byAddress;
        ScanPrefixOldest(c, ms, n - 1, confirm, a);
        ScanMessageKeeps(prev, ms[n - 1], confirm, a);
      }
    }
  }

  /** History is read newest first, so a repeated address keeps the date of
      its oldest processed mention. */
  lemma CollectKeepsOldest(pages: seq<seq<Message>>, dateLimit: int, confirm: Confirm, a: string)
    requires var ms := CollectedMessages(pages, dateLimit, confirm);
      forall i, j :: 0 <= i <= j < |ms| ==> ms[j].date <= ms[i].date
    requires a in Collect(pages, dateLimit, confirm).calls.byAddress
    ensures var ms := CollectedMessages(pages, dateLimit, confirm);
      forall i :: 0 <= i < |ms| && Names(ms[i], confirm, a) ==>
        Collect(pages, dateLimit, confirm).calls.byAddress[a].timestamp <= ms[i].date
  {
    var ms := CollectedMessages(pages, dateLimit, confirm);
    CollectProcesses(NoCalls, pages, 0, dateLimit, confirm);
    ScanPrefixOldest(NoCalls, ms, |ms|, confirm, a);
  }

  /** The body of the inner loop for a message not older than the cutoff. */
  method ProcessMessage(found: Calls, message: Message, confirm: Confirm) returns (updated: Calls)
    ensures updated == ScanMessage(found, message, confirm)
  {
    updated := found;
    if message.text != "" {
      var ca := DetectCaAndChain(message.text);
      if ca.Some? {
        var (address, chain) := confirm(ca.value.address, ca.value.chain);
        updated := Store(updated, Call(address, chain, message.date));
      }
    }
  }

  /** The inner `for` loop over one page of the history. */
  method ProcessPage(found: Calls, history: seq<Message>, dateLimit: int, confirm: Confirm)
    returns (updated: Calls)
    ensures updated == ScanPrefix(found, history, Cutoff(history, dateLimit), confirm)
  {
    updated := found;
    var i := 0;
    while i < |history|
      invariant i <= Cutoff(history, dateLimit)
      invariant updated == ScanPrefix(found, history, i, confirm)
    {
      var message := history[i];
      if message.date < dateLimit {
        assert i == Cutoff(history, dateLimit);
        break;
      }
      updated := ProcessMessage(updated, message, confirm);
      i := i + 1;
    }
  }

  /** The collection loop of `get_tp_sl`. */
  method CollectCalls(pages: seq<seq<Message>>, dateLimit: int, confirm: Confirm)
    returns (found: Calls, stop: Stop)
    ensures found == Collect(pages, dateLimit, confirm).calls
    ensures stop == Collect(pages, dateLimit, confirm).stop
  {
    found := NoCalls;
    var k := 0;
    while true
      invariant k <= |pages|
      invariant CollectFrom(found, pages, k, dateLimit, confirm) == Collect(pages, dateLimit, confirm)
      decreases |pages| - k
    {
      var history := if k < |pages| then pages[k] else [];
      if history == [] {
        stop := EmptyPage;
        break;
      }
      if |found.byAddress| > AddressLimit {
        stop := LimitExceeded;
        break;
      }
      found := ProcessPage(found, history, dateLimit, confirm);
      k := k + 1;
      if history[|history| - 1].date < dateLimit {
        stop := AgeCutoff;
        break;
      }
    }
  }
}
