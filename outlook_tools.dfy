/**
 * The mailbox tools: the search each one asks the connector for, the
 * counting behind the mailbox summary, and how the thread finder groups,
 * ranks and cuts the messages it gets back.
 */
module OutlookTools {
  import opened Wrappers
  import opened PyDict
  import opened Values
  import opened Filters
  import opened Counting
  import opened Qdrant
  import EnterpriseTools

  /** `_ensure_condition_list`: a bucket as a list of conditions. */
  function EnsureConditionList(b: Bucket): (cs: seq<Condition>)
    ensures b.Absent? <==> cs == [] && !b.Several?
    ensures b.Single? ==> cs == [b.condition]
    ensures b.Several? ==> cs == b.conditions
  {
    match b
    case Absent => []
    case Single(c) => [c]
    case Several(cs) => cs
  }

  /** The exceptions the tools raise on metadata of an unexpected shape. */
  datatype Raised =
    | AttributeError  // `.get` or `.split` on a value that has no such method
    | TypeError       // an unhashable `Counter` or dict key, or a loop over a non-iterable

  /**
   * `(e.metadata or {}).get("email", {})`: the email record of an entry;
   * missing metadata and a missing record both read as `{}`, and anything
   * but a dict has no `.get`.
   */
  function EmailOf(e: Entry): (r: Result<Payload, Raised>)
    ensures e.metadata.None? ==> r == Success([])
    ensures r.Failure? <==> (e.metadata.Some? && HasKey(e.metadata.value, "email")
      && !Get(e.metadata.value, "email").value.VDict?)
    ensures r.Failure? ==> r.error == AttributeError
  {
    var md := if e.metadata.Some? then e.metadata.value else [];
    match GetOr(md, "email", VDict([]))
    case VDict(em) => Success(em)
    case _ => Failure(AttributeError)
  }

  // ---------------------------------------------------------------------
  // analyze_mailbox
  // ---------------------------------------------------------------------

  const MAILBOX_QUERY: string := "email message communication thread subject"

  /** `[t for t in focus_terms if isinstance(t, str) and t]`. */
  function FocusTokens(terms: seq<Value>): (tokens: seq<string>)
    ensures |tokens| <= |terms|
    ensures forall i :: 0 <= i < |tokens| ==> tokens[i] != "" && VStr(tokens[i]) in terms
    ensures forall i :: 0 <= i < |terms| && terms[i].VStr? && terms[i].s != "" ==> terms[i].s in tokens
    decreases |terms|
  {
    if |terms| == 0 then []
    else
      var n := |terms| - 1;
      var init := FocusTokens(terms[..n]);
      assert forall i :: 0 <= i < n ==> terms[..n][i] == terms[i];
      if terms[n].VStr? && terms[n].s != "" then init + [terms[n].s] else init
  }

  /** The query of `analyze_mailbox`: the focus terms that qualify, space-joined, ahead of the default query. */
  function MailboxQuery(focusTerms: Option<seq<Value>>): string {
    if focusTerms.Some? && |focusTerms.value| > 0 then
      var tokens := Join(" ", FocusTokens(focusTerms.value));
      if tokens != "" then tokens + " " + MAILBOX_QUERY else MAILBOX_QUERY
    else MAILBOX_QUERY
  }

  /** A join of strings whose first one is non-empty is non-empty. */
  lemma JoinNonEmpty(sep: string, parts: seq<string>)
    requires |parts| > 0 && parts[0] != ""
    ensures Join(sep, parts) != ""
  {
    assert Join(sep, parts)[..|parts[0]|] == parts[0];
  }

  /**
   * The default query is used unchanged exactly when no focus term is a
   * non-empty string; otherwise the qualifying terms come first.
   */
  lemma MailboxQueryPrependsTokens(focusTerms: Option<seq<Value>>)
    ensures var tokens := if focusTerms.Some? then FocusTokens(focusTerms.value) else [];
      && (tokens == [] ==> MailboxQuery(focusTerms) == MAILBOX_QUERY)
      && (tokens != [] ==> MailboxQuery(focusTerms) == Join(" ", tokens) + " " + MAILBOX_QUERY)
  {
    if focusTerms.Some? && FocusTokens(focusTerms.value) != [] {
      JoinNonEmpty(" ", FocusTokens(focusTerms.value));
    }
  }

  /** The search `analyze_mailbox` asks for: the caller's filter as given, three times the limit up to 100. */
  method AnalyzeMailboxRequest(searchLimit: nat, collectionName: string, queryFilter: Option<Filter>,
                               focusTerms: Option<seq<Value>>)
    returns (args: SearchArgs)
    ensures args == SearchArgs(MailboxQuery(focusTerms), collectionName, EnterpriseTools.ScaledLimit(searchLimit, 100), queryFilter)
  {
    var analysisQuery := MAILBOX_QUERY;
    if focusTerms.Some? && |focusTerms.value| > 0 {
      var tokens := Join(" ", FocusTokens(focusTerms.value));
      if tokens != "" {
        analysisQuery := tokens + " " + MAILBOX_QUERY;
      }
    }
    var combinedFilter := queryFilter;
    var analysisLimit := EnterpriseTools.ScaledLimit(searchLimit, 100);
    args := SearchArgs(analysisQuery, collectionName, analysisLimit, combinedFilter);
  }

  /**
   * `(em.get("date") or "").split("T")[0] if em.get("date") else None`:
   * for a non-empty date string, the part before its first `T`.
   */
  function DayOf(date: Value): (r: Result<Option<string>, Raised>)
    ensures !Truthy(date) ==> r == Success(None)
    ensures Truthy(date) && !date.VStr? ==> r == Failure(AttributeError)
    ensures Truthy(date) && date.VStr? ==> (r.Success? && r.value.Some?
      && var day := r.value.value;
        |day| <= |date.s| && day == date.s[..|day|] && 'T' !in day && (|day| < |date.s| ==> date.s[|day|] == 'T'))
  {
    if !Truthy(date) then Success(None)
    else
      match date
      case VStr(s) => Success(Some(BeforeFirst(s, 'T')))
      case _ => Failure(AttributeError)
  }

  /** The four counters of `analyze_mailbox`. */
  datatype MailboxCounters = MailboxCounters(senders: Counter, labels: Counter, threads: Counter, dates: Counter)

  const NoCounts: MailboxCounters := MailboxCounters([], [], [], [])

  /** `if key: counter[key] += 1`. */
  function CountIfTruthy(c: Counter, key: Value): (r: Result<Counter, Raised>)
    ensures r.Failure? <==> Truthy(key) && !Hashable(key)
  {
    if !Truthy(key) then Success(c)
    else if !Hashable(key) then Failure(TypeError)
    else Success(Inc(c, key))
  }

  /** A counted key adds one to the total, a falsy one nothing. */
  lemma CountIfTruthyTotal(c: Counter, key: Value)
    requires CountIfTruthy(c, key).Success?
    ensures Total(CountIfTruthy(c, key).value) == Total(c) + (if Truthy(key) then 1 else 0)
  {
    if Truthy(key) {
      IncTotal(c, key);
    }
  }

  /** `em.get("labels", []) or []`, as the items the label loop visits. */
  function LabelsOf(em: Payload): Option<seq<Value>> {
    var v := GetOr(em, "labels", VList([]));
    if !Truthy(v) then Some([]) else Iterate(v)
  }

  /** One pass of the loop body of `analyze_mailbox` over an entry. */
  function TallyEmail(c: MailboxCounters, e: Entry): Result<MailboxCounters, Raised> {
    match EmailOf(e)
    case Failure(err) => Failure(err)
    case Success(em) =>
      match CountIfTruthy(c.senders, GetOr(em, "from", VNone))
      case Failure(err) => Failure(err)
      case Success(senders) =>
        match LabelsOf(em)
        case None => Failure(TypeError)
        case Some(lbls) =>
          match CountKeys(c.labels, lbls)
          case None => Failure(TypeError)
          case Some(labels) => TallyEmailRest(c, em, senders, labels)
  }

  /** The loop body from the thread id on, once the sender and the labels are counted. */
  function TallyEmailRest(c: MailboxCounters, em: Payload, senders: Counter, labels: Counter): Result<MailboxCounters, Raised> {
    match CountIfTruthy(c.threads, GetOr(em, "thread_id", VNone))
    case Failure(err) => Failure(err)
    case Success(threads) =>
      match DayOf(GetOr(em, "date", VNone))
      case Failure(err) => Failure(err)
      case Success(day) =>
        var dates := if day.Some? && day.value != "" then Inc(c.dates, VStr(day.value)) else c.dates;
        Success(MailboxCounters(senders, labels, threads, dates))
  }

  /** The counting loop of `analyze_mailbox`; the first raising entry's error wins. */
  function TallyMailbox(entries: seq<Entry>): Result<MailboxCounters, Raised>
    decreases |entries|
  {
    if |entries| == 0 then Success(NoCounts)
    else
      match TallyMailbox(entries[..|entries| - 1])
      case Failure(err) => Failure(err)
      case Success(c) => TallyEmail(c, entries[|entries| - 1])
  }

  /** An entry without metadata changes no counter. */
  lemma BareEntryCountsNothing(c: MailboxCounters, content: string)
    ensures TallyEmail(c, Entry(content, None)) == Success(c)
  {
    assert EmailOf(Entry(content, None)) == Success([]);
    assert LabelsOf([]) == Some([]);
    assert CountKeys(c.labels, []) == Some(c.labels);
  }

  /** One entry counts at most once as a sender, a thread and a day. */
  lemma TallyEmailTotals(c: MailboxCounters, e: Entry)
    requires TallyEmail(c, e).Success?
    ensures var u := TallyEmail(c, e).value;
      && Total(c.senders) <= Total(u.senders) <= Total(c.senders) + 1
      && Total(c.threads) <= Total(u.threads) <= Total(c.threads) + 1
      && Total(c.dates) <= Total(u.dates) <= Total(c.dates) + 1
  {
    var em := EmailOf(e).value;
    CountIfTruthyTotal(c.senders, GetOr(em, "from", VNone));
    var senders := CountIfTruthy(c.senders, GetOr(em, "from", VNone)).value;
    var labels := CountKeys(c.labels, LabelsOf(em).value).value;
    assert TallyEmail(c, e) == TallyEmailRest(c, em, senders, labels);
    CountIfTruthyTotal(c.threads, GetOr(em, "thread_id", VNone));
    var day := DayOf(GetOr(em, "date", VNone)).value;
    if day.Some? && day.value != "" {
      IncTotal(c.dates, VStr(day.value));
    }
  }

  /** Over a sample, each of the sender, thread and day counters totals at most the sample size. */
  lemma {:induction false} MailboxTotalsWithinSample(entries: seq<Entry>)
    requires TallyMailbox(entries).Success?
    ensures var c := TallyMailbox(entries).value;
      Total(c.senders) <= |entries| && Total(c.threads) <= |entries| && Total(c.dates) <= |entries|
    decreases |entries|
  {
    if |entries| > 0 {
      var n := |entries| - 1;
      assert TallyMailbox(entries[..n]).Success?;
      MailboxTotalsWithinSample(entries[..n]);
      TallyEmailTotals(TallyMailbox(entries[..n]).value, entries[n]);
    }
  }

  /** `if key: counter[key] += 1`: a falsy key is skipped, an unhashable one raises `TypeError`. */
  method CountKey(c: Counter, key: Value) returns (r: Result<Counter, Raised>)
    ensures r == CountIfTruthy(c, key)
  {
    if !Truthy(key) {
      return Success(c);
    }
    if !Hashable(key) {
      return Failure(TypeError);
    }
    r := Success(Inc(c, key));
  }

  /** The body of the counting loop for one entry, counter by counter. */
  method CountEmail(c: MailboxCounters, e: Entry) returns (r: Result<MailboxCounters, Raised>)
    ensures r == TallyEmail(c, e)
  {
    var em := EmailOf(e);
    if em.Failure? {
      return Failure(em.error);
    }
    var senders := CountKey(c.senders, GetOr(em.value, "from", VNone));
    if senders.Failure? {
      return Failure(senders.error);
    }
    var lbls := LabelsOf(em.value);
    if lbls.None? {
      return Failure(TypeError);
    }
    var labels, ok := CountAll(c.labels, lbls.value);
    if !ok {
      return Failure(TypeError);
    }
    assert TallyEmail(c, e) == TallyEmailRest(c, em.value, senders.value, labels);
    var threads := CountKey(c.threads, GetOr(em.value, "thread_id", VNone));
    if threads.Failure? {
      return Failure(threads.error);
    }
    var day := DayOf(GetOr(em.value, "date", VNone));
    if day.Failure? {
      return Failure(day.error);
    }
    var dates := c.dates;
    if day.value.Some? && day.value.value != "" {
      dates := Inc(dates, VStr(day.value.value));
    }
    r := Success(MailboxCounters(senders.value, labels, threads.value, dates));
  }

  /** Joined items end with the last item. */
  lemma {:induction false} JoinEndsWithLast(sep: string, parts: seq<string>)
    requires |parts| > 0
    ensures var j := Join(sep, parts); |parts[|parts| - 1]| <= |j| && j[|j| - |parts[|parts| - 1]|..] == parts[|parts| - 1]
    decreases |parts|
  {
    if |parts| > 1 {
      JoinEndsWithLast(sep, parts[1..]);
      assert parts[1..][|parts| - 2] == parts[|parts| - 1];
    }
  }

  function TopItem(item: (Value, nat)): string {
    Str(item.0) + " (" + IntText(item.1) + ")"
  }

  /** `_top`: the five most common keys as `key (count)`, comma-separated, or "None" for an empty counter. */
  function Top(c: Counter): (r: string)
    ensures r == "None" <==> c == []
  {
    var items := MostCommon(c, 5);
    var shown := Join(", ", seq(|items|, i requires 0 <= i < |items| => TopItem(items[i])));
    if shown == "" then "None"
    else
      assert shown != "None" by {
        var parts := seq(|items|, i requires 0 <= i < |items| => TopItem(items[i]));
        JoinEndsWithLast(", ", parts);
        var last := parts[|parts| - 1];
        assert last[|last| - 1] == ')';
        assert shown[|shown| - 1] == ')';
      }
      shown
  }

  const NO_EMAILS_MATCHED: string := "No emails matched the specified criteria"

  function MailboxSummary(c: MailboxCounters, sampleSize: nat): string {
    Join("\n", [
      "Mailbox Analysis Summary:",
      "- Top senders: " + Top(c.senders),
      "- Top labels: " + Top(c.labels),
      "- Top threads: " + Top(c.threads),
      "- Active days: " + Top(c.dates),
      "- Sample size: " + IntText(sampleSize)])
  }

  /** The answer of `analyze_mailbox` to the entries its search returned. */
  function MailboxAnswer(entries: seq<Entry>): Result<seq<string>, Raised> {
    if |entries| == 0 then Success([NO_EMAILS_MATCHED])
    else
      match TallyMailbox(entries)
      case Failure(err) => Failure(err)
      case Success(c) => Success([MailboxSummary(c, |entries|)])
  }

  /** `analyze_mailbox` after its search: the counting loop over the entries, then the one-line summary. */
  method AnalyzeMailboxAnswer(entries: seq<Entry>) returns (r: Result<seq<string>, Raised>)
    ensures r == MailboxAnswer(entries)
  {
    if |entries| == 0 {
      return Success([NO_EMAILS_MATCHED]);
    }
    var counters := NoCounts;
    for i := 0 to |entries|
      invariant TallyMailbox(entries[..i]) == Success(counters)
    {
      assert entries[..i + 1][..i] == entries[..i];
      var next := CountEmail(counters, entries[i]);
      if next.Failure? {
        MailboxFailurePropagates(entries, i + 1, next.error);
        return Failure(next.error);
      }
      counters := next.value;
    }
    assert entries[..|entries|] == entries;
    r := Success([MailboxSummary(counters, |entries|)]);
  }

  lemma {:induction false} MailboxFailurePropagates(entries: seq<Entry>, n: nat, err: Raised)
    requires n <= |entries| && TallyMailbox(entries[..n]) == Failure(err)
    ensures TallyMailbox(entries) == Failure(err)
    decreases |entries| - n
  {
    if n < |entries| {
      assert entries[..n + 1][..n] == entries[..n];
      MailboxFailurePropagates(entries, n + 1, err);
    } else {
      assert entries[..n] == entries;
    }
  }

  // ---------------------------------------------------------------------
  // find_threads
  // ---------------------------------------------------------------------

  const THREAD_QUERY: string := "conversation thread reply forward"
  const NO_THREAD: string := "(no-thread)"

  /** `query or "conversation thread reply forward"`. */
  function EffectiveQuery(query: Option<string>): (q: string)
    ensures query.Some? && query.value != "" ==> q == query.value
    ensures query.None? || query.value == "" ==> q == THREAD_QUERY
  {
    if query.Some? && query.value != "" then query.value else THREAD_QUERY
  }

  /**
   * The search `find_threads` asks for: the caller's filter as given, three
   * times the limit up to 200. The `thread_id` argument plays no part in it.
   */
  method FindThreadsRequest(searchLimit: nat, collectionName: string, query: Option<string>,
                            queryFilter: Option<Filter>, threadId: Option<string>)
    returns (args: SearchArgs)
    ensures args == SearchArgs(EffectiveQuery(query), collectionName, EnterpriseTools.ScaledLimit(searchLimit, 200), queryFilter)
  {
    var combinedFilter := queryFilter;
    var effectiveQuery := EffectiveQuery(query);
    args := SearchArgs(effectiveQuery, collectionName, EnterpriseTools.ScaledLimit(searchLimit, 200), combinedFilter);
  }

  /** The answer when the search returned nothing: it names the thread when one was asked for. */
  function NoThreadsMessage(threadId: Option<string>): (m: string)
    ensures threadId.Some? && threadId.value != "" ==> m == "No emails found for thread '" + threadId.value + "'"
    ensures threadId.None? || threadId.value == "" ==> m == "No threads found for the specified query"
  {
    if threadId.Some? && threadId.value != "" then "No emails found for thread '" + threadId.value + "'"
    else "No threads found for the specified query"
  }

  /** `em.get("thread_id") or "(no-thread)"`: the thread an entry is grouped under. */
  function ThreadKey(e: Entry): (r: Result<Value, Raised>)
    ensures r.Success? ==> Truthy(r.value) && Hashable(r.value)
  {
    match EmailOf(e)
    case Failure(err) => Failure(err)
    case Success(em) =>
      var tid := GetOr(em, "thread_id", VNone);
      var key := if Truthy(tid) then tid else VStr(NO_THREAD);
      if Hashable(key) then Success(key) else Failure(TypeError)
  }

  /** `groups[k].append(x)` on a `defaultdict(list)`. */
  function AddToGroup<K(==,!new), E>(groups: Dict<K, seq<E>>, k: K, x: E): Dict<K, seq<E>> {
    Put(groups, k, GetOr(groups, k, []) + [x])
  }

  /**
   * Grouping `xs` by `key` into a `defaultdict(list)`: keys in order of
   * first appearance, each with its elements in order; the first element
   * whose key raises ends the loop with that error.
   */
  function GroupBy<E, K(==,!new)>(xs: seq<E>, key: E -> Result<K, Raised>): Result<Dict<K, seq<E>>, Raised>
    decreases |xs|
  {
    if |xs| == 0 then Success([])
    else
      match GroupBy(xs[..|xs| - 1], key)
      case Failure(err) => Failure(err)
      case Success(groups) =>
        match key(xs[|xs| - 1])
        case Failure(err) => Failure(err)
        case Success(k) => Success(AddToGroup(groups, k, xs[|xs| - 1]))
  }

  /** The elements of `xs` whose key is `k`, in order. */
  function Members<E, K(==)>(xs: seq<E>, key: E -> Result<K, Raised>, k: K): seq<E>
    decreases |xs|
  {
    if |xs| == 0 then []
    else Members(xs[..|xs| - 1], key, k) + (if key(xs[|xs| - 1]) == Success(k) then [xs[|xs| - 1]] else [])
  }

  /** When grouping succeeds, every element has a key. */
  lemma {:induction false} GroupByKeysEvery<E, K(!new)>(xs: seq<E>, key: E -> Result<K, Raised>, i: nat)
    requires GroupBy(xs, key).Success? && i < |xs|
    ensures key(xs[i]).Success?
    decreases |xs|
  {
    var n := |xs| - 1;
    if i < n {
      assert GroupBy(xs[..n], key).Success?;
      GroupByKeysEvery(xs[..n], key, i);
      assert xs[..n][i] == xs[i];
    }
  }

  /** Each group holds exactly the elements whose key is its own, and no key is listed twice. */
  lemma {:induction false} GroupsAreMembers<E, K(!new)>(xs: seq<E>, key: E -> Result<K, Raised>, k: K)
    requires GroupBy(xs, key).Success?
    ensures GetOr(GroupBy(xs, key).value, k, []) == Members(xs, key, k)
    ensures UniqueKeys(GroupBy(xs, key).value)
    decreases |xs|
  {
    if |xs| > 0 {
      var n := |xs| - 1;
      assert GroupBy(xs[..n], key).Success?;
      GroupsAreMembers(xs[..n], key, k);
      var groups := GroupBy(xs[..n], key).value;
      var kn := key(xs[n]).value;
      if kn != k {
        assert Get(AddToGroup(groups, kn, xs[n]), k) == Get(groups, k);
      }
    }
  }

  /** An element is a member of group `k` exactly when it is in `xs` and its key is `k`. */
  lemma {:induction false} MembersIff<E, K>(xs: seq<E>, key: E -> Result<K, Raised>, k: K, x: E)
    ensures x in Members(xs, key, k) <==> x in xs && key(x) == Success(k)
    decreases |xs|
  {
    if |xs| > 0 {
      var n := |xs| - 1;
      MembersIff(xs[..n], key, k, x);
      assert xs == xs[..n] + [xs[n]];
    }
  }

  /** The threads: each key with the list of its messages, keys in order of first appearance. */
  type Threads = Dict<Value, seq<Entry>>

  /** The grouping loop of `find_threads`. */
  function Grouped(entries: seq<Entry>): Result<Threads, Raised> {
    GroupBy(entries, ThreadKey)
  }

  /** The messages of thread `k`, in the order the search returned them. */
  function ThreadOf(entries: seq<Entry>, k: Value): seq<Entry> {
    Members(entries, ThreadKey, k)
  }

  /**
   * Every message returned lands in exactly one thread, the one of its own
   * key, and each thread holds exactly those messages in order.
   */
  lemma EachEntryInExactlyOneThread(entries: seq<Entry>, i: nat, k: Value)
    requires Grouped(entries).Success? && i < |entries|
    ensures ThreadKey(entries[i]).Success?
    ensures entries[i] in GetOr(Grouped(entries).value, k, []) <==> ThreadKey(entries[i]) == Success(k)
  {
    GroupByKeysEvery(entries, ThreadKey, i);
    GroupsAreMembers(entries, ThreadKey, k);
    MembersIff(entries, ThreadKey, k, entries[i]);
  }

  function ThreadSize(thread: (Value, seq<Entry>)): nat {
    |thread.1|
  }

  /** `subjects[0] if subjects else "(no subject)"`, the subject of a thread's first message. */
  function SampleSubject(items: seq<Entry>): Value {
    if |items| == 0 then VStr("(no subject)")
    else
      var md := if items[0].metadata.Some? then items[0].metadata.value else [];
      var em := GetOr(md, "email", VDict([]));
      match if Truthy(em) then em else VDict([])
      case VDict(d) => GetOr(d, "subject", VStr(""))
      // a truthy non-dict record has already raised in the grouping loop
      case _ => VStr("")
  }

  /**
   * An item of the answer of `find_threads`: a text line, or a thread
   * block, rendered with its rank, key, message count `|messages|` and the
   * `SampleSubject` of its messages.
   */
  datatype ThreadsLine =
    | Message(text: string)
    | ThreadBlock(rank: nat, threadId: Value, messages: seq<Entry>)

  function ThreadsHeader(count: nat): string {
    "Found " + IntText(count) + " threads (top " + IntText(if count < 5 then count else 5) + " shown):"
  }

  function BlockOf(rank: nat, thread: (Value, seq<Entry>)): ThreadsLine {
    ThreadBlock(rank, thread.0, thread.1)
  }

  /** The answer of `find_threads` to the entries its search returned. */
  function ThreadsAnswer(entries: seq<Entry>, threadId: Option<string>): Result<seq<ThreadsLine>, Raised> {
    if |entries| == 0 then Success([Message(NoThreadsMessage(threadId))])
    else
      match Grouped(entries)
      case Failure(err) => Failure(err)
      case Success(threads) =>
        Success(RankedLines(threads))
  }

  /** The header, then the five largest threads ranked from 1. */
  function RankedLines(threads: Threads): seq<ThreadsLine> {
    [Message(ThreadsHeader(|threads|))] + Blocks(Take(SortDescending(threads, ThreadSize), 5))
  }

  /** One block per thread shown, ranked from 1 in the order given. */
  function Blocks(shown: seq<(Value, seq<Entry>)>): (r: seq<ThreadsLine>)
    ensures |r| == |shown|
    ensures forall i :: 0 <= i < |shown| ==> r[i] == BlockOf(i + 1, shown[i])
    decreases |shown|
  {
    if |shown| == 0 then []
    else
      var init := shown[..|shown| - 1];
      var prev := Blocks(init);
      assert forall i :: 0 <= i < |init| ==> init[i] == shown[i];
      prev + [BlockOf(|shown|, shown[|shown| - 1])]
  }

  /** The grouping loop of `find_threads`. */
  method GroupByThread(entries: seq<Entry>) returns (r: Result<Threads, Raised>)
    ensures r == Grouped(entries)
  {
    var byThread: Threads := [];
    for i := 0 to |entries|
      invariant Grouped(entries[..i]) == Success(byThread)
    {
      assert entries[..i + 1][..i] == entries[..i];
      var em := EmailOf(entries[i]);
      if em.Failure? {
        GroupFailurePropagates(entries, i + 1, em.error);
        return Failure(em.error);
      }
      var tid := GetOr(em.value, "thread_id", VNone);
      if !Truthy(tid) {
        tid := VStr(NO_THREAD);
      }
      if !Hashable(tid) {
        GroupFailurePropagates(entries, i + 1, TypeError);
        return Failure(TypeError);
      }
      byThread := Put(byThread, tid, GetOr(byThread, tid, []) + [entries[i]]);
    }
    assert entries[..|entries|] == entries;
    r := Success(byThread);
  }

  lemma {:induction false} GroupFailurePropagates(entries: seq<Entry>, n: nat, err: Raised)
    requires n <= |entries| && Grouped(entries[..n]) == Failure(err)
    ensures Grouped(entries) == Failure(err)
    decreases |entries| - n
  {
    if n < |entries| {
      assert entries[..n + 1][..n] == entries[..n];
      GroupFailurePropagates(entries, n + 1, err);
    } else {
      assert entries[..n] == entries;
    }
  }

  /** `find_threads` after its search: group, rank by size, then a header and the first five threads. */
  method FindThreadsAnswer(entries: seq<Entry>, threadId: Option<string>) returns (r: Result<seq<ThreadsLine>, Raised>)
    ensures r == ThreadsAnswer(entries, threadId)
  {
    if |entries| == 0 {
      return Success([Message(NoThreadsMessage(threadId))]);
    }
    var grouped := GroupByThread(entries);
    if grouped.Failure? {
      return Failure(grouped.error);
    }
    var rankedThreads := SortDescending(grouped.value, ThreadSize);
    var blocks := RenderBlocks(Take(rankedThreads, 5));
    r := Success([Message(ThreadsHeader(|rankedThreads|))] + blocks);
  }

  /** The loop of `find_threads` that lays out the threads shown, ranked from 1. */
  method RenderBlocks(shown: seq<(Value, seq<Entry>)>) returns (blocks: seq<ThreadsLine>)
    ensures blocks == Blocks(shown)
  {
    blocks := [];
    for idx := 0 to |shown|
      invariant blocks == Blocks(shown[..idx])
    {
      assert shown[..idx + 1][..idx] == shown[..idx];
      blocks := blocks + [BlockOf(idx + 1, shown[idx])];
    }
    assert shown[..|shown|] == shown;
  }

  /**
   * The answer to a non-empty search: a header counting the threads and
   * the number shown, then at most five threads ranked 1..k, largest
   * first; each shows its key and its message count, the number of
   * returned messages with that key; no thread left out is larger than
   * one shown, and threads of equal size keep their order of first
   * appearance.
   */
  lemma ThreadsAnswerRanks(entries: seq<Entry>, threadId: Option<string>)
    requires |entries| > 0 && ThreadsAnswer(entries, threadId).Success?
    ensures var threads := Grouped(entries).value;
      var lines := ThreadsAnswer(entries, threadId).value;
      var k := if |threads| < 5 then |threads| else 5;
      && |lines| == k + 1
      && lines[0] == Message(ThreadsHeader(|threads|))
      && (forall i :: 1 <= i <= k ==> (lines[i].ThreadBlock? && lines[i].rank == i
            && lines[i].messages == ThreadOf(entries, lines[i].threadId)))
      && (forall i, j :: 1 <= i < j <= k ==> |lines[i].messages| >= |lines[j].messages|)
  {
    var threads := Grouped(entries).value;
    var lines := RankedLines(threads);
    assert ThreadsAnswer(entries, threadId).value == lines;
    RankedLinesShape(threads);
    var k := if |threads| < 5 then |threads| else 5;
    forall i | 1 <= i <= k
      ensures lines[i].messages == ThreadOf(entries, lines[i].threadId)
    {
      var j :| 0 <= j < |threads| && threads[j] == (lines[i].threadId, lines[i].messages);
      GroupsAreMembers(entries, ThreadKey, threads[j].0);
      GetAt(threads, j);
    }
  }

  /** The shape of the ranked answer over any grouping with one entry per key. */
  lemma RankedLinesShape(threads: Threads)
    ensures var lines := RankedLines(threads);
      var k := if |threads| < 5 then |threads| else 5;
      && |lines| == k + 1
      && lines[0] == Message(ThreadsHeader(|threads|))
      && (forall i :: 1 <= i <= k ==> (lines[i].ThreadBlock? && lines[i].rank == i
            && exists j :: 0 <= j < |threads| && threads[j] == (lines[i].threadId, lines[i].messages)))
      && (forall i, j :: 1 <= i < j <= k ==> |lines[i].messages| >= |lines[j].messages|)
  {
    var ranked := SortDescending(threads, ThreadSize);
    var lines := RankedLines(threads);
    var k := if |threads| < 5 then |threads| else 5;
    SortIsDescending(threads, ThreadSize);
    forall i | 1 <= i <= k
      ensures lines[i].ThreadBlock? && lines[i].rank == i
      ensures exists j :: 0 <= j < |threads| && threads[j] == (lines[i].threadId, lines[i].messages)
    {
      var t := ranked[i - 1];
      assert lines[i] == BlockOf(i, t);
      assert t in multiset(threads);
      var j :| 0 <= j < |threads| && threads[j] == t;
    }
    forall i, j | 1 <= i < j <= k ensures |lines[i].messages| >= |lines[j].messages| {
      assert lines[i] == BlockOf(i, ranked[i - 1]) && lines[j] == BlockOf(j, ranked[j - 1]);
    }
  }

  /** Threads left out of the five shown are no larger than any shown one. */
  lemma ThreadsShownAreLargest(threads: Threads)
    ensures var ranked := SortDescending(threads, ThreadSize);
      var shown := Take(ranked, 5);
      forall t, i :: t in multiset(ranked[|shown|..]) && 0 <= i < |shown| ==> |shown[i].1| >= |t.1|
  {
    var ranked := SortDescending(threads, ThreadSize);
    SortIsDescending(threads, ThreadSize);
    PrefixOutranksRest(ranked, ThreadSize, |Take(ranked, 5)|);
  }

  /** Threads of equal size keep the order in which their first messages were returned. */
  lemma EqualThreadsKeepOrder(threads: Threads, size: nat)
    ensures WithKey(SortDescending(threads, ThreadSize), ThreadSize, size) == WithKey(threads, ThreadSize, size)
  {
    SortIsStable(threads, ThreadSize, size);
  }
}
