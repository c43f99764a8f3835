/** core/token_tracker.py: the tracker keyed by agent name. A second record
    for a name replaces that name's entry while the totals keep adding up. */
module TokenTracking {
  import opened Wrappers
  import Llm
  import Json

  /** The value stored under an agent's name in `data`. */
  datatype UsageEntry = UsageEntry(inputTokens: nat, outputTokens: nat, model: string, timestamp: string)

  /** One call to `record`. */
  datatype UsageRecord = UsageRecord(agent: string, entry: UsageEntry)

  /** The identity of a registered callback; calling it is recorded, not run. */
  datatype Observer = Observer(id: nat)

  /** What `summary()` reports. */
  datatype TrackerSummary = TrackerSummary(
    agents: map<string, UsageEntry>,
    totalInputTokens: nat,
    totalOutputTokens: nat,
    approxCostUsd: real)

  function InputOf(e: UsageEntry): nat { e.inputTokens }
  function OutputOf(e: UsageEntry): nat { e.outputTokens }

  /** The sum of `f` over every record of `h`. */
  function HistoryTally(h: seq<UsageRecord>, f: UsageEntry -> nat): nat {
    if h == [] then 0 else HistoryTally(h[..|h| - 1], f) + f(h[|h| - 1].entry)
  }

  /** The per-agent table a sequence of records leaves: the last entry per name. */
  function Latest(h: seq<UsageRecord>): map<string, UsageEntry> {
    if h == [] then map[] else Latest(h[..|h| - 1])[h[|h| - 1].agent := h[|h| - 1].entry]
  }

  /** The names of `h` in order of first appearance: a dict's iteration order. */
  function FirstSeen(h: seq<UsageRecord>): seq<string> {
    if h == [] then []
    else
      var names := FirstSeen(h[..|h| - 1]);
      if h[|h| - 1].agent in names then names else names + [h[|h| - 1].agent]
  }

  predicate Distinct(keys: seq<string>) {
    forall i, j :: 0 <= i < j < |keys| ==> keys[i] != keys[j]
  }

  /** The iteration order lists each key of the table exactly once. */
  lemma {:induction false} FirstSeenListsKeys(h: seq<UsageRecord>)
    ensures Distinct(FirstSeen(h))
    ensures forall k :: k in FirstSeen(h) <==> k in Latest(h)
  {
    if h != [] {
      FirstSeenListsKeys(h[..|h| - 1]);
    }
  }

  /** The sum of `f` over the entries of `data` named by `keys`. */
  function Tally(data: map<string, UsageEntry>, keys: seq<string>, f: UsageEntry -> nat): nat {
    if keys == [] then 0
    else Tally(data, keys[..|keys| - 1], f) + (if keys[|keys| - 1] in data then f(data[keys[|keys| - 1]]) else 0)
  }

  lemma {:induction false} TallyUpdateOutside(data: map<string, UsageEntry>, keys: seq<string>, f: UsageEntry -> nat,
                                              a: string, e: UsageEntry)
    requires a !in keys
    ensures Tally(data[a := e], keys, f) == Tally(data, keys, f)
  {
    if keys != [] {
      TallyUpdateOutside(data, keys[..|keys| - 1], f, a, e);
    }
  }

  lemma {:induction false} TallyUpdateInside(data: map<string, UsageEntry>, keys: seq<string>, f: UsageEntry -> nat,
                                             a: string, e: UsageEntry)
    requires Distinct(keys) && a in keys && a in data
    ensures Tally(data[a := e], keys, f) + f(data[a]) == Tally(data, keys, f) + f(e)
  {
    var init := keys[..|keys| - 1];
    assert Distinct(init);
    if keys[|keys| - 1] == a {
      assert a !in init;
      TallyUpdateOutside(data, init, f, a, e);
    } else {
      assert a in init;
      TallyUpdateInside(data, init, f, a, e);
    }
  }

  /** The running totals never count less than the table: every entry still
      in `data` was added to the totals when it was recorded. */
  lemma {:induction false} TotalsCoverTable(h: seq<UsageRecord>, f: UsageEntry -> nat)
    ensures Tally(Latest(h), FirstSeen(h), f) <= HistoryTally(h, f)
  {
    if h != [] {
      var p, r := h[..|h| - 1], h[|h| - 1];
      TotalsCoverTable(p, f);
      FirstSeenListsKeys(p);
      if r.agent in FirstSeen(p) {
        TallyUpdateInside(Latest(p), FirstSeen(p), f, r.agent, r.entry);
      } else {
        TallyUpdateOutside(Latest(p), FirstSeen(p), f, r.agent, r.entry);
      }
    }
  }

  /** One more record: its entry replaces the name's, its name joins the
      order if new, and its counts join the totals. */
  lemma RecordAppended(h: seq<UsageRecord>, r: UsageRecord)
    ensures Latest(h + [r]) == Latest(h)[r.agent := r.entry]
    ensures FirstSeen(h + [r]) == if r.agent in FirstSeen(h) then FirstSeen(h) else FirstSeen(h) + [r.agent]
    ensures HistoryTally(h + [r], InputOf) == HistoryTally(h, InputOf) + r.entry.inputTokens
    ensures HistoryTally(h + [r], OutputOf) == HistoryTally(h, OutputOf) + r.entry.outputTokens
  {
    assert (h + [r])[..|h|] == h;
  }

  lemma FirstSeenHasKey(h: seq<UsageRecord>, agent: string)
    ensures agent in FirstSeen(h) <==> agent in Latest(h)
  {
    FirstSeenListsKeys(h);
  }

  /** Two records under one name: the totals count both, the table keeps the second. */
  lemma RecordTwice(h: seq<UsageRecord>, agent: string, e1: UsageEntry, e2: UsageEntry, f: UsageEntry -> nat)
    ensures Latest(h + [UsageRecord(agent, e1), UsageRecord(agent, e2)])[agent] == e2
    ensures HistoryTally(h + [UsageRecord(agent, e1), UsageRecord(agent, e2)], f) == HistoryTally(h, f) + f(e1) + f(e2)
  {
    var h2 := h + [UsageRecord(agent, e1), UsageRecord(agent, e2)];
    assert h2[..|h2| - 1] == h + [UsageRecord(agent, e1)];
    assert (h + [UsageRecord(agent, e1)])[..|h|] == h;
  }

  /** USD per 1K tokens. */
  datatype Price = Price(input: real, output: real)

  /** `OPENAI_PRICING.get(m, OPENAI_PRICING["gpt-4o-mini"])`. */
  function PriceOf(model: string): (p: Price)
    ensures p.input >= 0.0 && p.output >= 0.0
    ensures model !in {"gpt-4o-mini", "gpt-4o", "gpt-4-turbo"} ==> p == Price(0.00015, 0.00060)
  {
    if model == "gpt-4o" then Price(0.005, 0.015)
    else if model == "gpt-4-turbo" then Price(0.01, 0.03)
    else Price(0.00015, 0.00060)
  }

  /** The cost of one table entry. */
  function EntryCost(e: UsageEntry): (c: real)
    ensures c >= 0.0
  {
    var p := PriceOf(e.model);
    (e.inputTokens as real / 1000.0) * p.input + (e.outputTokens as real / 1000.0) * p.output
  }

  /** The cost of the entries of `data` named by `keys`, in that order. */
  function CostOver(data: map<string, UsageEntry>, keys: seq<string>): (c: real)
    ensures c >= 0.0
  {
    if keys == [] then 0.0
    else CostOver(data, keys[..|keys| - 1]) + (if keys[|keys| - 1] in data then EntryCost(data[keys[|keys| - 1]]) else 0.0)
  }

  /** The two price tables agree on gpt-4o and disagree on gpt-4o-mini, which
      this table prices at a tenth of core/llm.py's input rate. */
  lemma PriceTablesCompared(inputTokens: nat, outputTokens: nat)
    ensures EntryCost(UsageEntry(inputTokens, outputTokens, "gpt-4o", "")) ==
            Llm.EstimateCost(Json.JStr("gpt-4o"), inputTokens, outputTokens)
    ensures EntryCost(UsageEntry(inputTokens, 0, "gpt-4o-mini", "")) * 10.0 ==
            Llm.EstimateCost(Json.JStr("gpt-4o-mini"), inputTokens, 0)
  {
  }

  class TokenTracker {
    var data: map<string, UsageEntry>
    /** The insertion order of `data`'s keys, in which Python iterates the dict. */
    var order: seq<string>
    var totalInputTokens: nat
    var totalOutputTokens: nat
    var callback: Option<Observer>
    /** Every record since the last reset. */
    ghost var history: seq<UsageRecord>
    /** Every call made to the callback, with the summary it was given. */
    ghost var notified: seq<(Observer, TrackerSummary)>

    ghost predicate Valid()
      reads this
    {
      && data == Latest(history)
      && order == FirstSeen(history)
      && totalInputTokens == HistoryTally(history, InputOf)
      && totalOutputTokens == HistoryTally(history, OutputOf)
    }

    function TotalCost(): real
      reads this
    {
      CostOver(data, order)
    }

    function Summary(): (s: TrackerSummary)
      reads this
      ensures s.agents == data
      ensures Valid() ==> Tally(s.agents, order, InputOf) <= s.totalInputTokens
      ensures Valid() ==> Tally(s.agents, order, OutputOf) <= s.totalOutputTokens
      ensures Valid() ==> s.totalInputTokens == HistoryTally(history, InputOf)
      ensures Valid() ==> s.totalOutputTokens == HistoryTally(history, OutputOf)
      ensures s.approxCostUsd == CostOver(data, order) && s.approxCostUsd >= 0.0
    {
      TotalsCoverTable(history, InputOf);
      TotalsCoverTable(history, OutputOf);
      TrackerSummary(data, totalInputTokens, totalOutputTokens, TotalCost())
    }

    /** The initial totals are 0 (line 16 of the source reads `0s`, a syntax
        error; 0 is the evident intent). */
    constructor ()
      ensures Valid() && data == map[] && order == [] && history == []
      ensures totalInputTokens == 0 && totalOutputTokens == 0
      ensures callback == None && notified == []
    {
      data, order, totalInputTokens, totalOutputTokens := map[], [], 0, 0;
      callback := None;
      history, notified := [], [];
    }

    method SetCallback(cb: Option<Observer>)
      modifies this
      ensures callback == cb
      ensures data == old(data) && order == old(order) && history == old(history) && notified == old(notified)
      ensures totalInputTokens == old(totalInputTokens) && totalOutputTokens == old(totalOutputTokens)
    {
      callback := cb;
    }

    /** Stores the entry under `agentName`, replacing any earlier one, adds
        the counts to the totals and notifies the callback once. */
    method Record(agentName: string, inputT: nat, outputT: nat, model: string, timestamp: string)
      requires Valid()
      modifies this
      ensures Valid()
      ensures data == old(data)[agentName := UsageEntry(inputT, outputT, model, timestamp)]
      ensures order == if agentName in old(data) then old(order) else old(order) + [agentName]
      ensures totalInputTokens == old(totalInputTokens) + inputT
      ensures totalOutputTokens == old(totalOutputTokens) + outputT
      ensures history == old(history) + [UsageRecord(agentName, UsageEntry(inputT, outputT, model, timestamp))]
      ensures callback == old(callback)
      ensures notified == old(notified) + if callback.Some? then [(callback.value, Summary())] else []
    {
      var entry := UsageEntry(inputT, outputT, model, timestamp);
      RecordAppended(history, UsageRecord(agentName, entry));
      FirstSeenHasKey(history, agentName);
      if agentName !in data {
        order := order + [agentName];
      }
      data := data[agentName := entry];
      totalInputTokens := totalInputTokens + inputT;
      totalOutputTokens := totalOutputTokens + outputT;
      history := history + [UsageRecord(agentName, entry)];
      if callback.Some? {
        notified := notified + [(callback.value, Summary())];
      }
    }

    /** `calc_cost()`: sums the price of each current entry in dict order. */
    method CalcCost() returns (total: real)
      requires Valid()
      ensures total == TotalCost()
      ensures total >= 0.0
      ensures data == map[] ==> total == 0.0
    {
      FirstSeenListsKeys(history);
      total := 0.0;
      var i := 0;
      while i < |order|
        invariant 0 <= i <= |order|
        invariant total == CostOver(data, order[..i])
      {
        assert order[..i + 1][..i] == order[..i];
        assert order[i] in data;
        total := total + EntryCost(data[order[i]]);
        i := i + 1;
      }
      assert order[..|order|] == order;
    }

    /** Empties the table in place and zeroes the totals; the callback stays. */
    method Reset()
      modifies this
      ensures Valid() && data == map[] && order == [] && history == []
      ensures totalInputTokens == 0 && totalOutputTokens == 0
      ensures callback == old(callback) && notified == old(notified)
    {
      data, order, totalInputTokens, totalOutputTokens := map[], [], 0, 0;
      history := [];
    }
  }
}
