/**
 Choosing and compacting conversation history: the newest whole turns that fit, and the summary that
 stands in for what is older.
 */
module ContextHistory {
  import opened Common
  import opened ContextPolicy

  // `norm` is the message text normalised as memories are.
  datatype Item = Item(id: string, role: Role, text: string, norm: string, message: Message)

  function Provider(items: seq<Item>): (r: seq<Message>)
    ensures |r| == |items| && forall i :: 0 <= i < |r| ==> r[i] == items[i].message
  {
    seq(|items|, i requires 0 <= i < |items| => items[i].message)
  }

  function Flatten<T>(groups: seq<seq<T>>): seq<T> {
    if groups == [] then [] else Flatten(groups[..|groups| - 1]) + groups[|groups| - 1]
  }

  lemma {:induction false} FlattenConcat<T>(a: seq<seq<T>>, b: seq<seq<T>>)
    ensures Flatten(a + b) == Flatten(a) + Flatten(b)
  {
    if b == [] {
      assert a + b == a;
    } else {
      FlattenConcat(a, b[..|b| - 1]);
      assert (a + b)[..|a + b| - 1] == a + b[..|b| - 1];
    }
  }

  // ---------------------------------------------------------------------------
  // Turn groups

  // A group starts at every user message and at the first message.
  function Groups(history: seq<Item>): seq<seq<Item>> {
    if history == [] then []
    else
      var groups, last := Groups(history[..|history| - 1]), history[|history| - 1];
      if last.role == User || groups == [] then groups + [[last]]
      else groups[..|groups| - 1] + [groups[|groups| - 1] + [last]]
  }

  predicate Turn(group: seq<Item>) {
    group != [] && forall i :: 0 < i < |group| ==> group[i].role != User
  }

  // The groups are these messages cut into turns.
  predicate CutsInto(history: seq<Item>, groups: seq<seq<Item>>) {
    && Flatten(groups) == history
    && (forall g :: 0 <= g < |groups| ==> Turn(groups[g]))
    && (forall g :: 0 < g < |groups| ==> groups[g][0].role == User)
  }

  lemma CutMore(init: seq<Item>, groups: seq<seq<Item>>, last: Item)
    requires CutsInto(init, groups) && (last.role == User || groups == [])
    ensures CutsInto(init + [last], groups + [[last]])
  {
    assert (groups + [[last]])[..|groups|] == groups;
  }

  lemma CutLonger(init: seq<Item>, groups: seq<seq<Item>>, last: Item)
    requires CutsInto(init, groups) && last.role != User && groups != []
    ensures CutsInto(init + [last], groups[..|groups| - 1] + [groups[|groups| - 1] + [last]])
  {
    var n := |groups| - 1;
    var longer := groups[..n] + [groups[n] + [last]];
    assert longer[..n] == groups[..n];
    assert Flatten(longer) == Flatten(groups[..n]) + (groups[n] + [last]);
    assert Flatten(groups) == Flatten(groups[..n]) + groups[n];
    assert init + [last] == Flatten(longer);
    hide Flatten;
  }

  /** The groups are the history cut at its user messages: nothing is lost, no group holds a second user
      message, and only the first group may begin with something else. */
  lemma {:induction false} GroupsCut(history: seq<Item>)
    ensures CutsInto(history, Groups(history))
  {
    if history != [] {
      var init, last := history[..|history| - 1], history[|history| - 1];
      GroupsCut(init);
      assert history == init + [last];
      hide CutsInto;
      if last.role == User || Groups(init) == [] {
        CutMore(init, Groups(init), last);
      } else {
        CutLonger(init, Groups(init), last);
      }
    }
  }

  function GroupCost(group: seq<Item>): int {
    Messages(Provider(group))
  }

  function TotalCost(groups: seq<seq<Item>>): int {
    if groups == [] then 0 else TotalCost(groups[..|groups| - 1]) + GroupCost(groups[|groups| - 1])
  }

  // How many of the newest groups are kept
  function Kept(groups: seq<seq<Item>>, budget: int): nat {
    if groups == [] || GroupCost(groups[|groups| - 1]) > budget then 0
    else 1 + Kept(groups[..|groups| - 1], budget - GroupCost(groups[|groups| - 1]))
  }

  function Newest<T>(s: seq<T>, k: nat): seq<T>
    requires k <= |s|
  {
    s[|s| - k..]
  }

  lemma GroupCostPositive(group: seq<Item>)
    ensures GroupCost(group) >= 3
  {
    CostAtLeast(Provider(group));
  }

  lemma {:induction false} KeptBound(groups: seq<seq<Item>>, budget: int)
    ensures Kept(groups, budget) <= |groups|
  {
    hide GroupCost;
    if groups != [] { KeptBound(groups[..|groups| - 1], budget - GroupCost(groups[|groups| - 1])); }
  }

  lemma TotalCostMore(groups: seq<seq<Item>>, k: nat)
    requires 0 < k <= |groups|
    ensures TotalCost(Newest(groups, k)) ==
              TotalCost(Newest(groups[..|groups| - 1], k - 1)) + GroupCost(groups[|groups| - 1])
  {
    var newest := Newest(groups, k);
    assert newest[..k - 1] == Newest(groups[..|groups| - 1], k - 1);
  }

  /** The groups kept are the longest run of newest groups within the budget: a run fits exactly if it is no
      longer than that. */
  lemma {:induction false} KeptIsLongest(groups: seq<seq<Item>>, budget: int, k: nat)
    requires k <= |groups| && budget >= 0
    ensures TotalCost(Newest(groups, k)) <= budget <==> k <= Kept(groups, budget)
  {
    hide GroupCost, TotalCost;
    if k == 0 {
      assert Newest(groups, k) == [];
      assert TotalCost(Newest(groups, k)) == 0 by { NoGroupsCostNothing(); }
    } else {
      var init, last := groups[..|groups| - 1], groups[|groups| - 1];
      TotalCostMore(groups, k);
      TotalCostPositive(Newest(init, k - 1));
      if GroupCost(last) <= budget {
        KeptIsLongest(init, budget - GroupCost(last), k - 1);
      }
    }
  }

  lemma NoGroupsCostNothing()
    ensures TotalCost([]) == 0
  {
  }

  lemma {:induction false} TotalCostPositive(groups: seq<seq<Item>>)
    ensures TotalCost(groups) >= 0
  {
    if groups != [] {
      TotalCostPositive(groups[..|groups| - 1]);
      GroupCostPositive(groups[|groups| - 1]);
    }
  }

  lemma {:induction false} TotalCostCovers(groups: seq<seq<Item>>)
    ensures Cost(Provider(Flatten(groups))) + 3 * |groups| == TotalCost(groups)
  {
    if groups != [] {
      var init, last := groups[..|groups| - 1], groups[|groups| - 1];
      TotalCostCovers(init);
      assert Provider(Flatten(groups)) == Provider(Flatten(init)) + Provider(last);
      CostConcat(Provider(Flatten(init)), Provider(last));
    }
  }

  function ClipAll(messages: seq<Message>, tokens: int): (r: seq<Message>)
    ensures |r| == |messages|
    ensures forall i :: 0 <= i < |r| ==> r[i] == messages[i].(content := Clip(messages[i].content, tokens))
  {
    seq(|messages|, i requires 0 <= i < |messages| => messages[i].(content := Clip(messages[i].content, tokens)))
  }

  // The newest group with its contents clipped, if it fits then
  function ClippedNewest(group: seq<Item>, budget: int): seq<Message> {
    var clipped := ClipAll(Provider(group), Max(24, budget / Max(1, |group|)));
    if Messages(clipped) <= budget then clipped else []
  }

  // `_select_history`
  function SelectHistory(history: seq<Item>, budget: int): seq<Message> {
    if budget <= 0 || history == [] then []
    else
      var groups := Groups(history);
      var k := Kept(groups, budget);
      if k == 0 then if groups == [] then [] else ClippedNewest(groups[|groups| - 1], budget)
      else if k <= |groups| then Provider(Flatten(Newest(groups, k))) else []
  }

  /** What is selected costs no more than the budget. */
  lemma SelectedFits(history: seq<Item>, budget: int)
    ensures budget >= 0 ==> Cost(SelectHistory(history, budget)) <= budget
    ensures budget < 0 ==> SelectHistory(history, budget) == []
  {
    var groups := Groups(history);
    var k := Kept(groups, budget);
    KeptBound(groups, budget);
    if budget > 0 {
      KeptIsLongest(groups, budget, k);
      TotalCostCovers(Newest(groups, k));
    }
    hide Groups, Kept, TotalCost, Flatten;
  }

  /** Either the messages selected are those of the newest whole turns, as many as fit; or not even the
      newest turn fits, and it is kept with its contents clipped or left out. So no tool result is kept
      without the message its turn began with. */
  lemma SelectedAreWholeTurns(history: seq<Item>, budget: int)
    requires budget > 0 && history != []
    ensures var groups, selected := Groups(history), SelectHistory(history, budget);
            groups != [] &&
            exists k | 0 <= k <= |groups| ::
              && (forall j :: 0 <= j <= |groups| ==> (TotalCost(Newest(groups, j)) <= budget <==> j <= k))
              && (if k > 0 then selected == Provider(Flatten(Newest(groups, k)))
                  else selected == ClippedNewest(groups[|groups| - 1], budget))
  {
    hide Kept, TotalCost, Flatten, ClippedNewest, CutsInto;
    var groups := Groups(history);
    var k := Kept(groups, budget);
    KeptBound(groups, budget);
    assert groups != [] by { hide *; GroupsNonEmpty(history); }
    forall j | 0 <= j <= |groups| ensures TotalCost(Newest(groups, j)) <= budget <==> j <= k {
      KeptIsLongest(groups, budget, j);
    }
    var selected := SelectHistory(history, budget);
    assert if k > 0 then selected == Provider(Flatten(Newest(groups, k)))
           else selected == ClippedNewest(groups[|groups| - 1], budget);
  }

  lemma GroupsNonEmpty(history: seq<Item>)
    requires history != []
    ensures Groups(history) != []
  {
  }

  /** A newest turn that does not fit is kept with every content clipped to its share of the budget, at least 24
      tokens, if that fits, and left out otherwise. */
  lemma ClippedNewestIs(group: seq<Item>, budget: int) returns (clipped: seq<Message>)
    requires group != []
    ensures |clipped| == |group|
    ensures forall i :: 0 <= i < |group| ==>
              clipped[i] == group[i].message.(content := Clip(group[i].message.content, Max(24, budget / |group|)))
    ensures ClippedNewest(group, budget) == if 3 + Cost(clipped) <= budget then clipped else []
  {
    clipped := ClipAll(Provider(group), Max(24, budget / |group|));
    assert Max(1, |group|) == |group|;
  }

  method BuildGroups(history: seq<Item>) returns (groups: seq<seq<Item>>)
    ensures groups == Groups(history)
  {
    groups := [];
    var i := 0;
    while i < |history|
      invariant 0 <= i <= |history| && groups == Groups(history[..i])
    {
      assert history[..i + 1][..i] == history[..i];
      if history[i].role == User || groups == [] {
        groups := groups + [[history[i]]];
      } else {
        groups := groups[..|groups| - 1] + [groups[|groups| - 1] + [history[i]]];
      }
      i := i + 1;
    }
    assert history[..i] == history;
  }

  method TakeNewest(groups: seq<seq<Item>>, budget: int) returns (k: nat, selected: seq<Message>)
    requires budget >= 0
    ensures k <= |groups| && k == Kept(groups, budget) && selected == Provider(Flatten(Newest(groups, k)))
  {
    assert Flatten(Newest(groups, 0)) == [] && groups[..|groups|] == groups;
    hide GroupCost, Kept, Flatten, Newest;
    KeptBound(groups, budget);
    var used := 0;
    k, selected := 0, [];
    while k < |groups|
      invariant 0 <= k <= |groups| && used <= budget
      invariant Kept(groups, budget) == k + Kept(groups[..|groups| - k], budget - used)
      invariant selected == Provider(Flatten(Newest(groups, k)))
    {
      var cost := GroupCost(groups[|groups| - 1 - k]);
      KeptStep(groups, budget - used, k);
      if used + cost > budget {
        return;
      }
      NewestMore(groups, k);
      selected := Provider(groups[|groups| - 1 - k]) + selected;
      used := used + cost;
      k := k + 1;
    }
  }

  method SelectTurns(history: seq<Item>, budget: int) returns (selected: seq<Message>)
    ensures selected == SelectHistory(history, budget)
  {
    if budget <= 0 || history == [] {
      return [];
    }
    var groups := BuildGroups(history);
    assert groups != [] by { GroupsNonEmpty(history); }
    hide Groups, Kept, Flatten, Newest, ClippedNewest;
    var k;
    k, selected := TakeNewest(groups, budget);
    if k == 0 {
      selected := ClippedNewest(groups[|groups| - 1], budget);
    }
  }

  lemma KeptStep(groups: seq<seq<Item>>, budget: int, k: nat)
    requires k < |groups|
    ensures var cost := GroupCost(groups[|groups| - 1 - k]);
            Kept(groups[..|groups| - k], budget) ==
              if cost > budget then 0 else 1 + Kept(groups[..|groups| - k - 1], budget - cost)
  {
    assert groups[..|groups| - k][..|groups| - k - 1] == groups[..|groups| - k - 1];
  }

  lemma NewestMore(groups: seq<seq<Item>>, k: nat)
    requires k < |groups|
    ensures Provider(Flatten(Newest(groups, k + 1))) ==
              Provider(groups[|groups| - 1 - k]) + Provider(Flatten(Newest(groups, k)))
  {
    var group := groups[|groups| - 1 - k];
    assert Newest(groups, k + 1) == [group] + Newest(groups, k);
    FlattenConcat([group], Newest(groups, k));
    assert Flatten([group]) == group by { assert [group][..0] == []; }
  }

  // ---------------------------------------------------------------------------
  // Compaction: older messages are summarised pass by pass

  // A summary's content is never blank: neither a stored nor a new one is used when it is.
  datatype Summary = Summary(through: string, content: string)

  // What the summary task does in one pass
  datatype Outcome = Summarised(content: string) | ProviderFails | Cancels

  datatype Degraded = SummaryFailed | CatchUpLimited

  datatype Limits = Limits(threshold: int, preserve: nat, maxPasses: nat, chunkBudget: int)

  datatype Compacted = Compacted(summary: Option<Summary>, remaining: seq<Item>, degraded: Option<Degraded>,
      passes: nat)

  predicate UniqueIds(history: seq<Item>) {
    forall i, j :: 0 <= i < j < |history| ==> history[i].id != history[j].id
  }

  function IndexOf(history: seq<Item>, id: string): (r: nat)
    ensures r <= |history| && (r < |history| ==> history[r].id == id)
    ensures forall j :: 0 <= j < r ==> history[j].id != id
  {
    if history == [] || history[0].id == id then 0 else 1 + IndexOf(history[1..], id)
  }

  // Where the messages after the summary begin; at the start if its last message is not found
  function StartAfter(history: seq<Item>, summary: Option<Summary>): (r: nat)
    ensures r <= |history|
  {
    if summary.None? then 0
    else
      var i := IndexOf(history, summary.value.through);
      if i < |history| then i + 1 else 0
  }

  // `_history_after_summary`
  function HistoryAfter(history: seq<Item>, summary: Option<Summary>): seq<Item> {
    history[StartAfter(history, summary)..]
  }

  // The slice `s[:-n]`, which is empty for n == 0
  function DropLast<T>(s: seq<T>, n: nat): seq<T> {
    if n == 0 || n >= |s| then [] else s[..|s| - n]
  }

  // How many of the eligible messages one pass takes: at least one, then as many as the budget holds
  function ChunkEnd(eligible: seq<Item>, i: nat, used: int, budget: int): (r: nat)
    requires i <= |eligible|
    ensures i <= r <= |eligible|
    ensures eligible != [] && i == 0 ==> r > 0
    decreases |eligible| - i
  {
    if i == |eligible| then i
    else
      var cost := Text(eligible[i].text) + 8;
      if i > 0 && used + cost > budget then i else ChunkEnd(eligible, i + 1, used + cost, budget)
  }

  function Projected(remaining: seq<Item>): int {
    Messages(Provider(remaining))
  }

  predicate TooLong(remaining: seq<Item>, limits: Limits) {
    Projected(remaining) > limits.threshold && |remaining| > limits.preserve
  }

  function Finish(history: seq<Item>, summary: Option<Summary>, limits: Limits, failed: bool, passes: nat): Compacted {
    var remaining := HistoryAfter(history, summary);
    Compacted(summary, remaining,
              if failed then Some(SummaryFailed) else if TooLong(remaining, limits) then Some(CatchUpLimited) else None,
              passes)
  }

  function Chunk(history: seq<Item>, summary: Option<Summary>, limits: Limits): seq<Item> {
    var eligible := DropLast(HistoryAfter(history, summary), limits.preserve);
    eligible[..ChunkEnd(eligible, 0, if summary.Some? then Text(summary.value.content) else 0, limits.chunkBudget)]
  }

  // `_compact_if_needed` from pass `passes` on
  function Compact(history: seq<Item>, summary: Option<Summary>, limits: Limits, outcomes: nat -> Outcome, passes: nat)
    : Result<Compacted, ()>
    decreases limits.maxPasses - passes
  {
    if !TooLong(HistoryAfter(history, summary), limits) || passes >= limits.maxPasses then
      Ok(Finish(history, summary, limits, false, passes))
    else
      var chunk := Chunk(history, summary, limits);
      if chunk == [] then Ok(Finish(history, summary, limits, false, passes))
      else match outcomes(passes)
        case Cancels => Err(())
        case ProviderFails => Ok(Finish(history, summary, limits, true, passes))
        case Summarised(content) =>
          Compact(history, Some(Summary(chunk[|chunk| - 1].id, Clip(content, 512))), limits, outcomes, passes + 1)
  }

  predicate Suffix<T(==)>(s: seq<T>, whole: seq<T>) {
    |s| <= |whole| && s == whole[|whole| - |s|..]
  }

  lemma SuffixFrom<T>(whole: seq<T>, i: nat)
    requires i <= |whole|
    ensures Suffix(whole[i..], whole)
  {
  }

  lemma SuffixOfConcat<T>(a: seq<T>, b: seq<T>, s: seq<T>)
    requires Suffix(s, b)
    ensures Suffix(s, a + b)
  {
    assert s == (a + b)[|a + b| - |s|..];
  }

  lemma UniqueIndex(history: seq<Item>, i: nat)
    requires UniqueIds(history) && i < |history|
    ensures IndexOf(history, history[i].id) == i
  {
  }

  lemma SplitAt<T>(s: seq<T>, i: nat, j: nat)
    requires i <= j <= |s|
    ensures s[i..] == s[i..j] + s[j..]
  {
  }

  lemma ChunkIs(history: seq<Item>, summary: Option<Summary>, limits: Limits)
    ensures var start, chunk := StartAfter(history, summary), Chunk(history, summary, limits);
            && start + |chunk| <= |history| && chunk == history[start..start + |chunk|]
            && (chunk != [] ==> limits.preserve <= |history| - start - |chunk|)
  {
    hide StartAfter, ChunkEnd;
    var start, chunk := StartAfter(history, summary), Chunk(history, summary, limits);
    var rest := history[start..];
    assert |chunk| <= |rest| && chunk == rest[..|chunk|];
    assert rest[..|chunk|] == history[start..start + |chunk|];
  }

  function TextCost(items: seq<Item>): int {
    if items == [] then 0 else TextCost(items[..|items| - 1]) + Text(items[|items| - 1].text) + 8
  }

  /** One pass takes a first message whatever it costs, and further ones exactly while they fit the budget. */
  lemma {:induction false} ChunkIsLongest(eligible: seq<Item>, i: nat, used0: int, budget: int)
    requires i <= |eligible|
    ensures var end := ChunkEnd(eligible, i, used0 + TextCost(eligible[..i]), budget);
            && (end > i && end > 1 ==> used0 + TextCost(eligible[..end]) <= budget)
            && (0 < end < |eligible| ==> used0 + TextCost(eligible[..end + 1]) > budget)
    decreases |eligible| - i
  {
    hide TextCost;
    if i < |eligible| {
      CostOfOneMore(eligible, i);
      ChunkIsLongest(eligible, i + 1, used0, budget);
    }
  }

  lemma CostOfOneMore(items: seq<Item>, i: nat)
    requires i < |items|
    ensures TextCost(items[..i + 1]) == TextCost(items[..i]) + Text(items[i].text) + 8
  {
    assert items[..i + 1][..i] == items[..i];
  }

  /** A pass takes at least one message, leaves a shorter suffix, and never reaches the recent messages. */
  lemma PassShortens(history: seq<Item>, summary: Option<Summary>, limits: Limits, content: string)
    requires UniqueIds(history) && Chunk(history, summary, limits) != []
    ensures var before, chunk := HistoryAfter(history, summary), Chunk(history, summary, limits);
            var after := HistoryAfter(history, Some(Summary(chunk[|chunk| - 1].id, content)));
            before == chunk + after && limits.preserve <= |after| < |before| && Suffix(before, history) &&
                  Suffix(after, history)
  {
    ChunkIs(history, summary, limits);
    var start, chunk := StartAfter(history, summary), Chunk(history, summary, limits);
    var end := start + |chunk|;
    assert chunk[|chunk| - 1] == history[end - 1];
    UniqueIndex(history, end - 1);
    assert StartAfter(history, Some(Summary(chunk[|chunk| - 1].id, content))) == end;
    hide StartAfter, Chunk, UniqueIds, Suffix;
    SplitAt(history, start, end);
    SuffixFrom(history, start);
    SuffixFrom(history, end);
  }

  // What compaction has done since it had `summary` at pass `passes`
  predicate Progress(history: seq<Item>, summary: Option<Summary>, limits: Limits, passes: nat, c: Compacted) {
    var before := HistoryAfter(history, summary);
    && c.remaining == HistoryAfter(history, c.summary)
    && Suffix(c.remaining, before) && Suffix(before, history)
    && (c.passes > passes ==>
          && c.summary.Some? && |c.remaining| < |history|
          && history[|history| - |c.remaining| - 1].id == c.summary.value.through)
    && (c.passes == passes ==> c.summary == summary)
    && passes <= c.passes <= limits.maxPasses
    && |c.remaining| + (c.passes - passes) <= |before|
    && (|before| >= limits.preserve ==> |c.remaining| >= limits.preserve)
    && (c.degraded.None? ==> !TooLong(c.remaining, limits))
  }

  lemma NextThrough(history: seq<Item>, next: Summary, before: seq<Item>, chunk: seq<Item>)
    requires chunk != [] && next.through == chunk[|chunk| - 1].id
    requires before == chunk + HistoryAfter(history, Some(next)) && Suffix(before, history)
    ensures var after := HistoryAfter(history, Some(next));
            |after| < |history| && history[|history| - |after| - 1].id == next.through
  {
    hide HistoryAfter;
    var after := HistoryAfter(history, Some(next));
    assert before[|chunk| - 1] == chunk[|chunk| - 1];
  }

  lemma ProgressStep(history: seq<Item>, summary: Option<Summary>, limits: Limits, passes: nat, next: Summary,
                     chunk: seq<Item>, c: Compacted)
    requires chunk != [] && next.through == chunk[|chunk| - 1].id
    requires var before, after := HistoryAfter(history, summary), HistoryAfter(history, Some(next));
             before == chunk + after && limits.preserve <= |after| && Suffix(before, history) && Suffix(after, history)
    requires Progress(history, Some(next), limits, passes + 1, c)
    ensures Progress(history, summary, limits, passes, c)
  {
    hide HistoryAfter, TooLong, Suffix;
    NextThrough(history, next, HistoryAfter(history, summary), chunk);
    SuffixOfConcat(chunk, HistoryAfter(history, Some(next)), c.remaining);
  }

  lemma FinishProgress(history: seq<Item>, summary: Option<Summary>, limits: Limits, failed: bool, passes: nat)
    requires passes <= limits.maxPasses
    ensures Progress(history, summary, limits, passes, Finish(history, summary, limits, failed, passes))
  {
    hide TooLong;
  }

  /** Compaction ends within the pass limit with a suffix of the history: every message is at or before the
      summary's last message or still in the tail, each pass takes at least one message, the recent messages
      are never summarised, and only a failure or the limits leave it too long. */
  lemma {:induction false} CompactSound(
    history: seq<Item>, summary: Option<Summary>, limits: Limits, outcomes: nat -> Outcome, passes: nat)
    requires UniqueIds(history) && passes <= limits.maxPasses
    requires Compact(history, summary, limits, outcomes, passes).Ok?
    ensures Progress(history, summary, limits, passes, Compact(history, summary, limits, outcomes, passes).value)
    decreases limits.maxPasses - passes
  {
    hide TooLong, UniqueIds, Progress, Chunk, Finish, HistoryAfter, Suffix;
    var chunk := Chunk(history, summary, limits);
    FinishProgress(history, summary, limits, false, passes);
    FinishProgress(history, summary, limits, true, passes);
    if TooLong(HistoryAfter(history, summary), limits) && passes < limits.maxPasses && chunk != [] &&
          outcomes(passes).Summarised? {
      var next := Summary(chunk[|chunk| - 1].id, Clip(outcomes(passes).content, 512));
      PassShortens(history, summary, limits, next.content);
      CompactSound(history, Some(next), limits, outcomes, passes + 1);
      ProgressStep(history, summary, limits, passes, next, chunk,
                   Compact(history, Some(next), limits, outcomes, passes + 1).value);
    }
  }

  // The summary after `k` passes that all succeeded: each covers one more chunk of the tail.
  function SummaryAfter(history: seq<Item>, stored: Option<Summary>, limits: Limits, outcomes: nat -> Outcome, k: nat)
    : Option<Summary>
  {
    if k == 0 then stored
    else
      var before := SummaryAfter(history, stored, limits, outcomes, k - 1);
      var chunk := Chunk(history, before, limits);
      if chunk == [] || !outcomes(k - 1).Summarised? then before
      else Some(Summary(chunk[|chunk| - 1].id, Clip(outcomes(k - 1).content, 512)))
  }

  // More messages than are to be kept, whose estimate is over the threshold
  predicate Exceeds(remaining: seq<Item>, limits: Limits) {
    |remaining| > limits.preserve && 3 + Cost(Provider(remaining)) > limits.threshold
  }

  // What is still to be sent after `k` such passes is too long, and may be summarised further.
  predicate Due(history: seq<Item>, stored: Option<Summary>, limits: Limits, outcomes: nat -> Outcome, k: nat) {
    k < limits.maxPasses && limits.preserve > 0 &&
    Exceeds(HistoryAfter(history, SummaryAfter(history, stored, limits, outcomes, k)), limits)
  }

  // The first `k` passes were due, and all of them succeeded.
  predicate Passed(history: seq<Item>, stored: Option<Summary>, limits: Limits, outcomes: nat -> Outcome, k: nat) {
    forall j :: 0 <= j < k ==> Due(history, stored, limits, outcomes, j) && outcomes(j).Summarised?
  }

  /** A chunk is empty exactly if nothing may be summarised: no message lies before the recent ones, or none is
      to be kept, in which case the slice that sets them apart is empty. */
  lemma ChunkEmptyIff(history: seq<Item>, summary: Option<Summary>, limits: Limits)
    ensures Chunk(history, summary, limits) == [] <==>
              limits.preserve == 0 || |HistoryAfter(history, summary)| <= limits.preserve
  {
    hide HistoryAfter, ChunkEnd;
  }

  // The result after `k` passes: no further one was due, or it did not succeed.
  predicate EndsAfter(history: seq<Item>, stored: Option<Summary>, limits: Limits, outcomes: nat -> Outcome, k: nat,
                      r: Result<Compacted, ()>)
  {
    var summary := SummaryAfter(history, stored, limits, outcomes, k);
    var remaining := HistoryAfter(history, summary);
    && Passed(history, stored, limits, outcomes, k)
    && (Due(history, stored, limits, outcomes, k) ==> !outcomes(k).Summarised?)
    && (r.Err? <==> Due(history, stored, limits, outcomes, k) && outcomes(k).Cancels?)
    && (r.Ok? ==>
          && r.value.summary == summary && r.value.remaining == remaining && r.value.passes == k
          && (r.value.degraded == None <==> !Exceeds(remaining, limits))
          && (r.value.degraded == Some(SummaryFailed) <==>
                Due(history, stored, limits, outcomes, k) && outcomes(k).ProviderFails?)
          && (r.value.degraded == Some(CatchUpLimited) <==>
                Exceeds(remaining, limits) && (k >= limits.maxPasses || limits.preserve == 0)))
  }

  // What one pass more leads to, from the summary after `k` passes
  lemma CompactStep(history: seq<Item>, stored: Option<Summary>, limits: Limits, outcomes: nat -> Outcome, k: nat)
    ensures var summary, r := SummaryAfter(history, stored, limits, outcomes, k),
                              Compact(history, SummaryAfter(history, stored, limits, outcomes, k), limits, outcomes, k);
            if !Due(history, stored, limits, outcomes, k) then r == Ok(Finish(history, summary, limits, false, k))
            else match outcomes(k)
              case Cancels => r == Err(())
              case ProviderFails => r == Ok(Finish(history, summary, limits, true, k))
              case Summarised(_) =>
                r == Compact(history, SummaryAfter(history, stored, limits, outcomes, k + 1), limits, outcomes, k + 1)
  {
    hide HistoryAfter, Chunk, Finish, Provider, Cost;
    ChunkEmptyIff(history, SummaryAfter(history, stored, limits, outcomes, k), limits);
  }

  lemma FinishEnds(history: seq<Item>, stored: Option<Summary>, limits: Limits, outcomes: nat -> Outcome, k: nat)
    requires Passed(history, stored, limits, outcomes, k)
    requires Due(history, stored, limits, outcomes, k) ==> !outcomes(k).Summarised?
    ensures var summary := SummaryAfter(history, stored, limits, outcomes, k);
            var r := if Due(history, stored, limits, outcomes, k) && outcomes(k).Cancels? then Err(())
                     else Ok(Finish(history, summary, limits, Due(history, stored, limits, outcomes, k), k));
            EndsAfter(history, stored, limits, outcomes, k, r)
  {
    hide HistoryAfter, SummaryAfter, Passed, Provider, Cost;
  }

  lemma PassedMore(history: seq<Item>, stored: Option<Summary>, limits: Limits, outcomes: nat -> Outcome, k: nat)
    requires Passed(history, stored, limits, outcomes, k)
    requires Due(history, stored, limits, outcomes, k) && outcomes(k).Summarised?
    ensures Passed(history, stored, limits, outcomes, k + 1)
  {
    hide Due;
  }

  lemma {:induction false} CompactFrom(
    history: seq<Item>, stored: Option<Summary>, limits: Limits, outcomes: nat -> Outcome, k: nat) returns (n: nat)
    requires Passed(history, stored, limits, outcomes, k) && k <= limits.maxPasses
    ensures var summary := SummaryAfter(history, stored, limits, outcomes, k);
            k <= n && EndsAfter(history, stored, limits, outcomes, n, Compact(history, summary, limits, outcomes, k))
    decreases limits.maxPasses - k
  {
    hide Compact, Finish, SummaryAfter, HistoryAfter, Exceeds, Passed, EndsAfter;
    CompactStep(history, stored, limits, outcomes, k);
    if Due(history, stored, limits, outcomes, k) && outcomes(k).Summarised? {
      PassedMore(history, stored, limits, outcomes, k);
      n := CompactFrom(history, stored, limits, outcomes, k + 1);
    } else {
      FinishEnds(history, stored, limits, outcomes, k);
      n := k;
    }
  }

  /** Compaction makes exactly the passes that are due: it stops at the first number of passes after which no
      further one is due or the next does not succeed. It is cancelled exactly if that next one is, degraded by a
      failed summary exactly if that next one fails, and degraded by the limits exactly if the tail is still too
      long and the passes are used up or no recent messages are kept. Every pass made was a success, and the last
      one's content, clipped, is the summary's. */
  lemma CompactReports(history: seq<Item>, stored: Option<Summary>, limits: Limits, outcomes: nat -> Outcome)
    returns (k: nat)
    ensures var r := Compact(history, stored, limits, outcomes, 0);
            && EndsAfter(history, stored, limits, outcomes, k, r)
            && (k > 0 && r.Ok? ==>
                  && outcomes(k - 1).Summarised? && r.value.summary.Some?
                  && r.value.summary.value.content == Clip(outcomes(k - 1).content, 512))
  {
    hide Compact, HistoryAfter, Chunk;
    k := CompactFrom(history, stored, limits, outcomes, 0);
    if k > 0 {
      var before := SummaryAfter(history, stored, limits, outcomes, k - 1);
      assert Due(history, stored, limits, outcomes, k - 1) && outcomes(k - 1).Summarised?;
      ChunkEmptyIff(history, before, limits);
    }
  }

  /** What one pass takes: the oldest messages not yet summarised, at least one, none of the recent ones; as many
      as fit the chunk budget beside the summary so far. */
  lemma ChunkTakes(history: seq<Item>, summary: Option<Summary>, limits: Limits)
    requires Chunk(history, summary, limits) != []
    ensures var chunk, rest := Chunk(history, summary, limits), HistoryAfter(history, summary);
            var start := if summary.Some? then Text(summary.value.content) else 0;
            && |chunk| <= |rest| - limits.preserve && chunk == rest[..|chunk|]
            && (|chunk| > 1 ==> start + TextCost(chunk) <= limits.chunkBudget)
            && (|chunk| < |rest| - limits.preserve ==>
                  start + TextCost(rest[..|chunk| + 1]) > limits.chunkBudget)
  {
    hide HistoryAfter, TextCost, ChunkEnd;
    var rest := HistoryAfter(history, summary);
    var eligible := DropLast(rest, limits.preserve);
    var start := if summary.Some? then Text(summary.value.content) else 0;
    assert eligible[..0] == [] && TextCost([]) == 0 by { NoCost(); }
    ChunkIsLongest(eligible, 0, start, limits.chunkBudget);
    var chunk := Chunk(history, summary, limits);
    assert chunk == rest[..|chunk|];
    assert |chunk| < |eligible| ==> eligible[..|chunk| + 1] == rest[..|chunk| + 1];
  }

  lemma NoCost()
    ensures TextCost([]) == 0
  {
  }

  method TakeChunk(eligible: seq<Item>, used0: int, budget: int) returns (chunk: seq<Item>)
    ensures chunk == eligible[..ChunkEnd(eligible, 0, used0, budget)]
  {
    chunk := [];
    var used, i := used0, 0;
    while i < |eligible|
      invariant 0 <= i <= |eligible| && chunk == eligible[..i]
      invariant ChunkEnd(eligible, 0, used0, budget) == ChunkEnd(eligible, i, used, budget)
    {
      var cost := Text(eligible[i].text) + 8;
      if chunk != [] && used + cost > budget {
        return;
      }
      chunk := chunk + [eligible[i]];
      used := used + cost;
      i := i + 1;
    }
  }

  method CompactIfNeeded(history: seq<Item>, stored: Option<Summary>, limits: Limits, outcomes: nat -> Outcome)
    returns (r: Result<Compacted, ()>)
    ensures r == Compact(history, stored, limits, outcomes, 0)
  {
    hide HistoryAfter, TooLong, ChunkEnd;
    var summary, passes := stored, 0;
    var remaining := HistoryAfter(history, summary);
    var failed := false;
    while TooLong(remaining, limits) && passes < limits.maxPasses
      invariant passes >= 0 && remaining == HistoryAfter(history, summary)
      invariant Compact(history, stored, limits, outcomes, 0) == Compact(history, summary, limits, outcomes, passes)
      decreases limits.maxPasses - passes
    {
      var eligible := DropLast(remaining, limits.preserve);
      var chunk := TakeChunk(eligible, if summary.Some? then Text(summary.value.content) else 0, limits.chunkBudget);
      if chunk == [] {
        break;
      }
      match outcomes(passes) {
        case Cancels =>
          return Err(());
        case ProviderFails =>
          failed := true;
          break;
        case Summarised(content) =>
          summary := Some(Summary(chunk[|chunk| - 1].id, Clip(content, 512)));
      }
      passes := passes + 1;
      remaining := HistoryAfter(history, summary);
    }
    r := Ok(Finish(history, summary, limits, failed, passes));
  }
}
