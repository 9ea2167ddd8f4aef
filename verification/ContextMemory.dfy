/**
 Choosing saved memories for a prompt: duplicates and what the transcript already says are left out, and
 the rest is taken in retrieval order while it fits.
 */
module ContextMemory {
  import opened Common
  import opened ContextPolicy

  // `norm` is the normalised content; `scope` is the priority of the memory's scope.
  datatype Memory = Memory(id: string, content: string, norm: string, scope: int, createdAt: int, rank: int)

  // The comparison that decides between two memories of equal normalised content
  predicate Supersedes(a: Memory, b: Memory) {
    if a.scope != b.scope then a.scope > b.scope
    else if a.createdAt != b.createdAt then a.createdAt > b.createdAt
    else !Less(a.id, b.id)
  }

  lemma SupersedesTotal(a: Memory, b: Memory)
    ensures Supersedes(a, b) || Supersedes(b, a)
  {
    if Less(a.id, b.id) && Less(b.id, a.id) {
      LessTransitive(a.id, b.id, a.id);
      LessIrreflexive(a.id);
    }
  }

  lemma SupersedesTransitive(a: Memory, b: Memory, c: Memory)
    requires Supersedes(a, b) && Supersedes(b, c)
    ensures Supersedes(a, c)
  {
    LessTotal(a.id, b.id);
    if Less(a.id, c.id) && a.id != b.id && Less(b.id, a.id) { LessTransitive(b.id, a.id, c.id); }
  }

  // The order in which memories are tried
  predicate Before(a: Memory, b: Memory) {
    if a.rank != b.rank then a.rank < b.rank
    else if a.scope != b.scope then a.scope > b.scope
    else if a.createdAt != b.createdAt then a.createdAt > b.createdAt
    else Less(a.id, b.id)
  }

  // ---------------------------------------------------------------------------
  // Duplicates

  // The position of the memory with this normalised content, or the length
  function Position(kept: seq<Memory>, norm: string): (r: nat)
    ensures r <= |kept| && (r < |kept| ==> kept[r].norm == norm)
    ensures forall j :: 0 <= j < r ==> kept[j].norm != norm
  {
    if kept == [] || kept[0].norm == norm then 0 else 1 + Position(kept[1..], norm)
  }

  function Distinguish(kept: seq<Memory>, item: Memory): seq<Memory> {
    var i := Position(kept, item.norm);
    if i == |kept| then kept + [item] else if Supersedes(item, kept[i]) then kept[i := item] else kept
  }

  predicate Useful(item: Memory, transcript: set<string>) {
    item.norm != "" && item.norm !in transcript
  }

  function Distinct(memories: seq<Memory>, transcript: set<string>): seq<Memory> {
    if memories == [] then []
    else
      var kept, last := Distinct(memories[..|memories| - 1], transcript), memories[|memories| - 1];
      if Useful(last, transcript) then Distinguish(kept, last) else kept
  }

  predicate NormsDiffer(kept: seq<Memory>) {
    forall i, j :: 0 <= i < j < |kept| ==> kept[i].norm != kept[j].norm
  }

  ghost predicate Represented(kept: seq<Memory>, m: Memory) {
    exists k :: k in kept && k.norm == m.norm && Supersedes(k, m)
  }

  // Exactly one memory is kept of each useful normalised content, and it supersedes the others.
  ghost predicate KeepsBest(kept: seq<Memory>, memories: seq<Memory>, transcript: set<string>) {
    && NormsDiffer(kept)
    && (forall k :: k in kept ==> k in memories && Useful(k, transcript))
    && (forall m :: m in memories && Useful(m, transcript) ==> Represented(kept, m))
  }

  lemma StaysRepresented(kept: seq<Memory>, item: Memory, m: Memory)
    requires NormsDiffer(kept) && Represented(kept, m)
    ensures Represented(Distinguish(kept, item), m)
  {
    var i, after := Position(kept, item.norm), Distinguish(kept, item);
    var k :| k in kept && k.norm == m.norm && Supersedes(k, m);
    var j :| 0 <= j < |kept| && kept[j] == k;
    assert after[j] in after;
    if after[j] != k {
      SupersedesTransitive(item, k, m);
    }
    hide Supersedes, Position;
  }

  lemma ItemRepresented(kept: seq<Memory>, item: Memory)
    ensures Represented(Distinguish(kept, item), item)
  {
    var i, after := Position(kept, item.norm), Distinguish(kept, item);
    SupersedesTotal(item, item);
    if i < |kept| { SupersedesTotal(item, kept[i]); }
    assert after[i] in after;
    hide Supersedes, Position;
  }

  lemma DistinguishDiffers(kept: seq<Memory>, item: Memory)
    requires NormsDiffer(kept)
    ensures NormsDiffer(Distinguish(kept, item))
    ensures forall k :: k in Distinguish(kept, item) ==> k in kept || k == item
  {
    hide Supersedes, Position;
  }

  lemma DistinguishKeeps(kept: seq<Memory>, memories: seq<Memory>, transcript: set<string>, item: Memory)
    requires KeepsBest(kept, memories, transcript) && Useful(item, transcript)
    ensures KeepsBest(Distinguish(kept, item), memories + [item], transcript)
  {
    DistinguishDiffers(kept, item);
    ItemRepresented(kept, item);
    forall m | m in memories && Useful(m, transcript) ensures Represented(Distinguish(kept, item), m) {
      StaysRepresented(kept, item, m);
    }
    hide Distinguish, Represented, NormsDiffer, Useful;
  }

  lemma {:induction false} DistinctKeeps(memories: seq<Memory>, transcript: set<string>)
    ensures KeepsBest(Distinct(memories, transcript), memories, transcript)
    ensures |Distinct(memories, transcript)| <= |memories|
  {
    if memories != [] {
      var init, last := memories[..|memories| - 1], memories[|memories| - 1];
      DistinctKeeps(init, transcript);
      assert memories == init + [last];
      assert forall m :: m in memories <==> m in init || m == last;
      if Useful(last, transcript) {
        DistinguishKeeps(Distinct(init, transcript), init, transcript, last);
      }
      hide Represented, NormsDiffer, Useful;
    }
  }

  // ---------------------------------------------------------------------------
  // Sorting and taking what fits

  function Insert(sorted: seq<Memory>, item: Memory): (r: seq<Memory>)
    ensures multiset(r) == multiset(sorted) + multiset{item}
  {
    if sorted == [] || !Before(item, sorted[|sorted| - 1]) then sorted + [item]
    else
      assert sorted == sorted[..|sorted| - 1] + [sorted[|sorted| - 1]];
      Insert(sorted[..|sorted| - 1], item) + [sorted[|sorted| - 1]]
  }

  function Sorted(items: seq<Memory>): (r: seq<Memory>)
    ensures multiset(r) == multiset(items)
  {
    if items == [] then []
    else
      assert items == items[..|items| - 1] + [items[|items| - 1]];
      Insert(Sorted(items[..|items| - 1]), items[|items| - 1])
  }

  function MemoryCost(item: Memory): int {
    Text(item.content) + 3
  }

  function TotalCost(items: seq<Memory>): int {
    if items == [] then 0 else TotalCost(items[..|items| - 1]) + MemoryCost(items[|items| - 1])
  }

  // The candidates taken in order while they fit
  function Taken(candidates: seq<Memory>, budget: int): seq<Memory> {
    if candidates == [] then []
    else
      var taken, last := Taken(candidates[..|candidates| - 1], budget), candidates[|candidates| - 1];
      if TotalCost(taken) + MemoryCost(last) > budget then taken else taken + [last]
  }

  // `_select_memories`: the memories selected, and how many are left out
  function SelectMemories(memories: seq<Memory>, transcript: set<string>, budget: int): (seq<Memory>, int) {
    var selected := Taken(Sorted(Distinct(memories, transcript)), budget);
    (selected, |memories| - |selected|)
  }

  lemma {:induction false} TakenFits(candidates: seq<Memory>, budget: int)
    requires budget >= 0
    ensures TotalCost(Taken(candidates, budget)) <= budget && |Taken(candidates, budget)| <= |candidates|
    ensures forall x :: x in Taken(candidates, budget) ==> x in candidates
    ensures forall x :: x in candidates && x !in Taken(candidates, budget) ==>
              TotalCost(Taken(candidates, budget)) + MemoryCost(x) > budget
  {
    hide MemoryCost;
    if candidates != [] {
      var init, last := candidates[..|candidates| - 1], candidates[|candidates| - 1];
      TakenFits(init, budget);
      assert forall x :: x in candidates <==> x in init || x == last;
      var taken := Taken(init, budget);
      assert (taken + [last])[..|taken|] == taken;
      assert MemoryCost(last) >= 0 by { CostPositive(last); }
    }
  }

  lemma CostPositive(item: Memory)
    ensures MemoryCost(item) >= 4
  {
  }

  predicate InOrder(items: seq<Memory>) {
    forall i, j :: 0 <= i < j < |items| ==> !Before(items[j], items[i])
  }

  lemma NotBeforeTransitive(a: Memory, b: Memory, c: Memory)
    requires !Before(b, a) && !Before(c, b)
    ensures !Before(c, a)
  {
    LessTotal(a.id, b.id);
    LessTotal(b.id, c.id);
    if Less(c.id, a.id) {
      if Less(a.id, b.id) { LessTransitive(c.id, a.id, b.id); }
      LessIrreflexive(c.id);
    }
  }

  predicate Follows(items: seq<Memory>, item: Memory) {
    forall x :: x in items ==> !Before(item, x) && x.norm != item.norm
  }

  lemma LastFollows(items: seq<Memory>)
    requires InOrder(items) && NormsDiffer(items) && items != []
    ensures var init := items[..|items| - 1];
            Follows(init, items[|items| - 1]) && InOrder(init) && NormsDiffer(init)
            && forall x :: x in items <==> x in init || x == items[|items| - 1]
  {
    hide Before;
  }

  lemma AppendKeeps(items: seq<Memory>, item: Memory)
    requires InOrder(items) && NormsDiffer(items) && Follows(items, item)
    ensures InOrder(items + [item]) && NormsDiffer(items + [item])
  {
    hide Before;
  }

  // Taking keeps the order and the differing contents.
  lemma {:induction false} TakenKeeps(candidates: seq<Memory>, budget: int)
    requires InOrder(candidates) && NormsDiffer(candidates) && budget >= 0
    ensures InOrder(Taken(candidates, budget)) && NormsDiffer(Taken(candidates, budget))
  {
    hide Before, MemoryCost, InOrder, NormsDiffer;
    if candidates != [] {
      var init, last := candidates[..|candidates| - 1], candidates[|candidates| - 1];
      LastFollows(candidates);
      TakenKeeps(init, budget);
      TakenFits(init, budget);
      AppendKeeps(Taken(init, budget), last);
    } else {
      assert InOrder([]) && NormsDiffer([]) by { NoneInOrder(); }
    }
  }

  lemma NoneInOrder()
    ensures InOrder([]) && NormsDiffer([])
  {
  }

  lemma {:induction false} InsertKeeps(sorted: seq<Memory>, item: Memory)
    requires InOrder(sorted) && NormsDiffer(sorted) && forall x :: x in sorted ==> x.norm != item.norm
    ensures InOrder(Insert(sorted, item)) && NormsDiffer(Insert(sorted, item))
    ensures forall x :: x in Insert(sorted, item) <==> x in sorted || x == item
  {
    hide Before, InOrder, NormsDiffer;
    if sorted == [] {
      NoneInOrder();
      AppendKeeps(sorted, item);
    } else {
      var init, last := sorted[..|sorted| - 1], sorted[|sorted| - 1];
      LastFollows(sorted);
      if Before(item, last) {
        InsertKeeps(init, item);
        BeforeAsymmetric(item, last);
        AppendKeeps(Insert(init, item), last);
      } else {
        forall x | x in init ensures !Before(item, x) { NotBeforeTransitive(x, last, item); }
        AppendKeeps(sorted, item);
      }
    }
  }

  lemma BeforeAsymmetric(a: Memory, b: Memory)
    requires Before(a, b)
    ensures !Before(b, a)
  {
    if Less(a.id, b.id) && Less(b.id, a.id) {
      LessTransitive(a.id, b.id, a.id);
      LessIrreflexive(a.id);
    }
  }

  lemma {:induction false} SortedKeeps(items: seq<Memory>)
    requires NormsDiffer(items)
    ensures InOrder(Sorted(items)) && NormsDiffer(Sorted(items)) && |Sorted(items)| == |items|
    ensures forall x :: x in Sorted(items) <==> x in items
  {
    if items != [] {
      var init, last := items[..|items| - 1], items[|items| - 1];
      SortedKeeps(init);
      assert forall x :: x in items <==> x in init || x == last;
      InsertKeeps(Sorted(init), last);
      assert |multiset(Sorted(items))| == |multiset(items)|;
      hide InOrder, Insert;
    }
  }

  /** Memory selection: included and left out make up what was retrieved; no two memories kept have equal
      normalised content, none of it is blank or already in the transcript, and each supersedes the others of
      its content; they stay in order and within the allowance; and whatever else was a candidate would not
      have fitted beside them. */
  lemma SelectedMemories(memories: seq<Memory>, transcript: set<string>, budget: int)
    requires budget >= 0
    ensures var (selected, omitted) := SelectMemories(memories, transcript, budget);
            && |selected| + omitted == |memories| && omitted >= 0
            && NormsDiffer(selected) && InOrder(selected) && TotalCost(selected) <= budget
            && (forall x :: x in selected ==>
                  && x in memories && Useful(x, transcript)
                  && forall m :: m in memories && m.norm == x.norm ==> Supersedes(x, m))
            && (forall m | m in memories && Useful(m, transcript) && forall x :: x in selected ==> x.norm != m.norm ::
                  exists best :: best in memories && best.norm == m.norm && Supersedes(best, m) &&
                                 TotalCost(selected) + MemoryCost(best) > budget)
  {
    var kept := Distinct(memories, transcript);
    DistinctKeeps(memories, transcript);
    SortedKeeps(kept);
    TakenFits(Sorted(kept), budget);
    TakenKeeps(Sorted(kept), budget);
    hide Distinct, Sorted, Taken, MemoryCost, Supersedes, InOrder, TotalCost;
    forall x, m | x in kept && m in memories && m.norm == x.norm ensures Supersedes(x, m) {
      assert Represented(kept, m);
    }
    forall m | m in memories && Useful(m, transcript)
      ensures exists best :: best in kept && best.norm == m.norm && Supersedes(best, m)
    {
      assert Represented(kept, m);
    }
  }

  /** Of memories with the same normalised content the one kept is of the highest scope, then the newest, then the
      one with the greatest id; and its content is neither blank nor in the transcript. */
  lemma BestCopyIsKept(memories: seq<Memory>, transcript: set<string>, budget: int, x: Memory, m: Memory)
    requires budget >= 0 && x in SelectMemories(memories, transcript, budget).0
    requires m in memories && m.norm == x.norm
    ensures x in memories && x.norm != "" && x.norm !in transcript
    ensures m.scope <= x.scope
    ensures m.scope == x.scope ==> m.createdAt <= x.createdAt
    ensures m.scope == x.scope && m.createdAt == x.createdAt ==> !Less(x.id, m.id)
  {
    hide SelectMemories;
    SelectedMemories(memories, transcript, budget);
    assert Supersedes(x, m);
  }

  /** The memories selected are in retrieval order; equal ranks go by scope, then by age with the newest first, then
      by id. */
  lemma SelectionOrder(memories: seq<Memory>, transcript: set<string>, budget: int, i: nat, j: nat)
    requires budget >= 0 && i < j < |SelectMemories(memories, transcript, budget).0|
    ensures var a, b := SelectMemories(memories, transcript, budget).0[i],
                        SelectMemories(memories, transcript, budget).0[j];
            && a.rank <= b.rank
            && (a.rank == b.rank ==> a.scope >= b.scope)
            && (a.rank == b.rank && a.scope == b.scope ==> a.createdAt >= b.createdAt)
            && (a.rank == b.rank && a.scope == b.scope && a.createdAt == b.createdAt ==> !Less(b.id, a.id))
  {
    hide SelectMemories;
    SelectedMemories(memories, transcript, budget);
    var selected := SelectMemories(memories, transcript, budget).0;
    assert !Before(selected[j], selected[i]);
  }

  // With the first `k` of those selected, which are all that come before it, the memory would exceed the allowance.
  predicate WouldExceed(selected: seq<Memory>, k: nat, x: Memory, budget: int)
    requires k <= |selected|
  {
    && TotalCost(selected[..k]) + Text(x.content) + 3 > budget
    && forall j :: k <= j < |selected| ==> !Before(selected[j], x)
  }

  lemma {:induction false} TakenGreedily(candidates: seq<Memory>, budget: int, x: Memory) returns (k: nat)
    requires InOrder(candidates) && x in candidates && x !in Taken(candidates, budget)
    ensures k <= |Taken(candidates, budget)| && WouldExceed(Taken(candidates, budget), k, x, budget)
  {
    hide Before, InOrder;
    var n := |candidates| - 1;
    var init, last := candidates[..n], candidates[n];
    var taken := Taken(init, budget);
    assert InOrder(init) && forall i :: 0 <= i < n ==> !Before(last, candidates[i]) by { LastIsLast(candidates); }
    if x in init {
      k := TakenGreedily(init, budget, x);
      var i :| 0 <= i < n && candidates[i] == x;
      assert !Before(last, x);
      assert (taken + [last])[..k] == taken[..k];
    } else {
      k := |taken|;
      assert taken[..k] == taken;
    }
  }

  lemma LastIsLast(candidates: seq<Memory>)
    requires InOrder(candidates) && candidates != []
    ensures var n := |candidates| - 1;
            InOrder(candidates[..n]) && forall i :: 0 <= i < n ==> !Before(candidates[n], candidates[i])
  {
    hide Before;
  }

  /** Memories are taken greedily: if no memory of a useful content is selected, the best copy of it would have
      exceeded the allowance together with those selected that come before it. */
  lemma OmittedDidNotFit(memories: seq<Memory>, transcript: set<string>, budget: int, m: Memory)
    returns (best: Memory, k: nat)
    requires budget >= 0 && m in memories && m.norm != "" && m.norm !in transcript
    requires forall x :: x in SelectMemories(memories, transcript, budget).0 ==> x.norm != m.norm
    ensures best in memories && best.norm == m.norm
    ensures forall other :: other in memories && other.norm == m.norm ==> Supersedes(best, other)
    ensures var selected := SelectMemories(memories, transcript, budget).0;
            k <= |selected| && WouldExceed(selected, k, best, budget)
  {
    hide Distinct, Sorted, Taken, Supersedes, InOrder, WouldExceed;
    var kept := Distinct(memories, transcript);
    DistinctKeeps(memories, transcript);
    SortedKeeps(kept);
    assert Represented(kept, m);
    best :| best in kept && best.norm == m.norm && Supersedes(best, m);
    forall other | other in memories && other.norm == m.norm ensures Supersedes(best, other) {
      assert Represented(kept, other);
    }
    k := TakenGreedily(Sorted(kept), budget, best);
  }

  // Sorting a list that is in order changes nothing.
  lemma {:induction false} SortedTwice(items: seq<Memory>)
    requires InOrder(items)
    ensures Sorted(items) == items
  {
    if items != [] {
      SortedTwice(items[..|items| - 1]);
    }
  }

  method SelectSavedMemories(memories: seq<Memory>, transcript: set<string>, budget: int)
    returns (selected: seq<Memory>, omitted: int)
    requires budget >= 0
    ensures (selected, omitted) == SelectMemories(memories, transcript, budget)
  {
    hide Supersedes, Before, MemoryCost, Sorted;
    var kept: seq<Memory> := [];
    omitted := 0;
    var i := 0;
    while i < |memories|
      invariant 0 <= i <= |memories|
      invariant kept == Distinct(memories[..i], transcript) && omitted == i - |kept|
    {
      assert memories[..i + 1][..i] == memories[..i];
      var item := memories[i];
      if !Useful(item, transcript) {
        omitted := omitted + 1;
      } else {
        var p := Position(kept, item.norm);
        if p == |kept| {
          kept := kept + [item];
        } else {
          omitted := omitted + 1;
          if Supersedes(item, kept[p]) {
            kept := kept[p := item];
          }
        }
      }
      i := i + 1;
    }
    assert memories[..i] == memories;
    DistinctKeeps(memories, transcript);
    SortedKeeps(kept);
    var candidates := Sorted(kept);
    selected, omitted := TakeFitting(candidates, budget, omitted);
    TakenKeeps(candidates, budget);
    SortedTwice(selected);
    selected := Sorted(selected);
  }

  method TakeFitting(candidates: seq<Memory>, budget: int, omitted0: int) returns (selected: seq<Memory>, omitted: int)
    ensures selected == Taken(candidates, budget) && omitted == omitted0 + |candidates| - |selected|
  {
    hide MemoryCost;
    var used, i := 0, 0;
    selected, omitted := [], omitted0;
    while i < |candidates|
      invariant 0 <= i <= |candidates| && selected == Taken(candidates[..i], budget)
      invariant used == TotalCost(selected) && omitted == omitted0 + i - |selected|
    {
      assert candidates[..i + 1][..i] == candidates[..i];
      var cost := MemoryCost(candidates[i]);
      if used + cost > budget {
        omitted := omitted + 1;
      } else {
        assert (selected + [candidates[i]])[..|selected|] == selected;
        selected := selected + [candidates[i]];
        used := used + cost;
      }
      i := i + 1;
    }
    assert candidates[..i] == candidates;
  }
}
