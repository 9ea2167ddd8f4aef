/**
 The streaming filter that removes protected system-prompt envelopes from persona output.

 `Syntax` holds what the filter compares with: the two markers in their folded form, and
 `casefold` as a function from one character to the text it folds to. Python slices clamp their
 bounds and count negative bounds from the end; `PyTake` and `PyDrop` spell that out, because the
 source cuts the original text at offsets measured in its folded copy.
 */
module PersonaOutput {
  import opened Common

  type Syntax = s: Markup | s.WellFormed() witness SystemPromptMarkup(c => [c])

  datatype Markup = Markup(fold: char -> string, open: string, close: string) {
    // A '[' opens a marker and occurs nowhere else in one; neither marker begins with the other.
    predicate WellFormed() {
      && Bracketed(open) && Bracketed(close)
      && !(open <= close) && !(close <= open)
    }

    function Casefold(s: string): string {
      if s == "" then "" else fold(s[0]) + Casefold(s[1..])
    }

    // Every character folds to exactly one character.
    predicate Plain(s: string) {
      forall i :: 0 <= i < |s| ==> |fold(s[i])| == 1
    }

    predicate Begins(t: string) {
      open <= t || close <= t
    }

    // The last n characters could still grow into a marker.
    predicate Holdable(f: string, n: nat) {
      CouldGrow(f, n, open) || CouldGrow(f, n, close)
    }
  }

  predicate CouldGrow(f: string, n: nat, marker: string) {
    n <= |f| && f[|f| - n..] < marker
  }

  predicate Bracketed(m: string) {
    |m| >= 2 && m[0] == '[' && forall i :: 0 < i < |m| ==> m[i] != '['
  }

  function SystemPromptMarkup(fold: char -> string): (y: Markup)
    ensures y.WellFormed() && |y.open| == 15 && |y.close| == 16
  {
    var y := Markup(fold, "[system_prompt]", "[/system_prompt]");
    assert y.open[1] != y.close[1];
    y
  }

  function SystemPrompt(fold: char -> string): (y: Syntax)
    ensures |y.open| == 15 && |y.close| == 16
  {
    SystemPromptMarkup(fold)
  }

  // s[:n]
  function PyTake(s: string, n: int): string {
    if n >= 0 then (if n <= |s| then s[..n] else s)
    else if |s| + n >= 0 then s[..|s| + n] else ""
  }

  // s[n:]
  function PyDrop(s: string, n: int): string {
    if n >= 0 then (if n <= |s| then s[n..] else "")
    else if |s| + n >= 0 then s[|s| + n..] else s
  }

  // str.find: the first index at which m begins, or -1
  function Find(s: string, m: string, from: nat := 0): (r: int)
    requires from <= |s|
    ensures r == -1 || (from <= r && r + |m| <= |s|)
    decreases |s| - from
  {
    if m <= s[from..] then from
    else if from == |s| then -1
    else Find(s, m, from + 1)
  }

  lemma {:induction false} FindIsFirst(s: string, m: string, from: nat)
    requires from <= |s|
    ensures Find(s, m, from) != -1 ==> m <= s[Find(s, m, from)..]
    ensures forall i :: from <= i <= |s| && (Find(s, m, from) == -1 || i < Find(s, m, from)) ==> !(m <= s[i..])
    decreases |s| - from
  {
    if !(m <= s[from..]) && from < |s| {
      FindIsFirst(s, m, from + 1);
    }
  }

  datatype Match = Match(at: nat, opening: bool, size: nat)

  // min(matches, key=index) over the two markers, in their declared order
  function FirstMarker(y: Syntax, f: string): (r: Option<Match>)
    ensures r.Some? ==> r.value.at + r.value.size <= |f|
    ensures r.Some? ==> r.value.size == |if r.value.opening then y.open else y.close|
  {
    var o := Find(f, y.open);
    var c := Find(f, y.close);
    if o >= 0 && (c < 0 || o <= c) then Some(Match(o, true, |y.open|))
    else if c >= 0 then Some(Match(c, false, |y.close|))
    else None
  }

  lemma FirstMarkerIsFirst(y: Syntax, f: string)
    ensures FirstMarker(y, f) == None ==> forall i :: 0 <= i <= |f| ==> !y.Begins(f[i..])
    ensures FirstMarker(y, f).Some? ==>
              var m := FirstMarker(y, f).value;
              && f[m.at..m.at + m.size] == (if m.opening then y.open else y.close)
              && forall i :: 0 <= i < m.at ==> !y.Begins(f[i..])
  {
    hide Find;
    FindIsFirst(f, y.open, 0);
    FindIsFirst(f, y.close, 0);
  }

  function LongestHoldable(y: Syntax, f: string, bound: nat := |f|): (r: nat)
    ensures r <= bound
  {
    if bound == 0 || y.Holdable(f, bound) then bound else LongestHoldable(y, f, bound - 1)
  }

  lemma {:induction false} LongestIsLongest(y: Syntax, f: string, bound: nat)
    ensures y.Holdable(f, LongestHoldable(y, f, bound))
    ensures forall n: nat :: n <= bound && y.Holdable(f, n) ==> n <= LongestHoldable(y, f, bound)
  {
    if bound > 0 && !y.Holdable(f, bound) {
      LongestIsLongest(y, f, bound - 1);
    }
  }

  /** `_longest_marker_prefix_suffix`: the loops over the two markers find the longest holdable tail. */
  method LongestMarkerPrefixSuffix(y: Syntax, f: string) returns (longest: nat)
    ensures y.Holdable(f, longest)
    ensures forall n: nat :: y.Holdable(f, n) ==> n <= longest
    ensures longest == LongestHoldable(y, f)
  {
    LongestIsLongest(y, f, |f|);
    longest := 0;
    var markers := [y.open, y.close];
    for k := 0 to 2
      invariant y.Holdable(f, longest)
      invariant k >= 1 ==> forall n: nat :: CouldGrow(f, n, y.open) ==> n <= longest
      invariant k >= 2 ==> forall n: nat :: CouldGrow(f, n, y.close) ==> n <= longest
    {
      longest := LongestFor(f, markers[k], longest);
    }
  }

  // The inner loop: lengths above the best so far, longest first, up to the first that fits.
  method LongestFor(f: string, marker: string, soFar: nat) returns (longest: nat)
    requires marker != ""
    ensures longest == soFar || CouldGrow(f, longest, marker)
    ensures soFar <= longest && forall n: nat :: CouldGrow(f, n, marker) ==> n <= longest
  {
    longest := soFar;
    var length: int := if |f| < |marker| - 1 then |f| else |marker| - 1;
    while length > longest
      invariant longest == soFar && length <= |f| && length <= |marker| - 1
      invariant forall n: nat :: CouldGrow(f, n, marker) ==> n <= longest || n <= length
    {
      if f[|f| - length..] == marker[..length] {
        longest := length;
        assert CouldGrow(f, longest, marker);
        return;
      }
      assert !CouldGrow(f, length, marker);
      length := length - 1;
    }
  }

  // ---------------------------------------------------------------------------
  // One call of `feed`, as a function of the state it starts from

  datatype State = State(pending: string, depth: nat, removed: bool)

  datatype Fed = Fed(emitted: string, after: State)

  // One iteration of the loop; `again` is false where the source breaks out of it.
  datatype Iteration = Iteration(emitted: string, after: State, again: bool)

  function Once(y: Syntax, s: State): (r: Iteration)
    requires s.pending != ""
    ensures r.again ==> |r.after.pending| < |s.pending|
  {
    var folded := y.Casefold(s.pending);
    match FirstMarker(y, folded)
    case Some(m) =>
      var rest := PyDrop(s.pending, m.at + m.size);
      if s.depth > 0 then
        Iteration("", State(rest, if m.opening then s.depth + 1 else s.depth - 1, true), true)
      else
        Iteration(PyTake(s.pending, m.at), State(rest, if m.opening then 1 else 0, true), true)
    case None =>
      var keep: int := LongestHoldable(y, folded);
      if s.depth > 0 then
        Iteration("", State(if keep > 0 then PyDrop(s.pending, -keep) else "", s.depth,
                            s.removed || |s.pending| > keep), false)
      else
        var safe := |s.pending| - keep;
        Iteration(if safe != 0 then PyTake(s.pending, safe) else "",
                  State(PyDrop(s.pending, safe), 0, s.removed), false)
  }

  function Prefixed(shown: string, r: Fed): Fed {
    r.(emitted := shown + r.emitted)
  }

  function FeedLoop(y: Syntax, s: State): Fed
    decreases |s.pending|
  {
    if s.pending == "" then Fed("", s)
    else
      var i := Once(y, s);
      if i.again then Prefixed(i.emitted, FeedLoop(y, i.after)) else Fed(i.emitted, i.after)
  }

  lemma FeedLoopDone(y: Syntax, s: State, shown: string)
    requires s.pending == ""
    ensures Prefixed(shown, FeedLoop(y, s)) == Fed(shown, s)
  {
    assert shown + "" == shown;
  }

  lemma FeedLoopOnce(y: Syntax, s: State, shown: string)
    requires s.pending != ""
    ensures var i := Once(y, s);
            Prefixed(shown, FeedLoop(y, s)) ==
            if i.again then Prefixed(shown + i.emitted, FeedLoop(y, i.after)) else Fed(shown + i.emitted, i.after)
  {
    var i := Once(y, s);
    if i.again {
      var rest := FeedLoop(y, i.after);
      assert shown + (i.emitted + rest.emitted) == shown + i.emitted + rest.emitted;
    }
  }

  function FeedChunk(y: Syntax, s: State, chunk: string): Fed
  {
    FeedLoop(y, s.(pending := s.pending + chunk))
  }

  const START: State := State("", 0, false)

  // All chunks fed one after the other
  function FeedAll(y: Syntax, chunks: seq<string>): Fed
  {
    if chunks == [] then Fed("", START)
    else
      var before := FeedAll(y, chunks[..|chunks| - 1]);
      var last := FeedChunk(y, before.after, chunks[|chunks| - 1]);
      Fed(before.emitted + last.emitted, last.after)
  }

  datatype Sanitized = Sanitized(text: string, removed: bool)

  function Ending(s: State): Sanitized {
    if s.depth > 0 then Sanitized("", s.removed || s.pending != "") else Sanitized(s.pending, s.removed)
  }

  // What a caller collects who feeds every chunk and then finishes
  function Filtered(y: Syntax, chunks: seq<string>): Sanitized
  {
    var fed := FeedAll(y, chunks);
    Sanitized(fed.emitted + Ending(fed.after).text, Ending(fed.after).removed)
  }

  function Concat(chunks: seq<string>): string {
    if chunks == [] then "" else Concat(chunks[..|chunks| - 1]) + chunks[|chunks| - 1]
  }

  class PersonaOutputStreamFilter {
    const syntax: Syntax
    var pending: string
    var depth: nat
    var removed: bool
    var finished: bool
    ghost var chunks: seq<string> // every chunk fed so far
    ghost var shown: string       // everything returned to the caller so far

    ghost predicate Valid()
      reads this
    {
      && (!finished ==> FeedAll(syntax, chunks) == Fed(shown, State(pending, depth, removed)))
      && (finished ==> Filtered(syntax, chunks) == Sanitized(shown, removed))
    }

    constructor (fold: char -> string)
      ensures Valid() && !finished && chunks == [] && shown == "" && syntax == SystemPrompt(fold)
    {
      syntax := SystemPrompt(fold);
      pending, depth, removed, finished := "", 0, false, false;
      chunks, shown := [], "";
    }

    method Feed(chunk: string) returns (r: Result<Sanitized, string>)
      requires Valid()
      modifies this
      ensures Valid() && finished == old(finished)
      ensures old(finished) ==> r.Err? && unchanged(this)
      ensures !old(finished) ==>
                && r.Ok? && chunks == old(chunks) + [chunk]
                && shown == old(shown) + r.value.text && removed == r.value.removed
                && Fed(r.value.text, State(pending, depth, removed)) ==
                   FeedChunk(syntax, old(State(pending, depth, removed)), chunk)
    {
      if finished {
        return Err("persona output stream filter is already finished");
      }
      pending := pending + chunk;
      var emitted := Drain();
      assert (chunks + [chunk])[..|chunks|] == chunks;
      chunks := chunks + [chunk];
      shown := shown + emitted;
      r := Ok(Sanitized(emitted, removed));
    }

    // The scanning loop of `feed`
    method Drain() returns (emitted: string)
      modifies `pending, `depth, `removed
      ensures Fed(emitted, State(pending, depth, removed)) ==
              FeedLoop(syntax, old(State(pending, depth, removed)))
    {
      hide FeedLoop, FirstMarker, LongestHoldable, PyTake, PyDrop;
      ghost var target := FeedLoop(syntax, State(pending, depth, removed));
      emitted := "";
      while pending != ""
        invariant target == Prefixed(emitted, FeedLoop(syntax, State(pending, depth, removed)))
        decreases |pending|
      {
        ghost var i := Once(syntax, State(pending, depth, removed));
        ghost var was := emitted;
        FeedLoopOnce(syntax, State(pending, depth, removed), emitted);
        var folded := syntax.Casefold(pending);
        var found := FirstMarker(syntax, folded);
        if depth > 0 {
          if found.Some? {
            removed := true;
            pending := PyDrop(pending, found.value.at + found.value.size);
            depth := if found.value.opening then depth + 1 else depth - 1;
            assert i == Iteration("", State(pending, depth, removed), true) && emitted + "" == emitted;
            continue;
          }
          var keep: int := LongestMarkerPrefixSuffix(syntax, folded);
          if |pending| > keep {
            removed := true;
          }
          pending := if keep > 0 then PyDrop(pending, -keep) else "";
          assert i == Iteration("", State(pending, depth, removed), false) && emitted + "" == emitted;
          return;
        }
        if found.Some? {
          emitted := emitted + PyTake(pending, found.value.at);
          pending := PyDrop(pending, found.value.at + found.value.size);
          removed := true;
          if found.value.opening {
            depth := 1;
          }
          assert i.after == State(pending, depth, removed) && i.again && emitted == was + i.emitted;
          continue;
        }
        var keep: int := LongestMarkerPrefixSuffix(syntax, folded);
        var safe := |pending| - keep;
        if safe != 0 {
          emitted := emitted + PyTake(pending, safe);
        }
        pending := PyDrop(pending, safe);
        assert i.after == State(pending, depth, removed) && !i.again && emitted == was + i.emitted;
        return;
      }
      FeedLoopDone(syntax, State(pending, depth, removed), emitted);
    }

    method Finish() returns (r: Sanitized)
      requires Valid()
      modifies this
      ensures Valid() && finished && chunks == old(chunks)
      ensures shown == old(shown) + r.text && removed == r.removed
      ensures !old(finished) ==> r == Ending(old(State(pending, depth, removed)))
      ensures old(finished) ==> r == Sanitized("", old(removed))
    {
      if finished {
        return Sanitized("", removed);
      }
      var emitted := "";
      if depth > 0 {
        if pending != "" {
          removed := true;
        }
      } else {
        emitted := pending;
      }
      pending := "";
      finished := true;
      shown := shown + emitted;
      r := Sanitized(emitted, removed);
    }
  }

  /** `sanitize_persona_output`: one complete response through a filter of its own. */
  method SanitizePersonaOutput(fold: char -> string, text: string) returns (r: Sanitized)
    ensures r == Filtered(SystemPrompt(fold), [text])
    ensures SystemPrompt(fold).Plain(text) ==>
              r == Sanitized(Reference(SystemPrompt(fold), text).text, Reference(SystemPrompt(fold), text).removed)
  {
    hide FeedAll, FeedLoop, Filtered, ScanFrom, SystemPrompt;
    var filter := new PersonaOutputStreamFilter(fold);
    var streamed := filter.Feed(text);
    var ended := filter.Finish();
    r := Sanitized(streamed.value.text + ended.text, ended.removed);
    assert filter.chunks == [text] && filter.shown == r.text;
    if SystemPrompt(fold).Plain(text) {
      assert Concat([text]) == text;
      StreamingMatchesScanner(SystemPrompt(fold), [text]);
    }
  }

  // ---------------------------------------------------------------------------
  // The reference: one pass over the whole text, one character at a time

  datatype Scanned = Scanned(text: string, depth: nat, removed: bool)

  function Scan(y: Syntax, t: string, f: string, depth: nat): Scanned
    requires |t| == |f|
    decreases |t|
  {
    if t == "" then Scanned("", depth, false)
    else if y.open <= f then
      Scan(y, t[|y.open|..], f[|y.open|..], depth + 1).(removed := true)
    else if y.close <= f then
      Scan(y, t[|y.close|..], f[|y.close|..], if depth > 0 then depth - 1 else 0).(removed := true)
    else
      var r := Scan(y, t[1..], f[1..], depth);
      if depth == 0 then r.(text := [t[0]] + r.text) else r.(removed := true)
  }

  function ScanFrom(y: Syntax, text: string, depth: nat): Scanned
    requires y.Plain(text)
  {
    PlainFold(y, text);
    Scan(y, text, y.Casefold(text), depth)
  }

  function Reference(y: Syntax, text: string): Scanned
    requires y.Plain(text)
  {
    ScanFrom(y, text, 0)
  }

  // ---------------------------------------------------------------------------
  // Folding

  lemma {:induction false} CasefoldConcat(y: Syntax, a: string, b: string)
    ensures y.Casefold(a + b) == y.Casefold(a) + y.Casefold(b)
  {
    if a == "" {
      assert a + b == b;
    } else {
      assert (a + b)[1..] == a[1..] + b;
      CasefoldConcat(y, a[1..], b);
    }
  }

  lemma {:induction false} PlainFold(y: Syntax, s: string)
    requires y.Plain(s)
    ensures |y.Casefold(s)| == |s|
  {
    if s != "" {
      assert forall i :: 0 <= i < |s| - 1 ==> s[1..][i] == s[i + 1];
      PlainFold(y, s[1..]);
    }
  }

  lemma PlainFoldDrop(y: Syntax, s: string, i: nat)
    requires y.Plain(s) && i <= |s|
    ensures y.Plain(s[i..]) && |y.Casefold(s)| == |s|
    ensures y.Casefold(s[i..]) == y.Casefold(s)[i..]
  {
    assert y.Plain(s[..i]) && y.Plain(s[i..]);
    assert s == s[..i] + s[i..];
    CasefoldConcat(y, s[..i], s[i..]);
    PlainFold(y, s);
    PlainFold(y, s[..i]);
  }

  // ---------------------------------------------------------------------------
  // Matching

  // A marker that begins before position k and is not yet complete there has no '[' at k.
  lemma NoBracketInside(y: Syntax, g: string, i: nat, k: nat)
    requires i < k < |g| && g[k] == '['
    ensures y.open <= g[i..] ==> i + |y.open| <= k
    ensures y.close <= g[i..] ==> i + |y.close| <= k
    ensures !(g[i..] < y.open) && !(g[i..] < y.close)
  {
    assert g[i..][k - i] == '[';
  }

  // Text that arrives later cannot create a marker before the first one.
  lemma NoMarkerBeforeMatch(y: Syntax, f: string, x: string, m: Match, i: nat)
    requires FirstMarker(y, f) == Some(m) && i < m.at
    ensures !y.Begins((f + x)[i..])
  {
    FirstMarkerIsFirst(y, f);
    var g := f + x;
    assert f[m.at..m.at + m.size][0] == '[';
    NoBracketInside(y, g, i, m.at);
    forall p: string | p <= g[i..] && i + |p| <= m.at ensures p <= f[i..] {
      assert g[i..][..|p|] == f[i..][..|p|];
    }
  }

  // Without a match, only the held-back tail can become part of a marker.
  lemma NoMarkerBeforeTail(y: Syntax, f: string, x: string, i: nat)
    requires FirstMarker(y, f) == None && i + LongestHoldable(y, f) < |f|
    ensures !y.Begins((f + x)[i..])
  {
    FirstMarkerIsFirst(y, f);
    LongestIsLongest(y, f, |f|);
    var g := f + x;
    assert g[i..] == f[i..] + x;
    assert !y.Begins(f[i..]);
    assert !y.Holdable(f, |f| - i);
    assert f[|f| - (|f| - i)..] == f[i..];
    NotLonger(y.open, f[i..], x);
    NotLonger(y.close, f[i..], x);
  }

  lemma NotLonger(p: string, t: string, x: string)
    requires !(p <= t) && !(t < p)
    ensures !(p <= t + x)
  {
    if |p| <= |t| {
      assert (t + x)[..|p|] == t[..|p|];
    } else {
      assert (t + x)[..|t|] == t;
    }
  }

  // ---------------------------------------------------------------------------
  // The scanner

  // No marker begins at the first m positions.
  predicate NoneBegins(y: Syntax, f: string, m: nat)
    requires m <= |f|
  {
    forall i :: 0 <= i < m ==> !y.Begins(f[i..])
  }

  lemma NoneBeginsTail(y: Syntax, f: string, m: nat)
    requires 0 < m <= |f| && NoneBegins(y, f, m)
    ensures !y.Begins(f) && NoneBegins(y, f[1..], m - 1)
  {
    assert f[0..] == f;
    forall i | 0 <= i < m - 1 ensures !y.Begins(f[1..][i..]) { assert f[1..][i..] == f[i + 1..]; }
  }

  lemma {:induction false} ScanSkips(y: Syntax, t: string, f: string, depth: nat, m: nat)
    requires |t| == |f| && m <= |t| && NoneBegins(y, f, m)
    ensures Scan(y, t, f, depth) ==
            var r := Scan(y, t[m..], f[m..], depth);
            Scanned((if depth == 0 then t[..m] else "") + r.text, r.depth, r.removed || (m > 0 && depth > 0))
  {
    hide Scan, NoneBegins;
    if m == 0 {
      assert t[0..] == t && f[0..] == f;
    } else {
      NoneBeginsTail(y, f, m);
      ScanSkips(y, t[1..], f[1..], depth, m - 1);
      ScanShows(y, t, f, depth);
      assert t[1..][m - 1..] == t[m..] && f[1..][m - 1..] == f[m..];
      assert [t[0]] + t[1..][..m - 1] == t[..m];
    }
  }

  lemma ScanShows(y: Syntax, t: string, f: string, depth: nat)
    requires |t| == |f| && t != "" && !y.Begins(f)
    ensures Scan(y, t, f, depth) ==
            var r := Scan(y, t[1..], f[1..], depth);
            if depth == 0 then r.(text := [t[0]] + r.text) else r.(removed := true)
  {
  }

  function Nesting(depth: nat, opening: bool): nat {
    if opening then depth + 1 else if depth > 0 then depth - 1 else 0
  }

  lemma ScanMarker(y: Syntax, t: string, g: string, depth: nat, m: Match)
    requires |t| == |g| && m.at + m.size <= |g|
    requires g[m.at..m.at + m.size] == if m.opening then y.open else y.close
    ensures Scan(y, t[m.at..], g[m.at..], depth) ==
            Scan(y, t[m.at + m.size..], g[m.at + m.size..], Nesting(depth, m.opening)).(removed := true)
  {
    var h := g[m.at..];
    assert h[..m.size] == g[m.at..m.at + m.size];
    if !m.opening {
      NotBoth(y, h);
    }
    assert t[m.at..][m.size..] == t[m.at + m.size..] && h[m.size..] == g[m.at + m.size..];
  }

  lemma NotBoth(y: Syntax, h: string)
    requires y.close <= h
    ensures !(y.open <= h)
  {
    if |y.open| <= |y.close| {
      assert h[..|y.open|] == y.close[..|y.open|];
    } else {
      assert |h| >= |y.open| ==> h[..|y.open|][..|y.close|] == y.close;
    }
  }

  lemma AppendSlices(p: string, x: string, i: nat)
    requires i <= |p|
    ensures (p + x)[i..] == p[i..] + x && (p + x)[..i] == p[..i]
  {
  }

  lemma MatchStays(y: Syntax, f: string, x: string, m: Match)
    requires FirstMarker(y, f) == Some(m)
    ensures forall i :: 0 <= i < m.at ==> !y.Begins((f + x)[i..])
    ensures (f + x)[m.at..m.at + m.size] == if m.opening then y.open else y.close
  {
    forall i | 0 <= i < m.at ensures !y.Begins((f + x)[i..]) { NoMarkerBeforeMatch(y, f, x, m, i); }
    FirstMarkerIsFirst(y, f);
    assert (f + x)[m.at..m.at + m.size] == f[m.at..m.at + m.size];
  }

  lemma ScanThroughMatch(y: Syntax, p: string, x: string, depth: nat, m: Match)
    requires y.Plain(p) && y.Plain(p + x) && FirstMarker(y, y.Casefold(p)) == Some(m)
    ensures |y.Casefold(p)| == |p| && y.Plain(p[m.at + m.size..] + x)
    ensures ScanFrom(y, p + x, depth) ==
            var r := ScanFrom(y, p[m.at + m.size..] + x, Nesting(depth, m.opening));
            Scanned((if depth == 0 then p[..m.at] else "") + r.text, r.depth, true)
  {
    hide Scan, FirstMarker;
    var t, f := p + x, y.Casefold(p);
    var cut := m.at + m.size;
    PlainFold(y, p);
    PlainFold(y, t);
    CasefoldConcat(y, p, x);
    MatchStays(y, f, y.Casefold(x), m);
    ScanSkips(y, t, y.Casefold(t), depth, m.at);
    ScanMarker(y, t, y.Casefold(t), depth, m);
    AppendSlices(p, x, cut);
    AppendSlices(p, x, m.at);
    PlainFoldDrop(y, t, cut);
  }

  lemma ScanThroughTail(y: Syntax, p: string, x: string, depth: nat)
    requires y.Plain(p) && y.Plain(p + x) && FirstMarker(y, y.Casefold(p)) == None
    ensures |y.Casefold(p)| == |p|
    ensures var safe := |p| - LongestHoldable(y, y.Casefold(p));
            && y.Plain(p[safe..] + x)
            && ScanFrom(y, p + x, depth) ==
               var r := ScanFrom(y, p[safe..] + x, depth);
               Scanned((if depth == 0 then p[..safe] else "") + r.text, r.depth, r.removed || (safe > 0 && depth > 0))
  {
    var t, f := p + x, y.Casefold(p);
    var g := f + y.Casefold(x);
    PlainFold(y, p);
    PlainFold(y, t);
    CasefoldConcat(y, p, x);
    var safe := |p| - LongestHoldable(y, f);
    forall i | 0 <= i < safe ensures !y.Begins(g[i..]) { NoMarkerBeforeTail(y, f, y.Casefold(x), i); }
    ScanSkips(y, t, g, depth, safe);
    assert p[safe..] + x == t[safe..] && p[..safe] == t[..safe];
    PlainFoldDrop(y, t, safe);
  }

  // The feeding loop on a plain buffer: no slice is out of range.
  lemma FeedOnMatch(y: Syntax, s: State, m: Match)
    requires y.Plain(s.pending) && FirstMarker(y, y.Casefold(s.pending)) == Some(m)
    ensures m.at + m.size <= |s.pending| && y.Plain(s.pending[m.at + m.size..])
    ensures FeedLoop(y, s) ==
            var r := FeedLoop(y, State(s.pending[m.at + m.size..], Nesting(s.depth, m.opening), true));
            Fed((if s.depth == 0 then s.pending[..m.at] else "") + r.emitted, r.after)
  {
    PlainFold(y, s.pending);
    assert Once(y, s) == Iteration(if s.depth == 0 then s.pending[..m.at] else "",
                                   State(s.pending[m.at + m.size..], Nesting(s.depth, m.opening), true), true);
    hide Once;
  }

  lemma FeedOnTail(y: Syntax, s: State)
    requires y.Plain(s.pending) && FirstMarker(y, y.Casefold(s.pending)) == None
    ensures |y.Casefold(s.pending)| == |s.pending|
    ensures FeedLoop(y, s) ==
            var safe := |s.pending| - LongestHoldable(y, y.Casefold(s.pending));
            Fed(if s.depth == 0 then s.pending[..safe] else "",
                State(s.pending[safe..], s.depth, s.removed || (s.depth > 0 && safe > 0)))
  {
    hide LongestHoldable, FirstMarker;
    PlainFold(y, s.pending);
    if s.pending != "" {
      assert !Once(y, s).again && FeedLoop(y, s) == Fed(Once(y, s).emitted, Once(y, s).after);
      hide FeedLoop;
    }
  }

  lemma PlainParts(y: Syntax, a: string, b: string)
    ensures y.Plain(a + b) <==> y.Plain(a) && y.Plain(b)
  {
    assert forall i :: 0 <= i < |a| ==> (a + b)[i] == a[i];
    assert forall i :: 0 <= i < |b| ==> b[i] == (a + b)[|a| + i];
  }

  // Whatever text x follows, scanning the buffer gives what one feed emits and then what scanning
  // the text it kept gives.
  ghost predicate Agrees(y: Syntax, s: State, x: string, r: Fed)
  {
    && y.Plain(s.pending + x) && y.Plain(r.after.pending + x) && (r.after.depth > 0 ==> r.after.removed)
    && var whole := ScanFrom(y, s.pending + x, s.depth);
       var rest := ScanFrom(y, r.after.pending + x, r.after.depth);
       && whole.text == r.emitted + rest.text
       && whole.depth == rest.depth
       && (s.removed || whole.removed) == (r.after.removed || rest.removed)
  }

  lemma {:induction false} FeedCommutes(y: Syntax, s: State, x: string)
    requires y.Plain(s.pending + x) && (s.depth > 0 ==> s.removed)
    ensures Agrees(y, s, x, FeedLoop(y, s))
    decreases |s.pending|
  {
    hide FeedLoop, ScanFrom;
    PlainParts(y, s.pending, x);
    match FirstMarker(y, y.Casefold(s.pending))
    case Some(m) =>
      ScanThroughMatch(y, s.pending, x, s.depth, m);
      FeedOnMatch(y, s, m);
      FeedCommutes(y, State(s.pending[m.at + m.size..], Nesting(s.depth, m.opening), true), x);
    case None =>
      ScanThroughTail(y, s.pending, x, s.depth);
      FeedOnTail(y, s);
  }

  // ---------------------------------------------------------------------------
  // Whole streams

  lemma AgreesThen(y: Syntax, chunks: seq<string>, x: string)
    requires chunks != []
    requires var last := chunks[|chunks| - 1];
             && Agrees(y, State(Concat(chunks[..|chunks| - 1]), 0, false), last + x, FeedAll(y, chunks[..|chunks| - 1]))
             && var before := FeedAll(y, chunks[..|chunks| - 1]).after;
                Agrees(y, before.(pending := before.pending + last), x, FeedChunk(y, before, last))
    ensures Agrees(y, State(Concat(chunks), 0, false), x, FeedAll(y, chunks))
  {
    hide ScanFrom, FeedLoop;
    var init, last := chunks[..|chunks| - 1], chunks[|chunks| - 1];
    var before := FeedAll(y, init);
    assert Concat(init) + (last + x) == Concat(chunks) + x;
    assert before.after.pending + (last + x) == before.after.pending + last + x;
  }

  lemma {:induction false} FeedAllCommutes(y: Syntax, chunks: seq<string>, x: string)
    requires y.Plain(Concat(chunks) + x)
    ensures Agrees(y, State(Concat(chunks), 0, false), x, FeedAll(y, chunks))
  {
    if chunks != [] {
      var init, last := chunks[..|chunks| - 1], chunks[|chunks| - 1];
      assert Concat(chunks) + x == Concat(init) + (last + x);
      FeedAllCommutes(y, init, last + x);
      var before := FeedAll(y, init).after;
      assert before.pending + (last + x) == before.pending + last + x;
      FeedCommutes(y, before.(pending := before.pending + last), x);
      AgreesThen(y, chunks, x);
    }
  }

  /** However a plain text is cut into chunks, the filter's output is the one-pass scanner's. */
  lemma StreamingMatchesScanner(y: Syntax, chunks: seq<string>)
    requires y.Plain(Concat(chunks))
    ensures var r := Reference(y, Concat(chunks));
            && Filtered(y, chunks) == Sanitized(r.text, r.removed)
            && FeedAll(y, chunks).after.depth == r.depth
  {
    hide Scan, FeedLoop;
    var all := Concat(chunks);
    assert all + "" == all;
    FeedAllCommutes(y, chunks, "");
    HeldBackTail(y, chunks);
    PlainFoldDrop(y, all, |all| - LongestHoldable(y, y.Casefold(all)));
    LongestIsLongest(y, y.Casefold(all), |all|);
    var s := FeedAll(y, chunks).after;
    assert s.pending + "" == s.pending;
    ScanPrefix(y, s.pending, y.Casefold(s.pending), s.depth);
  }

  // ---------------------------------------------------------------------------
  // What the filter is for

  // Folding as for the letters of the markers
  predicate Lowers(fold: char -> string) {
    && fold('S') == "s" && fold('Y') == "y" && fold('T') == "t" && fold('E') == "e" && fold('M') == "m"
    && fold('P') == "p" && fold('R') == "r" && fold('O') == "o" && fold('_') == "_" && fold('[') == "["
    && fold(']') == "]" && fold('/') == "/"
  }

  lemma {:induction false} CasefoldIs(y: Syntax, s: string, f: string)
    requires |s| == |f| && forall i :: 0 <= i < |s| ==> y.fold(s[i]) == [f[i]]
    ensures y.Casefold(s) == f
  {
    if s != "" {
      CasefoldIs(y, s[1..], f[1..]);
      assert f == [f[0]] + f[1..];
    }
  }

  /** The markers that are looked for are the folded forms of the declared ones. */
  lemma DeclaredMarkers(fold: char -> string)
    requires Lowers(fold)
    ensures SystemPrompt(fold).Casefold("[SYSTEM_PROMPT]") == SystemPrompt(fold).open
    ensures SystemPrompt(fold).Casefold("[/SYSTEM_PROMPT]") == SystemPrompt(fold).close
  {
    CasefoldIs(SystemPrompt(fold), "[SYSTEM_PROMPT]", "[system_prompt]");
    CasefoldIs(SystemPrompt(fold), "[/SYSTEM_PROMPT]", "[/system_prompt]");
  }

  predicate Bare(y: Syntax, s: string) {
    y.Plain(s) && '[' !in y.Casefold(s)
  }

  lemma BareSkips(y: Syntax, t: string, f: string, depth: nat, m: nat)
    requires |t| == |f| && m <= |t| && forall i :: 0 <= i < m ==> f[i] != '['
    ensures Scan(y, t, f, depth) ==
            var r := Scan(y, t[m..], f[m..], depth);
            Scanned((if depth == 0 then t[..m] else "") + r.text, r.depth, r.removed || (m > 0 && depth > 0))
  {
    hide Scan;
    forall i | 0 <= i < m ensures !y.Begins(f[i..]) {
      assert f[i..][0] == f[i];
    }
    ScanSkips(y, t, f, depth, m);
  }

  lemma BareScan(y: Syntax, s: string)
    requires Bare(y, s)
    ensures ScanFrom(y, s, 0) == Scanned(s, 0, false)
  {
    hide Scan;
    PlainFold(y, s);
    var f := y.Casefold(s);
    assert forall i :: 0 <= i < |f| ==> f[i] != '[';
    BareSkips(y, s, f, 0, |s|);
    assert s[|s|..] == "" && f[|s|..] == "" && s[..|s|] == s;
    assert Scan(y, "", "", 0) == Scanned("", 0, false) by { NothingScanned(y); }
    assert s + "" == s;
  }

  lemma NothingScanned(y: Syntax)
    ensures Scan(y, "", "", 0) == Scanned("", 0, false)
  {
  }

  // Text, a marker, and the rest: the text is shown outside an envelope, and the marker changes the depth.
  lemma BareThenMarker(y: Syntax, s: string, marker: string, rest: string, depth: nat, opening: bool)
    requires Bare(y, s) && y.Plain(marker) && y.Plain(rest) && y.Plain(s + marker + rest)
    requires y.Casefold(marker) == if opening then y.open else y.close
    ensures ScanFrom(y, s + marker + rest, depth) ==
            var r := ScanFrom(y, rest, Nesting(depth, opening));
            Scanned((if depth == 0 then s else "") + r.text, r.depth, true)
  {
    hide Scan, Nesting;
    var t, a, b, c := s + marker + rest, y.Casefold(s), y.Casefold(marker), y.Casefold(rest);
    PlainFold(y, s);
    PlainFold(y, marker);
    PlainFold(y, rest);
    PlainFold(y, t);
    CasefoldConcat(y, s + marker, rest);
    CasefoldConcat(y, s, marker);
    var f := a + b + c;
    assert y.Casefold(t) == f;
    assert forall i :: 0 <= i < |s| ==> f[i] == a[i];
    BareSkips(y, t, f, depth, |s|);
    assert t[..|s|] == s;
    var m := Match(|s|, opening, |b|);
    assert f[m.at..m.at + m.size] == b;
    ScanMarker(y, t, f, depth, m);
    assert t[m.at + m.size..] == rest && f[m.at + m.size..] == c;
  }

  lemma PlainConcat(y: Syntax, a: string, b: string)
    requires y.Plain(a) && y.Plain(b)
    ensures y.Plain(a + b)
  {
  }

  /** An envelope is taken out of a reply with everything inside it, however the reply is cut, and whatever the case of
      its markers; what stands before and after it is shown unchanged. */
  lemma EnvelopeIsRemoved(y: Syntax, before: string, opening: string, inside: string, closing: string, after: string,
      chunks: seq<string>)
    requires Bare(y, before) && Bare(y, inside) && Bare(y, after) && y.Plain(opening) && y.Plain(closing)
    requires y.Casefold(opening) == y.open && y.Casefold(closing) == y.close
    requires Concat(chunks) == before + opening + (inside + closing + after)
    ensures Filtered(y, chunks) == Sanitized(before + after, true)
  {
    hide Scan, Filtered, ScanFrom;
    PlainConcat(y, inside, closing);
    PlainConcat(y, inside + closing, after);
    PlainConcat(y, before, opening);
    PlainConcat(y, before + opening, inside + closing + after);
    BareThenMarker(y, before, opening, inside + closing + after, 0, true);
    BareThenMarker(y, inside, closing, after, 1, false);
    BareScan(y, after);
    assert "" + after == after;
    StreamingMatchesScanner(y, chunks);
  }

  /** And text without an opening bracket passes through unchanged. */
  lemma BareTextPasses(y: Syntax, chunks: seq<string>)
    requires Bare(y, Concat(chunks))
    ensures Filtered(y, chunks) == Sanitized(Concat(chunks), false)
  {
    hide Scan, Filtered, ScanFrom;
    BareScan(y, Concat(chunks));
    StreamingMatchesScanner(y, chunks);
  }

  lemma ChunksDoNotMatter(y: Syntax, one: seq<string>, two: seq<string>)
    requires y.Plain(Concat(one)) && Concat(one) == Concat(two)
    ensures Filtered(y, one) == Filtered(y, two)
  {
    StreamingMatchesScanner(y, one);
    StreamingMatchesScanner(y, two);
  }

  // An unfinished marker at the end of the text is ordinary text to the scanner.
  lemma ScanPrefix(y: Syntax, t: string, f: string, depth: nat)
    requires |t| == |f| && (f < y.open || f < y.close)
    ensures Scan(y, t, f, depth) == Scanned(if depth == 0 then t else "", depth, t != "" && depth > 0)
  {
    forall i | 0 <= i < |f| ensures !y.Begins(f[i..]) {
      if i > 0 {
        assert f[i] != '[';
      } else {
        assert f[0..] == f;
      }
    }
    ScanSkips(y, t, f, depth, |f|);
  }

  // ---------------------------------------------------------------------------
  // What is held back between calls

  lemma HoldableInDrop(y: Syntax, f: string, cut: nat, n: nat)
    requires cut <= |f| && n <= |f| - cut
    ensures y.Holdable(f[cut..], n) == y.Holdable(f, n)
  {
    assert f[cut..][|f[cut..]| - n..] == f[|f| - n..];
  }

  lemma HoldableDrop(y: Syntax, f: string, cut: nat)
    requires cut <= |f|
    requires forall n: nat :: y.Holdable(f, n) ==> n <= |f| - cut
    ensures LongestHoldable(y, f[cut..]) == LongestHoldable(y, f)
  {
    hide LongestHoldable;
    var a, b := LongestHoldable(y, f), LongestHoldable(y, f[cut..]);
    HeldIs(y, f);
    HeldIs(y, f[cut..]);
    HoldableInDrop(y, f, cut, b);
    HoldableInDrop(y, f, cut, a);
    NoLonger(y, f, b);
    NoLonger(y, f[cut..], a);
  }

  lemma HeldIs(y: Syntax, f: string)
    ensures y.Holdable(f, LongestHoldable(y, f))
  {
    LongestIsLongest(y, f, |f|);
  }

  lemma NoLonger(y: Syntax, f: string, n: nat)
    requires n <= |f|
    ensures y.Holdable(f, n) ==> n <= LongestHoldable(y, f)
  {
    LongestIsLongest(y, f, |f|);
  }

  // A text that begins with one marker is not the beginning of either.
  lemma BegunIsNotHeld(y: Syntax, g: string)
    requires y.Begins(g)
    ensures !(g < y.open) && !(g < y.close)
  {
    if g < y.open {
      PrefixTransitive(y.close, g, y.open);
    }
    if g < y.close {
      PrefixTransitive(y.open, g, y.close);
    }
  }

  lemma PrefixTransitive(a: string, b: string, c: string)
    ensures a <= b && b < c ==> a < c
    ensures !(c <= b && b < c)
  {
  }

  lemma MatchIsNotHeld(y: Syntax, f: string, m: Match, n: nat)
    requires FirstMarker(y, f) == Some(m) && n <= |f| && |f| - n < m.at + m.size
    ensures !y.Holdable(f, n)
  {
    FirstMarkerIsFirst(y, f);
    hide FirstMarker;
    var i := |f| - n;
    var marker := f[m.at..m.at + m.size];
    assert marker[0] == f[m.at];
    if i < m.at {
      NoBracketInside(y, f, i, m.at);
    } else if i == m.at {
      assert f[i..][..m.size] == marker;
      BegunIsNotHeld(y, f[i..]);
    } else {
      assert marker[i - m.at] == f[i] == f[i..][0];
    }
  }

  // Nothing held back reaches into the first marker.
  lemma TailAfterMatch(y: Syntax, p: string, m: Match)
    requires y.Plain(p) && FirstMarker(y, y.Casefold(p)) == Some(m)
    ensures m.at + m.size <= |p| && y.Plain(p[m.at + m.size..])
    ensures LongestHoldable(y, y.Casefold(p[m.at + m.size..])) == LongestHoldable(y, y.Casefold(p))
  {
    hide LongestHoldable, FirstMarker;
    PlainFold(y, p);
    LongestAfterMatch(y, y.Casefold(p), m);
    PlainFoldDrop(y, p, m.at + m.size);
  }

  lemma TailOfDrop(p: string, cut: nat, n: nat)
    requires cut + n <= |p|
    ensures p[cut..][|p[cut..]| - n..] == p[|p| - n..]
  {
  }

  lemma LongestAfterMatch(y: Syntax, f: string, m: Match)
    requires FirstMarker(y, f) == Some(m)
    ensures m.at + m.size <= |f|
    ensures LongestHoldable(y, f[m.at + m.size..]) == LongestHoldable(y, f)
  {
    hide LongestHoldable, FirstMarker;
    NoneHeldAcross(y, f, m);
    HoldableDrop(y, f, m.at + m.size);
  }

  lemma NoneHeldAcross(y: Syntax, f: string, m: Match)
    requires FirstMarker(y, f) == Some(m)
    ensures forall n: nat :: y.Holdable(f, n) ==> n <= |f| - (m.at + m.size)
  {
    hide FirstMarker;
    forall n: nat | y.Holdable(f, n) ensures n <= |f| - (m.at + m.size) {
      if n > |f| - (m.at + m.size) { MatchIsNotHeld(y, f, m, n); }
    }
  }

  lemma {:induction false} FeedKeepsTail(y: Syntax, s: State)
    requires y.Plain(s.pending)
    ensures |y.Casefold(s.pending)| == |s.pending|
    ensures FeedLoop(y, s).after.pending == s.pending[|s.pending| - LongestHoldable(y, y.Casefold(s.pending))..]
    decreases |s.pending|
  {
    hide FirstMarker, FeedLoop, LongestHoldable;
    PlainFold(y, s.pending);
    match FirstMarker(y, y.Casefold(s.pending))
    case Some(m) =>
      TailAfterMatch(y, s.pending, m);
      FeedOnMatch(y, s, m);
      FeedKeepsTail(y, State(s.pending[m.at + m.size..], Nesting(s.depth, m.opening), true));
      TailOfDrop(s.pending, m.at + m.size, LongestHoldable(y, y.Casefold(s.pending)));
    case None =>
      FeedOnTail(y, s);
  }

  // A held tail of a longer text begins inside the tail already held before the new text came.
  lemma HeldAfter(y: Syntax, was: string, last: string)
    ensures var cut := |was| - LongestHoldable(y, was);
            LongestHoldable(y, (was + last)[cut..]) == LongestHoldable(y, was + last)
  {
    hide LongestHoldable;
    LongestIsLongest(y, was, |was|);
    forall n: nat | y.Holdable(was + last, n) ensures n <= |last| + LongestHoldable(y, was) {
      if n >= |last| { HeldBefore(y, was, last, n); }
    }
    HoldableDrop(y, was + last, |was| - LongestHoldable(y, was));
  }

  lemma HeldBefore(y: Syntax, was: string, last: string, n: nat)
    requires y.Holdable(was + last, n) && n >= |last|
    ensures n - |last| <= |was| && y.Holdable(was, n - |last|)
  {
    var g := was + last;
    assert g[|g| - n..][..n - |last|] == was[|was| - (n - |last|)..];
  }

  /** After any feeds, exactly the longest tail of the text that could become a marker is held back. */
  lemma {:induction false} HeldBackTail(y: Syntax, chunks: seq<string>)
    requires y.Plain(Concat(chunks))
    ensures |y.Casefold(Concat(chunks))| == |Concat(chunks)|
    ensures var all := Concat(chunks);
            FeedAll(y, chunks).after.pending == all[|all| - LongestHoldable(y, y.Casefold(all))..]
  {
    hide FeedLoop, LongestHoldable;
    var all := Concat(chunks);
    PlainFold(y, all);
    if chunks != [] {
      var init, last := chunks[..|chunks| - 1], chunks[|chunks| - 1];
      var was := Concat(init);
      PlainParts(y, was, last);
      HeldBackTail(y, init);
      CasefoldConcat(y, was, last);
      HeldAfter(y, y.Casefold(was), y.Casefold(last));
      var cut := |was| - LongestHoldable(y, y.Casefold(was));
      var before := FeedAll(y, init).after;
      assert before.pending + last == all[cut..];
      PlainFoldDrop(y, all, cut);
      FeedKeepsTail(y, before.(pending := all[cut..]));
    }
  }

  lemma AtMostFifteenHeld(fold: char -> string, chunks: seq<string>)
    requires SystemPrompt(fold).Plain(Concat(chunks))
    ensures |FeedAll(SystemPrompt(fold), chunks).after.pending| <= 15
  {
    var y := SystemPrompt(fold);
    HeldBackTail(y, chunks);
    var f := y.Casefold(Concat(chunks));
    LongestIsLongest(y, f, |f|);
  }

  // ---------------------------------------------------------------------------
  // Which foldings allow streaming

  // `casefold` never deletes a character and never makes a '[' out of another character; `raw` is a
  // way to write the opening marker.
  ghost predicate Regular(y: Syntax, raw: string) {
    && (forall c: char :: |y.fold(c)| >= 1 && ('[' in y.fold(c) ==> y.fold(c) == "["))
    && y.Plain(raw) && y.Casefold(raw) == y.open
  }

  ghost predicate ChunkIndependent(y: Syntax) {
    forall chunks :: Filtered(y, chunks) == Filtered(y, [Concat(chunks)])
  }

  lemma MarkersHaveBrackets(y: Syntax, f: string)
    ensures FirstMarker(y, f).Some? ==> FirstMarker(y, f).value.at < |f| && f[FirstMarker(y, f).value.at] == '['
    ensures LongestHoldable(y, f) > 0 ==> f[|f| - LongestHoldable(y, f)] == '['
  {
    hide FirstMarker, LongestHoldable;
    FirstMarkerIsFirst(y, f);
    LongestIsLongest(y, f, |f|);
    var n := LongestHoldable(y, f);
    assert n > 0 ==> f[|f| - n..][0] == f[|f| - n];
    if FirstMarker(y, f).Some? {
      var m := FirstMarker(y, f).value;
      assert f[m.at..m.at + m.size][0] == f[m.at];
    }
  }

  lemma OpeningAt(y: Syntax, f: string)
    requires '[' !in f
    ensures FirstMarker(y, f + y.open) == Some(Match(|f|, true, |y.open|))
  {
    hide Find;
    var g := f + y.open;
    forall i | 0 <= i < |f| ensures !(y.open <= g[i..]) && !(y.close <= g[i..]) {
      assert g[i..][0] == f[i];
    }
    assert y.open <= g[|f|..];
    FindIsFirst(g, y.open, 0);
    FindIsFirst(g, y.close, 0);
  }

  lemma FoldedCharFeeds(y: Syntax, raw: string, c: char)
    requires Regular(y, raw) && y.fold(c) != "["
    ensures FeedAll(y, [[c]]) == Fed([c], START)
  {
    hide LongestHoldable, FirstMarker;
    var fc := y.fold(c);
    assert y.Casefold([c]) == fc + "" == fc;
    MarkersHaveBrackets(y, fc);
    assert Once(y, State([c], 0, false)) == Iteration([c], State("", 0, false), false);
    assert "" + [c] == [c];
    assert [[c]][..0] == [];
  }

  lemma OpeningFeeds(y: Syntax, raw: string)
    requires Regular(y, raw)
    ensures FeedChunk(y, START, raw) == Fed("", State("", 1, true))
  {
    hide LongestHoldable, FirstMarker;
    PlainFold(y, raw);
    OpeningAt(y, "");
    assert "" + y.open == y.open;
    assert Once(y, State(raw, 0, false)) == Iteration("", State("", 1, true), true);
    assert FeedLoop(y, State(raw, 0, false)) == Fed("", State("", 1, true));
    assert "" + raw == raw;
  }

  lemma WholeFeeds(y: Syntax, raw: string, c: char)
    requires Regular(y, raw) && y.fold(c) != "["
    ensures FeedAll(y, [[c] + raw]).emitted == PyTake([c] + raw, |y.fold(c)|)
  {
    hide LongestHoldable, FirstMarker;
    var fc, whole := y.fold(c), [c] + raw;
    assert y.Casefold([c]) == fc + "" == fc;
    CasefoldConcat(y, [c], raw);
    PlainFold(y, raw);
    OpeningAt(y, fc);
    var i := Once(y, State(whole, 0, false));
    assert i == Iteration(PyTake(whole, |fc|), State("", 1, true), true);
    hide Once, PyTake;
    assert FeedLoop(y, State("", 1, true)) == Fed("", State("", 1, true));
    assert FeedLoop(y, State(whole, 0, false)).emitted == i.emitted + "";
    assert FeedChunk(y, START, whole) == FeedLoop(y, State(whole, 0, false)) by { assert "" + whole == whole; }
    hide FeedLoop, FeedChunk;
    assert [whole][..0] == [];
    assert FeedAll(y, [whole]).emitted == "" + (i.emitted + "");
  }

  // Feeding c and then an opening marker shows c; feeding both at once cuts the text at c's folded length.
  lemma SplitFeed(y: Syntax, raw: string, c: char)
    requires Regular(y, raw) && y.fold(c) != "["
    ensures Filtered(y, [[c], raw]).text == [c]
    ensures FeedAll(y, [[c] + raw]).emitted == PyTake([c] + raw, |y.fold(c)|)
  {
    hide FeedLoop, FeedChunk;
    FoldedCharFeeds(y, raw, c);
    OpeningFeeds(y, raw);
    WholeFeeds(y, raw, c);
    assert [[c], raw][..1] == [[c]];
  }

  lemma TakesTwo(c: char, raw: string, n: nat)
    requires n >= 2 && raw != ""
    ensures |PyTake([c] + raw, n)| >= 2
  {
  }

  lemma OpeningNotEmpty(y: Syntax, raw: string)
    requires Regular(y, raw)
    ensures raw != ""
  {
    assert y.Casefold("") == "";
  }

  lemma ConcatTwo(a: string, b: string)
    ensures Concat([a, b]) == a + b
  {
    assert [a, b][..1] == [a] && [a][..0] == [] && "" + a == a;
    assert Concat([a]) == a;
  }

  // Cutting after a character that folds to several changes what is shown.
  lemma CutMatters(y: Syntax, raw: string, c: char)
    requires Regular(y, raw) && |y.fold(c)| != 1
    ensures Filtered(y, [[c], raw]) != Filtered(y, [Concat([[c], raw])])
  {
    hide FeedAll, PyTake;
    assert |y.fold(c)| >= 1;
    SplitFeed(y, raw, c);
    OpeningNotEmpty(y, raw);
    TakesTwo(c, raw, |y.fold(c)|);
    ConcatTwo([c], raw);
    assert |Filtered(y, [[c] + raw]).text| >= 2;
  }

  lemma PlainIndependent(y: Syntax)
    requires forall c: char :: |y.fold(c)| == 1
    ensures ChunkIndependent(y)
  {
    hide Filtered;
    forall chunks ensures Filtered(y, chunks) == Filtered(y, [Concat(chunks)]) {
      assert [Concat(chunks)][..0] == [];
      assert Concat([Concat(chunks)]) == Concat(chunks);
      ChunksDoNotMatter(y, chunks, [Concat(chunks)]);
    }
  }

  /** The filter's output is independent of the cuts for every text exactly when no character folds to several. */
  lemma StreamsIffPlain(y: Syntax, raw: string)
    requires Regular(y, raw)
    ensures ChunkIndependent(y) <==> forall c: char :: |y.fold(c)| == 1
  {
    hide Filtered, Concat, Regular;
    if forall c: char :: |y.fold(c)| == 1 {
      PlainIndependent(y);
    } else {
      var c: char :| |y.fold(c)| != 1;
      CutMatters(y, raw, c);
    }
  }
}
