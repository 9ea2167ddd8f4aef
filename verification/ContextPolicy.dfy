/**
 Token estimates and budgets. A text is a sequence of characters, of which only the width in UTF-8
 counts; ratios are exact fractions, so `ceil(w * 0.05)` is the ceiling of `w / 20`.
 */
module ContextPolicy {
  import opened Common

  // ---------------------------------------------------------------------------
  // UTF-8 widths

  function Width(c: char): nat {
    if c < '\U{0080}' then 1 else if c < '\U{0800}' then 2 else if c < '\U{10000}' then 3 else 4
  }

  function Bytes(text: string): nat {
    if text == "" then 0 else Bytes(text[..|text| - 1]) + Width(text[|text| - 1])
  }

  lemma {:induction false} BytesConcat(a: string, b: string)
    ensures Bytes(a + b) == Bytes(a) + Bytes(b)
  {
    if b == "" {
      assert a + b == a;
    } else {
      BytesConcat(a, b[..|b| - 1]);
      assert (a + b)[..|a + b| - 1] == a + b[..|b| - 1];
    }
  }

  // The characters wholly inside the first `limit` bytes: an incomplete one at the cut is dropped.
  function Head(text: string, limit: nat): string {
    if Bytes(text) <= limit then text else Head(text[..|text| - 1], limit)
  }

  // The characters wholly inside the last `limit` bytes
  function Tail(text: string, limit: nat): string {
    if Bytes(text) <= limit then text else Tail(text[1..], limit)
  }

  lemma {:induction false} HeadFits(text: string, limit: nat)
    ensures Bytes(Head(text, limit)) <= limit && Head(text, limit) <= text
  {
    if Bytes(text) > limit { HeadFits(text[..|text| - 1], limit); }
  }

  lemma {:induction false} TailFits(text: string, limit: nat)
    ensures Bytes(Tail(text, limit)) <= limit
    ensures |Tail(text, limit)| <= |text| && Tail(text, limit) == text[|text| - |Tail(text, limit)|..]
  {
    if Bytes(text) > limit { TailFits(text[1..], limit); }
  }

  // ---------------------------------------------------------------------------
  // The estimator

  function CeilDiv(n: nat, d: nat): nat
    requires d > 0
  {
    (n + d - 1) / d
  }

  function Text(text: string): int {
    Max(1, CeilDiv(Bytes(text), 3))
  }

  // `structured` is the serialised form of a message's tool calls and tool name.
  datatype Message = Message(role: Role, content: string, structured: string)

  datatype Role = System | User | Assistant | Tool

  function MessageCost(m: Message): int {
    6 + Text(m.content + m.structured)
  }

  function Cost(messages: seq<Message>): int {
    if messages == [] then 0 else Cost(messages[..|messages| - 1]) + MessageCost(messages[|messages| - 1])
  }

  function Messages(messages: seq<Message>): int {
    3 + Cost(messages)
  }

  lemma {:induction false} CostConcat(a: seq<Message>, b: seq<Message>)
    ensures Cost(a + b) == Cost(a) + Cost(b)
  {
    if b == [] {
      assert a + b == a;
    } else {
      CostConcat(a, b[..|b| - 1]);
      assert (a + b)[..|a + b| - 1] == a + b[..|b| - 1];
    }
  }

  lemma {:induction false} CostAtLeast(messages: seq<Message>)
    ensures 7 * |messages| <= Cost(messages)
  {
    if messages != [] { CostAtLeast(messages[..|messages| - 1]); }
  }

  // ---------------------------------------------------------------------------
  // Clipping

  function Marker(): string {
    "\n[Earlier " + "portion omitted " + "for context " + "budget]\n"
  }

  const MARKER_BYTES := 46

  // `_clip_text`
  function Clip(text: string, tokens: int): string {
    var maxBytes := Max(24, tokens * 3);
    if Bytes(text) <= maxBytes then text
    else
      var available := Max(12, maxBytes - MARKER_BYTES);
      Head(text, available / 2) + Marker() + Tail(text, available - available / 2)
  }

  lemma {:induction false} AsciiBytes(text: string)
    requires forall c :: c in text ==> c < '\U{0080}'
    ensures Bytes(text) == |text|
  {
    if text != "" {
      var init := text[..|text| - 1];
      assert text[|text| - 1] in text;
      forall c | c in init ensures c < '\U{0080}' {
        assert c in text;
      }
      AsciiBytes(init);
    }
  }

  lemma MarkerBytes()
    ensures Bytes(Marker()) == MARKER_BYTES
  {
    var a, b, c, d := "\n[Earlier ", "portion omitted ", "for context ", "budget]\n";
    AsciiBytes(a);
    AsciiBytes(b);
    AsciiBytes(c);
    AsciiBytes(d);
    BytesConcat(a, b);
    BytesConcat(a + b, c);
    BytesConcat(a + b + c, d);
  }

  // A clipped text keeps a head and a tail around the marker.
  lemma ClipShape(text: string, tokens: int)
    requires Clip(text, tokens) != text
    ensures exists head, tail ::
              Clip(text, tokens) == head + Marker() + tail && head <= text &&
              |tail| <= |text| && tail == text[|text| - |tail|..]
  {
    hide Marker, Head, Tail, Bytes;
    var available := Max(12, Max(24, tokens * 3) - MARKER_BYTES);
    HeadFits(text, available / 2);
    TailFits(text, available - available / 2);
    assert Clip(text, tokens) == Head(text, available / 2) + Marker() + Tail(text, available - available / 2);
  }

  lemma ClipBytes(text: string, tokens: int)
    ensures Bytes(Clip(text, tokens)) <= Max(58, tokens * 3)
  {
    hide Marker, Head, Tail, Bytes;
    var available := Max(12, Max(24, tokens * 3) - MARKER_BYTES);
    HeadFits(text, available / 2);
    TailFits(text, available - available / 2);
    MarkerBytes();
    var head, tail := Head(text, available / 2), Tail(text, available - available / 2);
    BytesConcat(head + Marker(), tail);
    BytesConcat(head, Marker());
  }

  /** Clipping re-estimates to no more than was asked for, or 20 tokens if less was asked for. */
  lemma ClipWithin(text: string, tokens: int)
    ensures Text(Clip(text, tokens)) <= Max(20, tokens)
  {
    ClipBytes(text, tokens);
  }

  function Repeat(n: nat): string {
    seq(n, i => 'a')
  }

  lemma {:induction false} RepeatHead(n: nat, limit: nat)
    requires limit <= n
    ensures Head(Repeat(n), limit) == Repeat(limit)
  {
    AsciiBytes(Repeat(n));
    if limit < n {
      assert Repeat(n)[..n - 1] == Repeat(n - 1);
      RepeatHead(n - 1, limit);
    }
  }

  lemma {:induction false} RepeatTail(n: nat, limit: nat)
    requires limit <= n
    ensures Tail(Repeat(n), limit) == Repeat(limit)
  {
    AsciiBytes(Repeat(n));
    if limit < n {
      assert Repeat(n)[1..] == Repeat(n - 1);
      RepeatTail(n - 1, limit);
    }
  }

  // The text that shows the bound of 20 is needed: clipped, it is 58 bytes long.
  lemma ShortClip(tokens: int)
    requires tokens < 20
    ensures Text(Clip(Repeat(100), tokens)) == 20
  {
    hide Marker, Head, Tail, Bytes;
    AsciiBytes(Repeat(100));
    RepeatHead(100, 6);
    RepeatTail(100, 6);
    MarkerBytes();
    AsciiBytes(Repeat(6));
    BytesConcat(Repeat(6) + Marker(), Repeat(6));
    BytesConcat(Repeat(6), Marker());
  }

  /** A clip keeps its promise for every text exactly if at least 20 tokens are asked for. */
  lemma ClipWithinIff(tokens: int)
    ensures (forall text :: Text(Clip(text, tokens)) <= tokens) <==> tokens >= 20
  {
    if tokens >= 20 {
      forall text ensures Text(Clip(text, tokens)) <= tokens { ClipWithin(text, tokens); }
    } else {
      ShortClip(tokens);
    }
  }

  // ---------------------------------------------------------------------------
  // Window, output and reserve

  // A setting as given: Python's `or` skips the falsy ones, and `int()` may not accept the rest.
  datatype Setting = Falsy | Number(value: int) | Unparsable

  function FirstTruthy(settings: seq<Setting>, fallback: int): Setting {
    if settings == [] then Number(fallback)
    else if settings[0] != Falsy then settings[0]
    else FirstTruthy(settings[1..], fallback)
  }

  function IntegerSetting(setting: Setting, fallback: int): int {
    if setting.Number? then setting.value else fallback
  }

  // `_context_window`; a cap of zero counts as none
  function ContextWindow(settings: seq<Setting>, fallback: int, cap: Option<int>): int {
    var desired := Min(262144, Max(2048, IntegerSetting(FirstTruthy(settings, fallback), fallback)));
    if cap.Some? && cap.value != 0 then Min(desired, Max(1, cap.value)) else desired
  }

  function SafetyReserve(window: nat): int {
    Max(256, CeilDiv(window, 20))
  }

  function OutputTokens(window: nat, requested: int): int {
    Min(Max(1, requested), Max(1, window / 2))
  }

  function PromptBudget(window: nat, output: int): int {
    window - output - SafetyReserve(window)
  }

  datatype Budget = Budget(window: int, output: int, prompt: int)

  // `_token_budget`; none when the window is too small
  function TokenBudget(window: nat, requested: int): Option<Budget> {
    var output := OutputTokens(window, requested);
    var prompt := PromptBudget(window, output);
    if prompt < 512 then None else Some(Budget(window, output, prompt))
  }

  /** Budget conservation: prompt, output and reserve make up the window, and each has its share. */
  lemma BudgetConserved(window: nat, requested: int)
    requires TokenBudget(window, requested).Some?
    ensures var b := TokenBudget(window, requested).value;
            && b.prompt + b.output + SafetyReserve(window) == b.window == window
            && 1 <= b.output <= Max(1, window / 2) && b.prompt >= 512
  {
  }

  /** The output asked for is granted up to half the window, and at least one token. */
  lemma OutputIsGranted(window: nat, requested: int)
    requires TokenBudget(window, requested).Some?
    ensures var output := TokenBudget(window, requested).value.output;
            && (1 <= requested <= window / 2 ==> output == requested)
            && (requested < 1 ==> output == 1)
            && (requested > window / 2 ==> output == window / 2)
  {
  }

  /** The first setting that is given decides the window, within 2048 and 262144 tokens, and an unparsable one means
      the default; the provider's own limit caps it, and a window is at least one token. */
  lemma WindowIsFirstSetting(settings: seq<Setting>, fallback: int, cap: Option<int>, i: nat)
    requires i <= |settings| && forall j :: 0 <= j < i ==> settings[j] == Falsy
    requires i < |settings| ==> settings[i] != Falsy
    ensures var asked := if i < |settings| && settings[i].Number? then settings[i].value else fallback;
            var window := ContextWindow(settings, fallback, cap);
            && (cap == None || cap == Some(0) ==>
                  && 2048 <= window <= 262144
                  && (2048 <= asked <= 262144 ==> window == asked)
                  && (asked < 2048 ==> window == 2048) && (asked > 262144 ==> window == 262144))
            && (cap.Some? && cap.value != 0 ==>
                  var uncapped := ContextWindow(settings, fallback, None);
                  && (uncapped <= cap.value ==> window == uncapped)
                  && (1 <= cap.value < uncapped ==> window == cap.value) && (cap.value < 0 ==> window == 1))
  {
    FirstTruthyIs(settings, fallback, i);
    hide FirstTruthy;
  }

  lemma {:induction false} FirstTruthyIs(settings: seq<Setting>, fallback: int, i: nat)
    requires i <= |settings| && forall j :: 0 <= j < i ==> settings[j] == Falsy
    requires i < |settings| ==> settings[i] != Falsy
    ensures FirstTruthy(settings, fallback) == if i < |settings| then settings[i] else Number(fallback)
  {
    if i > 0 {
      FirstTruthyIs(settings[1..], fallback, i - 1);
    }
  }

  /** A window is large enough whatever output is asked for exactly from 1535 tokens on. */
  lemma TooSmallIff(window: nat)
    ensures (forall requested :: TokenBudget(window, requested).Some?) <==> window >= 1535
  {
    if window < 1535 {
      assert TokenBudget(window, window).None?;
    }
  }

  /** Without a provider cap a window is never too small. */
  lemma NeverTooSmallUncapped(settings: seq<Setting>, fallback: int, requested: int)
    ensures TokenBudget(ContextWindow(settings, fallback, None), requested).Some?
  {
    TooSmallIff(ContextWindow(settings, fallback, None));
  }
}
