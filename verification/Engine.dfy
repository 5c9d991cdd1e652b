/**
 The hybrid pipeline: router, kill switch, fast tier, shadow comparison, LLM fallback. It is
 written twice, for whole answers and for streams; `Run` and `RunStreaming` are those two.
 */
module Engine {
  import opened Common
  import opened Lifecycle

  /** The router's outcome. `text` is the rendered tool output, `error` a tool failure. */
  datatype Decision =
    | Miss
    | Hit(rule: string, tool: string, text: string, error: Option<string>, evaluate: bool, answerFromRule: bool)

  datatype Update = Update(text: string, calls: seq<string>, tokensIn: nat, tokensOut: nat)

  /** What the provider streams: updates, then either the end or an error. */
  datatype Stream = Stream(updates: seq<Update>, error: Option<string>)

  datatype Verdict = Declined | Picked(answer: string, tool: string)

  datatype Env = Env(llm: Option<Stream>, classifier: Option<Verdict>, ruleCount: nat, bar: int,
                     score: (string, nat, nat) -> nat, model: string, classifierModel: string)

  datatype Source = FromRouter | FromLlm | FromClassifier | LlmOff | FromError

  /** Tool names as a corpus row spells them: in call order with repeats, or sorted without. */
  datatype Tools = InOrder(names: seq<string>) | Sorted(distinct: set<string>)

  datatype Audit = Audit(source: Source, rule: string, model: string, failed: bool, confidence: nat)

  datatype Fallback = Fallback(tools: Tools, model: string, tokensIn: nat, tokensOut: nat)

  datatype Result = Result(answer: string, source: Source, rule: string, confidence: nat)

  datatype Store = Store(audits: seq<Audit>, events: seq<Event>, rules: map<string, Rule>,
                         fallbacks: seq<Fallback>, llmCalls: nat, classifierCalls: nat)

  const CHUNK := 256
  const LLM_OFF_ANSWER := "No deterministic rule matched and the LLM fallback is disabled (AEGIS_LLM=off)."

  // ------------------------------------------------------------------ reading a stream

  function Text(us: seq<Update>): string {
    if us == [] then "" else us[0].text + Text(us[1..])
  }

  function Named(calls: seq<string>): seq<string> {
    if calls == [] then [] else (if calls[0] == "" then [] else [calls[0]]) + Named(calls[1..])
  }

  function ToolNames(us: seq<Update>): seq<string> {
    if us == [] then [] else Named(us[0].calls) + ToolNames(us[1..])
  }

  function TokensIn(us: seq<Update>): nat {
    if us == [] then 0 else us[0].tokensIn + TokensIn(us[1..])
  }

  function TokensOut(us: seq<Update>): nat {
    if us == [] then 0 else us[0].tokensOut + TokensOut(us[1..])
  }

  function SetOf(names: seq<string>): set<string> {
    set n | n in names
  }

  function ToolSet(t: Tools): set<string> {
    match t
    case InOrder(names) => SetOf(names)
    case Sorted(distinct) => distinct
  }

  // ------------------------------------------------------------------ the shared tails

  function RouterResult(d: Decision): Result
    requires d.Hit?
  {
    if d.error.Some? then Result("command \"" + d.rule + "\" failed: " + d.error.value, FromRouter, d.rule, 0)
    else Result(d.text, FromRouter, d.rule, 100)
  }

  function FinishRouter(s: Store, d: Decision): Store
    requires d.Hit?
  {
    s.(audits := s.audits + [Audit(FromRouter, d.rule, "", d.error.Some?, RouterResult(d).confidence)])
  }

  const LlmOffResult := Result(LLM_OFF_ANSWER, LlmOff, "", 0)

  function FinishLlmOff(s: Store): Store {
    s.(audits := s.audits + [Audit(LlmOff, "", "", false, 0)])
  }

  function FinishClassifier(s: Store, env: Env, tool: string): Store {
    s.(fallbacks := s.fallbacks + [Fallback(InOrder([tool]), env.classifierModel, 0, 0)],
       audits := s.audits + [Audit(FromClassifier, "", env.classifierModel, false, 90)])
  }

  function ErrorResult(message: string): Result {
    Result("LLM run failed: " + message, FromError, "", 0)
  }

  function FinishLlmError(s: Store, env: Env): Store {
    s.(audits := s.audits + [Audit(FromError, "", env.model, true, 0)])
  }

  /** An answer taken from the LLM, with the rule being shadowed if there is one. */
  function LlmResult(us: seq<Update>, env: Env, rule: string): Result {
    Result(Text(us), FromLlm, rule, env.score(Text(us), |SetOf(ToolNames(us))|, env.ruleCount))
  }

  function FinishLlm(s: Store, us: seq<Update>, env: Env, rule: string, tools: Tools): Store {
    s.(audits := s.audits + [Audit(FromLlm, rule, env.model, false, LlmResult(us, env, rule).confidence)],
       fallbacks := s.fallbacks + [Fallback(tools, env.model, TokensIn(us), TokensOut(us))])
  }

  /** The shadow comparison: recorded, and the rule's lifecycle moved on. */
  function Compared(s: Store, d: Decision, us: seq<Update>, bar: int): Store
    requires d.Hit?
  {
    var agreed := d.tool in ToolNames(us);
    var events := s.events + [Event(d.rule, agreed, ToolNames(us))];
    s.(events := events,
       rules := if d.rule in s.rules
                then s.rules[d.rule := Evaluated(s.rules[d.rule], History(events, d.rule), agreed, bar)]
                else s.rules)
  }

  function CompareShadow(s: Store, d: Decision, env: Env): (Store, Option<seq<Update>>)
    requires d.Hit?
  {
    if env.llm.None? then (s, None)
    else
      var called := s.(llmCalls := s.llmCalls + 1);
      if env.llm.value.error.Some? then (called, None)
      else (Compared(called, d, env.llm.value.updates, env.bar), Some(env.llm.value.updates))
  }

  function FinishShadow(s: Store, d: Decision, env: Env): (Store, Result)
    requires d.Hit?
  {
    var (s', resp) := CompareShadow(s, d, env);
    if resp.None? || d.answerFromRule then (FinishRouter(s', d), RouterResult(d))
    else (FinishLlm(s', resp.value, env, d.rule, InOrder(ToolNames(resp.value))), LlmResult(resp.value, env, d.rule))
  }

  function Classified(s: Store, env: Env): Store {
    if env.classifier.None? then s else s.(classifierCalls := s.classifierCalls + 1)
  }

  predicate Picks(env: Env) {
    env.classifier.Some? && env.classifier.value.Picked?
  }

  // ------------------------------------------------------------------ the two pipelines

  function RunEffect(s: Store, d: Decision, env: Env): (Store, Result) {
    if d.Hit? && !d.evaluate then (FinishRouter(s, d), RouterResult(d))
    else if env.llm.None? then
      if d.Hit? then (FinishRouter(s, d), RouterResult(d)) else (FinishLlmOff(s), LlmOffResult)
    else if d.Miss? && Picks(env) then
      (FinishClassifier(Classified(s, env), env, env.classifier.value.tool),
       Result(env.classifier.value.answer, FromClassifier, "", 90))
    else if d.Hit? then FinishShadow(s, d, env)
    else
      var called := Classified(s, env).(llmCalls := s.llmCalls + 1);
      var stream := env.llm.value;
      if stream.error.Some? then (FinishLlmError(called, env), ErrorResult(stream.error.value))
      else (FinishLlm(called, stream.updates, env, "", InOrder(ToolNames(stream.updates))),
            LlmResult(stream.updates, env, ""))
  }

  /** Non-empty text deltas, in order. */
  function Deltas(us: seq<Update>): seq<string> {
    if us == [] then [] else (if us[0].text == "" then [] else [us[0].text]) + Deltas(us[1..])
  }

  function Chunks(s: string): seq<string>
    decreases |s|
  {
    if s == "" then []
    else if |s| <= CHUNK then [s]
    else [s[..CHUNK]] + Chunks(s[CHUNK..])
  }

  function StreamEffect(s: Store, d: Decision, env: Env): (Store, Result, seq<string>) {
    if d.Hit? && (!d.evaluate || d.answerFromRule) then
      var s' := if d.evaluate then CompareShadow(s, d, env).0 else s;
      (FinishRouter(s', d), RouterResult(d), Chunks(RouterResult(d).answer))
    else if d.Hit? then
      var (s', res) := FinishShadow(s, d, env);
      (s', res, Chunks(res.answer))
    else if env.llm.None? then (FinishLlmOff(s), LlmOffResult, Chunks(LLM_OFF_ANSWER))
    else if Picks(env) then
      (FinishClassifier(Classified(s, env), env, env.classifier.value.tool),
       Result(env.classifier.value.answer, FromClassifier, "", 90), Chunks(env.classifier.value.answer))
    else
      var called := Classified(s, env).(llmCalls := s.llmCalls + 1);
      var stream := env.llm.value;
      if stream.error.Some? then
        var res := ErrorResult(stream.error.value);
        (FinishLlmError(called, env), res, Deltas(stream.updates) + Chunks(res.answer))
      else
        (FinishLlm(called, stream.updates, env, "", Sorted(SetOf(ToolNames(stream.updates)))),
         LlmResult(stream.updates, env, ""), Deltas(stream.updates))
  }

  /** The totals of a stream, one update at a time. */
  lemma StreamHead(us: seq<Update>, i: nat)
    requires i < |us|
    ensures Text(us[i..]) == us[i].text + Text(us[i + 1..])
    ensures SetOf(ToolNames(us[i..])) == SetOf(Named(us[i].calls)) + SetOf(ToolNames(us[i + 1..]))
    ensures TokensIn(us[i..]) == us[i].tokensIn + TokensIn(us[i + 1..])
    ensures TokensOut(us[i..]) == us[i].tokensOut + TokensOut(us[i + 1..])
    ensures Deltas(us[i..]) == (if us[i].text == "" then [] else [us[i].text]) + Deltas(us[i + 1..])
  {
    assert us[i..][1..] == us[i + 1..];
  }

  lemma EmptyStream()
    ensures Text([]) == "" && Deltas([]) == [] && SetOf(ToolNames([])) == {} && TokensIn([]) == 0 && TokensOut([]) == 0
  {
  }

  class HybridEngine {
    var audits: seq<Audit>
    var fallbacks: seq<Fallback>
    var llmCalls: nat
    var classifierCalls: nat
    const shadow: ShadowStore

    constructor (shadow: ShadowStore)
      ensures this.shadow == shadow
      ensures audits == [] && fallbacks == [] && llmCalls == 0 && classifierCalls == 0
    {
      this.shadow := shadow;
      audits, fallbacks, llmCalls, classifierCalls := [], [], 0, 0;
    }

    function View(): Store
      reads this, shadow
    {
      Store(audits, shadow.events, shadow.rules, fallbacks, llmCalls, classifierCalls)
    }

    method AuditRow(a: Audit)
      modifies this`audits
      ensures audits == old(audits) + [a]
    {
      audits := audits + [a];
    }

    method RouterTail(d: Decision) returns (res: Result)
      requires d.Hit?
      modifies this`audits
      ensures View() == FinishRouter(old(View()), d) && res == RouterResult(d)
    {
      if d.error.Some? {
        res := Result("command \"" + d.rule + "\" failed: " + d.error.value, FromRouter, d.rule, 0);
        AuditRow(Audit(FromRouter, d.rule, "", true, 0));
        return;
      }
      res := Result(d.text, FromRouter, d.rule, 100);
      AuditRow(Audit(FromRouter, d.rule, "", false, 100));
    }

    method Compare(d: Decision, env: Env) returns (resp: Option<seq<Update>>)
      requires d.Hit?
      modifies this`llmCalls, shadow
      ensures (View(), resp) == CompareShadow(old(View()), d, env)
    {
      if env.llm.None? {
        return None;
      }
      llmCalls := llmCalls + 1;
      if env.llm.value.error.Some? {
        return None;
      }
      var us := env.llm.value.updates;
      var agreed := d.tool in ToolNames(us);
      shadow.RecordShadow(Event(d.rule, agreed, ToolNames(us)));
      shadow.EvaluateLifecycle(d.rule, agreed, env.bar);
      resp := Some(us);
    }

    method ShadowTail(d: Decision, env: Env) returns (res: Result)
      requires d.Hit?
      modifies this, shadow
      ensures (View(), res) == FinishShadow(old(View()), d, env)
    {
      var resp := Compare(d, env);
      if resp.None? || d.answerFromRule {
        res := RouterTail(d);
        return;
      }
      var us := resp.value;
      res := LlmResult(us, env, d.rule);
      AuditRow(Audit(FromLlm, d.rule, env.model, false, res.confidence));
      fallbacks := fallbacks + [Fallback(InOrder(ToolNames(us)), env.model, TokensIn(us), TokensOut(us))];
    }

    method Classify(env: Env) returns (v: Verdict)
      modifies this`classifierCalls
      ensures View() == Classified(old(View()), env)
      ensures v == if env.classifier.None? then Declined else env.classifier.value
    {
      if env.classifier.None? {
        return Declined;
      }
      classifierCalls := classifierCalls + 1;
      v := env.classifier.value;
    }

    method ClassifierTail(v: Verdict, env: Env) returns (res: Result)
      requires v.Picked?
      modifies this`fallbacks, this`audits
      ensures View() == FinishClassifier(old(View()), env, v.tool)
      ensures res == Result(v.answer, FromClassifier, "", 90)
    {
      fallbacks := fallbacks + [Fallback(InOrder([v.tool]), env.classifierModel, 0, 0)];
      AuditRow(Audit(FromClassifier, "", env.classifierModel, false, 90));
      res := Result(v.answer, FromClassifier, "", 90);
    }

    method Run(d: Decision, env: Env) returns (res: Result)
      modifies this, shadow
      ensures (View(), res) == RunEffect(old(View()), d, env)
    {
      if d.Hit? && !d.evaluate {
        res := RouterTail(d);
        return;
      }
      if env.llm.None? {
        if d.Hit? {
          res := RouterTail(d);
          return;
        }
        AuditRow(Audit(LlmOff, "", "", false, 0));
        return LlmOffResult;
      }
      if d.Miss? {
        var v := Classify(env);
        if v.Picked? {
          res := ClassifierTail(v, env);
          return;
        }
      }
      if d.Hit? {
        res := ShadowTail(d, env);
        return;
      }
      llmCalls := llmCalls + 1;
      var stream := env.llm.value;
      if stream.error.Some? {
        AuditRow(Audit(FromError, "", env.model, true, 0));
        return ErrorResult(stream.error.value);
      }
      var us := stream.updates;
      res := LlmResult(us, env, "");
      AuditRow(Audit(FromLlm, "", env.model, false, res.confidence));
      fallbacks := fallbacks + [Fallback(InOrder(ToolNames(us)), env.model, TokensIn(us), TokensOut(us))];
    }

    method EmitChunks(s: string) returns (out: seq<string>)
      ensures out == Chunks(s)
    {
      out := [];
      if s == "" {
        return;
      }
      var left := s;
      while |left| > CHUNK
        invariant left != "" && Chunks(s) == out + Chunks(left)
        decreases |left|
      {
        out := out + [left[..CHUNK]];
        left := left[CHUNK..];
      }
      out := out + [left];
    }

    /** Drains the provider's stream: the non-empty deltas are what the sink receives. */
    method Consume(us: seq<Update>)
      returns (acc: string, tools: set<string>, tokensIn: nat, tokensOut: nat, out: seq<string>)
      ensures acc == Text(us) && out == Deltas(us) && tools == SetOf(ToolNames(us))
      ensures tokensIn == TokensIn(us) && tokensOut == TokensOut(us)
    {
      acc, tools, tokensIn, tokensOut, out := "", {}, 0, 0, [];
      assert us[0..] == us;
      EmptyStream();
      hide Text, ToolNames, TokensIn, TokensOut, Deltas, Named;
      for i := 0 to |us|
        invariant acc + Text(us[i..]) == Text(us)
        invariant tools + SetOf(ToolNames(us[i..])) == SetOf(ToolNames(us))
        invariant tokensIn + TokensIn(us[i..]) == TokensIn(us) && tokensOut + TokensOut(us[i..]) == TokensOut(us)
        invariant out + Deltas(us[i..]) == Deltas(us)
      {
        var u := us[i];
        StreamHead(us, i);
        Regroup(acc, u.text, Text(us[i + 1..]));
        Regroup(out, if u.text == "" then [] else [u.text], Deltas(us[i + 1..]));
        if u.text != "" {
          acc := acc + u.text;
          out := out + [u.text];
        }
        tools := tools + SetOf(Named(u.calls));
        tokensIn, tokensOut := tokensIn + u.tokensIn, tokensOut + u.tokensOut;
      }
      assert us[|us|..] == [];
    }

    method RunStreaming(d: Decision, env: Env) returns (res: Result, out: seq<string>)
      modifies this, shadow
      ensures (View(), res, out) == StreamEffect(old(View()), d, env)
    {
      if d.Hit? && (!d.evaluate || d.answerFromRule) {
        if d.evaluate {
          var resp := Compare(d, env);
        }
        res := RouterTail(d);
        out := EmitChunks(res.answer);
        return;
      }
      if d.Hit? {
        res := ShadowTail(d, env);
        out := EmitChunks(res.answer);
        return;
      }
      if env.llm.None? {
        AuditRow(Audit(LlmOff, "", "", false, 0));
        res := LlmOffResult;
        out := EmitChunks(res.answer);
        return;
      }
      var v := Classify(env);
      if v.Picked? {
        res := ClassifierTail(v, env);
        out := EmitChunks(res.answer);
        return;
      }
      llmCalls := llmCalls + 1;
      var us := env.llm.value.updates;
      var acc, tools, tokensIn, tokensOut;
      acc, tools, tokensIn, tokensOut, out := Consume(us);
      if env.llm.value.error.Some? {
        AuditRow(Audit(FromError, "", env.model, true, 0));
        res := ErrorResult(env.llm.value.error.value);
        var notice := EmitChunks(res.answer);
        out := out + notice;
        return;
      }
      fallbacks := fallbacks + [Fallback(Sorted(tools), env.model, tokensIn, tokensOut)];
      res := Result(acc, FromLlm, "", env.score(acc, |tools|, env.ruleCount));
      AuditRow(Audit(FromLlm, "", env.model, false, res.confidence));
    }
  }

  // ------------------------------------------------------------------ they make the same decisions

  /** Same rows, tool names compared as sets. */
  predicate SameStore(a: Store, b: Store) {
    && a.audits == b.audits && a.events == b.events && a.rules == b.rules
    && a.llmCalls == b.llmCalls && a.classifierCalls == b.classifierCalls
    && |a.fallbacks| == |b.fallbacks|
    && forall i :: 0 <= i < |a.fallbacks| ==>
         a.fallbacks[i].(tools := b.fallbacks[i].tools) == b.fallbacks[i]
         && ToolSet(a.fallbacks[i].tools) == ToolSet(b.fallbacks[i].tools)
  }

  function Concat(parts: seq<string>): string {
    if parts == [] then "" else parts[0] + Concat(parts[1..])
  }

  lemma {:induction false} ConcatAppend(a: seq<string>, b: seq<string>)
    ensures Concat(a + b) == Concat(a) + Concat(b)
  {
    if a == [] {
      assert a + b == b;
    } else {
      assert (a + b)[1..] == a[1..] + b;
      ConcatAppend(a[1..], b);
    }
  }

  lemma {:induction false} ChunksConcat(s: string)
    ensures Concat(Chunks(s)) == s
    ensures forall c :: c in Chunks(s) ==> 0 < |c| <= 256
    decreases |s|
  {
    if |s| > CHUNK {
      ChunksConcat(s[CHUNK..]);
      assert Chunks(s)[1..] == Chunks(s[CHUNK..]);
    } else if s != "" {
      assert Chunks(s)[1..] == [];
    }
  }

  lemma {:induction false} DeltasConcat(us: seq<Update>)
    ensures Concat(Deltas(us)) == Text(us)
  {
    if us != [] {
      DeltasConcat(us[1..]);
      var head := if us[0].text == "" then [] else [us[0].text];
      ConcatAppend(head, Deltas(us[1..]));
      if us[0].text != "" {
        assert head[1..] == [];
        assert Concat(head) == us[0].text + "";
      }
    }
  }

  /** The LLM was asked on a miss, and failed. */
  predicate LlmFails(d: Decision, env: Env) {
    d.Miss? && env.llm.Some? && !Picks(env) && env.llm.value.error.Some?
  }

  /**
   The two pipelines agree: same answer, source, rule and confidence; same audit rows, shadow
   events, rule states and provider calls; corpus rows equal up to how tool names are listed.
   The stores they start from need only agree in the same way.
   */
  lemma PipelinesAgree(s: Store, t: Store, d: Decision, env: Env)
    requires SameStore(s, t)
    ensures var (runStore, runResult) := RunEffect(s, d, env);
            var (streamStore, streamResult, _) := StreamEffect(t, d, env);
            runResult == streamResult && SameStore(runStore, streamStore)
  {
    if d.Hit? {
      HitsAgree(s, t, d, env);
    } else {
      MissesAgree(s, t, d, env);
    }
  }

  lemma HitsAgree(s: Store, t: Store, d: Decision, env: Env)
    requires d.Hit?
    requires SameStore(s, t)
    ensures var (runStore, runResult) := RunEffect(s, d, env);
            var (streamStore, streamResult, _) := StreamEffect(t, d, env);
            runResult == streamResult && SameStore(runStore, streamStore)
  {
    hide Text, Named, ToolNames, TokensIn, TokensOut, Deltas, Chunks, History, Evaluated;
  }

  lemma MissesAgree(s: Store, t: Store, d: Decision, env: Env)
    requires d.Miss?
    requires SameStore(s, t)
    ensures var (runStore, runResult) := RunEffect(s, d, env);
            var (streamStore, streamResult, _) := StreamEffect(t, d, env);
            runResult == streamResult && SameStore(runStore, streamStore)
  {
    hide Text, Named, ToolNames, TokensIn, TokensOut, Deltas, Chunks;
  }

  /** One prompt as the engine meets it: what the router decided and how the providers answer. */
  datatype Input = Input(decision: Decision, env: Env)

  function RunAll(s: Store, inputs: seq<Input>): (Store, seq<Result>)
    decreases |inputs|
  {
    if inputs == [] then (s, [])
    else
      var (s', r) := RunEffect(s, inputs[0].decision, inputs[0].env);
      var (s'', rs) := RunAll(s', inputs[1..]);
      (s'', [r] + rs)
  }

  function StreamAll(s: Store, inputs: seq<Input>): (Store, seq<Result>)
    decreases |inputs|
  {
    if inputs == [] then (s, [])
    else
      var (s', r, _) := StreamEffect(s, inputs[0].decision, inputs[0].env);
      var (s'', rs) := StreamAll(s', inputs[1..]);
      (s'', [r] + rs)
  }

  /** ... and so over any sequence of prompts: serving all of them streamed leaves the same store. */
  lemma {:induction false} SessionsAgree(s: Store, t: Store, inputs: seq<Input>)
    requires SameStore(s, t)
    ensures RunAll(s, inputs).1 == StreamAll(t, inputs).1
    ensures SameStore(RunAll(s, inputs).0, StreamAll(t, inputs).0)
    decreases |inputs|
  {
    hide RunEffect, StreamEffect, SameStore;
    if inputs != [] {
      var d, env := inputs[0].decision, inputs[0].env;
      PipelinesAgree(s, t, d, env);
      SessionsAgree(RunEffect(s, d, env).0, StreamEffect(t, d, env).0, inputs[1..]);
    }
  }

  lemma RunKeepsLifecycle(s: Store, d: Decision, env: Env, rules0: map<string, Rule>)
    requires s.rules == Processed(s.events, rules0, env.bar)
    ensures var s' := RunEffect(s, d, env).0; s'.rules == Processed(s'.events, rules0, env.bar)
  {
    RunShadows(s, d, env);
    hide RunEffect;
    if d.Hit? && env.llm.Some? && env.llm.value.error.None? {
      var us := env.llm.value.updates;
      var e := Event(d.rule, d.tool in ToolNames(us), ToolNames(us));
      hide ToolNames;
      assert (s.events + [e])[..|s.events|] == s.events;
    }
  }

  /** A run either leaves events and rules alone, or adds its one comparison. */
  lemma RunShadows(s: Store, d: Decision, env: Env)
    ensures var s' := RunEffect(s, d, env).0;
            || (s'.events == s.events && s'.rules == s.rules)
            || (d.Hit? && env.llm.Some? && env.llm.value.error.None?
                && (var c := Compared(s, d, env.llm.value.updates, env.bar); s'.events == c.events && s'.rules == c.rules))
  {
    hide Text, Named, ToolNames, TokensIn, TokensOut, History, Evaluated;
  }

  /** In a session every rule is where its own comparisons put it, and every prompt left one audit row. */
  lemma {:induction false} SessionLifecycle(s: Store, inputs: seq<Input>, rules0: map<string, Rule>, bar: int)
    requires s.rules == Processed(s.events, rules0, bar)
    requires forall i :: 0 <= i < |inputs| ==> inputs[i].env.bar == bar
    ensures var s' := RunAll(s, inputs).0;
            && s'.rules == Processed(s'.events, rules0, bar)
            && |s'.audits| == |s.audits| + |inputs|
    decreases |inputs|
  {
    if inputs != [] {
      var d, env := inputs[0].decision, inputs[0].env;
      RunKeepsLifecycle(s, d, env, rules0);
      OneAuditPerRun(s, d, env);
      hide RunEffect, Processed;
      SessionLifecycle(RunEffect(s, d, env).0, inputs[1..], rules0, bar);
    }
  }

  /**
   The chunks of a stream concatenate to the answer, except that a failing LLM leaves its
   partial text in front of the failure notice: then they do exactly when there was none.
   */
  lemma EmittedIsAnswer(s: Store, d: Decision, env: Env)
    ensures var (_, res, out) := StreamEffect(s, d, env);
            && (!LlmFails(d, env) ==> Concat(out) == res.answer)
            && (LlmFails(d, env) ==> Concat(out) == Text(env.llm.value.updates) + res.answer)
            && (Concat(out) == res.answer <==> !LlmFails(d, env) || Text(env.llm.value.updates) == "")
  {
    var (_, res, out) := StreamEffect(s, d, env);
    ChunksConcat(res.answer);
    if env.llm.Some? {
      var us := env.llm.value.updates;
      DeltasConcat(us);
      ConcatAppend(Deltas(us), Chunks(res.answer));
      PrefixChanges(Text(us), res.answer);
    }
  }

  lemma PrefixChanges(a: string, b: string)
    ensures a + b == b <==> a == ""
  {
    assert |a + b| == |a| + |b|;
    assert "" + b == b;
  }

  /** With the kill switch on, neither pipeline spends an LLM or classifier call or records a comparison or a fallback. */
  lemma KillSwitchIsAbsolute(s: Store, d: Decision, env: Env)
    requires env.llm.None?
    ensures RunEffect(s, d, env).0.llmCalls == s.llmCalls && RunEffect(s, d, env).0.classifierCalls == s.classifierCalls
    ensures StreamEffect(s, d, env).0.llmCalls == s.llmCalls && StreamEffect(s, d, env).0.classifierCalls == s.classifierCalls
    ensures RunEffect(s, d, env).0.events == s.events && RunEffect(s, d, env).0.fallbacks == s.fallbacks
    ensures StreamEffect(s, d, env).0.events == s.events && StreamEffect(s, d, env).0.fallbacks == s.fallbacks
    ensures RunEffect(s, d, env).0.rules == s.rules && StreamEffect(s, d, env).0.rules == s.rules
  {
  }

  /** Every run writes exactly one audit row, with the source and rule it reports, and calls the LLM at most once. */
  lemma OneAuditPerRun(s: Store, d: Decision, env: Env)
    ensures var (s', res) := RunEffect(s, d, env);
            && |s'.audits| == |s.audits| + 1 && s'.audits[..|s.audits|] == s.audits
            && s'.audits[|s.audits|].source == res.source && s'.audits[|s.audits|].rule == res.rule
            && s'.audits[|s.audits|].confidence == res.confidence
            && s'.llmCalls <= s.llmCalls + 1
            && (d.Hit? && !d.evaluate ==> s'.llmCalls == s.llmCalls)
  {
  }

  // ------------------------------------------------------------------ what is recorded, and what is answered

  lemma {:induction false} NamedMeans(calls: seq<string>, t: string)
    ensures t in Named(calls) <==> t != "" && t in calls
  {
    if calls != [] {
      NamedMeans(calls[1..], t);
      assert calls == [calls[0]] + calls[1..];
    }
  }

  /** Some update of the stream calls the tool, and the tool has a name. */
  predicate Calls(us: seq<Update>, t: string) {
    t != "" && exists i :: 0 <= i < |us| && t in us[i].calls
  }

  lemma {:induction false} ToolNamesMean(us: seq<Update>, t: string)
    ensures t in ToolNames(us) <==> Calls(us, t)
  {
    if us != [] {
      NamedMeans(us[0].calls, t);
      ToolNamesMean(us[1..], t);
      hide Named;
      if i :| t != "" && 0 <= i < |us| && t in us[i].calls {
        assert i > 0 ==> t in us[1..][i - 1].calls;
      }
      if i :| t != "" && 0 <= i < |us[1..]| && t in us[1..][i].calls {
        assert t in us[i + 1].calls;
      }
    }
  }

  /** The one comparison that separates `s'` from `s`: for this rule, and agreeing if the LLM called its tool. */
  predicate OneComparison(s: Store, s': Store, rule: string, agreed: bool) {
    && |s'.events| == |s.events| + 1 && s'.events[..|s.events|] == s.events
    && s'.events[|s.events|].rule == rule && s'.events[|s.events|].agreed == agreed
    && s'.rules.Keys == s.rules.Keys
    && (forall n :: n in s.rules && n != rule ==> s'.rules[n] == s.rules[n])
    && (rule in s.rules && !agreed ==> s'.rules[rule] == Rule(Demoted, false))
    && (rule in s.rules && agreed ==> s'.rules[rule] == s.rules[rule] || s'.rules[rule] == Rule(Active, true))
  }

  lemma ComparedMeans(s: Store, d: Decision, us: seq<Update>, bar: int)
    requires d.Hit?
    ensures OneComparison(s, Compared(s, d, us, bar), d.rule, Calls(us, d.tool))
  {
    ToolNamesMean(us, d.tool);
    hide Calls, ToolNames, History;
  }

  /** An evaluated hit whose LLM answers: then, and only then, a comparison is recorded. */
  predicate IsCompared(d: Decision, env: Env) {
    d.Hit? && d.evaluate && env.llm.Some? && env.llm.value.error.None?
  }

  lemma RunRecords(s: Store, d: Decision, env: Env)
    ensures var s' := RunEffect(s, d, env).0;
            if IsCompared(d, env)
            then var c := Compared(s, d, env.llm.value.updates, env.bar); s'.events == c.events && s'.rules == c.rules
            else s'.events == s.events && s'.rules == s.rules
  {
    hide Text, Named, ToolNames, TokensIn, TokensOut, History, Evaluated;
  }

  lemma StreamRecords(s: Store, d: Decision, env: Env)
    ensures var s' := StreamEffect(s, d, env).0;
            if IsCompared(d, env)
            then var c := Compared(s, d, env.llm.value.updates, env.bar); s'.events == c.events && s'.rules == c.rules
            else s'.events == s.events && s'.rules == s.rules
  {
    hide Text, Named, ToolNames, TokensIn, TokensOut, History, Evaluated, Deltas, Chunks;
  }

  /**
   What either pipeline records: nothing, unless the LLM answers on an evaluated hit; then one
   comparison for that rule, which agrees if and only if some update of the stream calls the rule's
   tool. A divergence demotes and disables the rule; an agreement does not, and no other rule moves.
   */
  lemma ComparisonMeans(s: Store, d: Decision, env: Env)
    ensures !IsCompared(d, env) ==>
              && RunEffect(s, d, env).0.events == s.events && RunEffect(s, d, env).0.rules == s.rules
              && StreamEffect(s, d, env).0.events == s.events && StreamEffect(s, d, env).0.rules == s.rules
    ensures IsCompared(d, env) ==>
              var agreed := Calls(env.llm.value.updates, d.tool);
              && OneComparison(s, RunEffect(s, d, env).0, d.rule, agreed)
              && OneComparison(s, StreamEffect(s, d, env).0, d.rule, agreed)
  {
    RunRecords(s, d, env);
    StreamRecords(s, d, env);
    if IsCompared(d, env) {
      ComparedMeans(s, d, env.llm.value.updates, env.bar);
    }
    hide RunEffect, StreamEffect, Compared, Calls;
  }

  /** The LLM is asked for this prompt. */
  predicate AsksLlm(d: Decision, env: Env) {
    env.llm.Some? && ((d.Hit? && d.evaluate) || (d.Miss? && !Picks(env)))
  }

  /** Who answers a prompt. */
  function Answerer(d: Decision, env: Env): Source {
    if d.Hit? then (if IsCompared(d, env) && !d.answerFromRule then FromLlm else FromRouter)
    else if env.llm.None? then LlmOff
    else if Picks(env) then FromClassifier
    else if env.llm.value.error.Some? then FromError
    else FromLlm
  }

  /**
   Who answers, what the answer is, and what it costs. The audit row repeats the source; a corpus row
   is written exactly for answers that did not come from the rules or the switch.
   */
  lemma AnswerMeans(s: Store, d: Decision, env: Env)
    ensures var (s', res) := RunEffect(s, d, env);
            var a := s'.audits[|s'.audits| - 1];
            && |s'.audits| == |s.audits| + 1
            && res.source == Answerer(d, env)
            && res.rule == (if d.Hit? then d.rule else "")
            && a == Audit(res.source, res.rule,
                          if res.source == FromLlm || res.source == FromError then env.model
                          else if res.source == FromClassifier then env.classifierModel else "",
                          res.source == FromError || (res.source == FromRouter && d.Hit? && d.error.Some?), res.confidence)
            && s'.llmCalls == s.llmCalls + (if AsksLlm(d, env) then 1 else 0)
            && s'.classifierCalls == s.classifierCalls
                                     + (if d.Miss? && env.llm.Some? && env.classifier.Some? then 1 else 0)
            && |s'.fallbacks| == |s.fallbacks| + (if res.source == FromLlm || res.source == FromClassifier then 1 else 0)
  {
    hide Text, Named, ToolNames, TokensIn, TokensOut, History, Evaluated;
  }

  /** The text of the answer, by who gives it. */
  lemma AnswerText(s: Store, d: Decision, env: Env)
    ensures var res := RunEffect(s, d, env).1;
            && (res.source == FromRouter && d.Hit? && d.error.None? ==> res.answer == d.text && res.confidence == 100)
            && (res.source == FromRouter && d.Hit? && d.error.Some? ==>
                  res.answer == "command \"" + d.rule + "\" failed: " + d.error.value && res.confidence == 0)
            && (res.source == FromLlm ==> env.llm.Some? && res.answer == Text(env.llm.value.updates))
            && (res.source == FromClassifier ==> Picks(env) && res.answer == env.classifier.value.answer)
            && (res.source == FromError ==> env.llm.Some? && env.llm.value.error.Some?
                                            && res.answer == "LLM run failed: " + env.llm.value.error.value)
            && (res.source == LlmOff ==> res.answer == LLM_OFF_ANSWER)
  {
    hide Text, Named, ToolNames, TokensIn, TokensOut, History, Evaluated;
  }

  /** The totals of a stream add up over its updates. */
  lemma {:induction false} TotalsAdd(us: seq<Update>, u: Update)
    ensures TokensIn(us + [u]) == TokensIn(us) + u.tokensIn && TokensOut(us + [u]) == TokensOut(us) + u.tokensOut
    ensures Text(us + [u]) == Text(us) + u.text
  {
    if us == [] {
      assert us + [u] == [u] && [u][1..] == [];
      assert u.text + "" == "" + u.text;
    } else {
      TotalsAdd(us[1..], u);
      assert (us + [u])[1..] == us[1..] + [u];
      Regroup(us[0].text, Text(us[1..]), u.text);
    }
  }

  /** The corpus row of an answer: the tools the LLM called, or the one the fast tier picked, and what it cost. */
  lemma CorpusMeans(s: Store, d: Decision, env: Env)
    ensures var (s', res) := RunEffect(s, d, env);
            && (res.source == FromLlm ==>
                  && env.llm.Some? && s'.fallbacks != [] && s'.fallbacks[..|s'.fallbacks| - 1] == s.fallbacks
                  && var us, f := env.llm.value.updates, s'.fallbacks[|s'.fallbacks| - 1];
                     && f.model == env.model && f.tokensIn == TokensIn(us) && f.tokensOut == TokensOut(us)
                     && (forall t :: t in ToolSet(f.tools) <==> Calls(us, t))
                     && res.confidence == env.score(res.answer, |ToolSet(f.tools)|, env.ruleCount))
            && (res.source == FromClassifier ==>
                  && Picks(env) && res.confidence == 90
                  && s'.fallbacks == s.fallbacks + [Fallback(InOrder([env.classifier.value.tool]), env.classifierModel, 0, 0)])
            && (res.source == FromError || res.source == LlmOff ==> res.confidence == 0)
  {
    if env.llm.Some? {
      forall t ensures t in ToolNames(env.llm.value.updates) <==> Calls(env.llm.value.updates, t) {
        ToolNamesMean(env.llm.value.updates, t);
      }
    }
    hide Text, Named, ToolNames, TokensIn, TokensOut, History, Evaluated, Calls;
  }
}
