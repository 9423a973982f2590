/** Task conditions: the syntax accepted by validation and its meaning at run time. */
module Conditions {
  import opened Text
  import opened Domain
  import Templates

  datatype Condition =
    | Always
    | OnSuccess(task: string)
    | OnFailed(task: string)
    | OutputContains(task: string, needle: string)
    | Malformed
    | Unsupported

  const ON_SUCCESS := "on_success:"
  const ON_FAILED := "on_failed:"
  const OUTPUT_CONTAINS := "output_contains:"

  /** The reading of a condition string that validation and evaluation share. */
  function Parse(raw: string): Condition {
    var c := TrimSpace(raw);
    if c == "" || c == "always" then Always
    else if HasPrefix(c, ON_SUCCESS) then OnSuccess(TrimSpace(c[|ON_SUCCESS|..]))
    else if HasPrefix(c, ON_FAILED) then OnFailed(TrimSpace(c[|ON_FAILED|..]))
    else if HasPrefix(c, OUTPUT_CONTAINS) then
      var rest := c[|OUTPUT_CONTAINS|..];
      var colon := Index(rest, ":");
      if colon < 0 then Malformed
      else OutputContains(TrimSpace(rest[..colon]), rest[colon + 1..])
    else Unsupported
  }

  datatype Decision = Run | Skip(reason: string)

  /** evaluateCondition. */
  function Evaluate(raw: string, results: map<string, Outcome>): Decision {
    var c := TrimSpace(raw);
    match Parse(raw)
    case Always => Run
    case OnSuccess(t) =>
      if t in results && results[t].status == Success then Run else Skip("condition not met: " + c)
    case OnFailed(t) =>
      if t in results && results[t].status == Failed then Run else Skip("condition not met: " + c)
    case OutputContains(t, needle) =>
      if t in results && Contains(results[t].output, needle) then Run else Skip("condition not met: " + c)
    case Malformed => Skip("invalid condition syntax: " + c)
    case Unsupported => Skip("unsupported condition: " + c)
  }

  /** The tasks a condition looks at. */
  function Reads(raw: string): set<string> {
    match Parse(raw)
    case OnSuccess(t) => {t}
    case OnFailed(t) => {t}
    case OutputContains(t, _) => {t}
    case _ => {}
  }

  datatype ConditionError = BadSyntax | UnknownReference(task: string) | UnsupportedCondition

  /** validateConditionReference. */
  function Check(raw: string, known: set<string>): (r: Option<ConditionError>)
    ensures r.None? ==> Reads(raw) <= known && "" !in Reads(raw) && !Parse(raw).Malformed? && !Parse(raw).Unsupported?
    ensures Reads(raw) <= known && "" !in Reads(raw) && !Parse(raw).Malformed? && !Parse(raw).Unsupported? ==> r.None?
  {
    match Parse(raw)
    case Always => None
    case OnSuccess(t) => if t == "" then Some(BadSyntax) else if t !in known then Some(UnknownReference(t)) else None
    case OnFailed(t) => if t == "" then Some(BadSyntax) else if t !in known then Some(UnknownReference(t)) else None
    case OutputContains(t, _) => if t == "" then Some(BadSyntax) else if t !in known then Some(UnknownReference(t)) else None
    case Malformed => Some(BadSyntax)
    case Unsupported => Some(UnsupportedCondition)
  }

  predicate HasStatus(results: map<string, Outcome>, task: string, status: TaskStatus) {
    task in results && results[task].status == status
  }

  ghost predicate Holds(text: string, needle: string) {
    exists k :: At(text, needle, k)
  }

  /** The text of a condition on an output: up to the first colon the task, behind it what to look for. */
  ghost predicate OnOutput(c: string, task: string, needle: string) {
    c == "output_contains:" + task + ":" + needle && ':' !in task
  }

  /** What a condition asks for, said of its text and of the results. */
  ghost predicate Met(raw: string, results: map<string, Outcome>) {
    var c := TrimSpace(raw);
    || c == "" || c == "always"
    || (exists t :: c == "on_success:" + t && HasStatus(results, TrimSpace(t), Success))
    || (exists t :: c == "on_failed:" + t && HasStatus(results, TrimSpace(t), Failed))
    || (exists t, n :: OnOutput(c, t, n) && TrimSpace(t) in results && Holds(results[TrimSpace(t)].output, n))
  }

  lemma PrefixSplits(c: string, prefix: string, rest: string)
    ensures HasPrefix(c, prefix) ==> c == prefix + c[|prefix|..]
    ensures c == prefix + rest ==> HasPrefix(c, prefix) && c[|prefix|..] == rest
  {
  }

  /** The first colon ends the name of the task. */
  lemma ColonSplits(task: string, needle: string)
    requires ':' !in task
    ensures Index(task + ":" + needle, ":") == |task|
  {
    var s := task + ":" + needle;
    AtOne(s, ':', |task|);
    forall j | 0 <= j < |task| ensures !At(s, ":", j) {
      AtOne(s, ':', j);
      assert s[j] == task[j];
    }
    IndexIsFirst(s, ":", |task|);
  }

  lemma ColonFound(rest: string)
    requires Index(rest, ":") >= 0
    ensures var k := Index(rest, ":"); k < |rest| && rest == rest[..k] + ":" + rest[k + 1..] && ':' !in rest[..k]
  {
    var k := Index(rest, ":");
    AtOne(rest, ':', k);
    forall j | 0 <= j < k ensures rest[j] != ':' {
      AtOne(rest, ':', j);
    }
  }

  /** A condition on an output names one task and one text. */
  lemma OutputRead(c: string, task: string, needle: string)
    requires OnOutput(c, task, needle)
    ensures HasPrefix(c, OUTPUT_CONTAINS) && Index(c[|OUTPUT_CONTAINS|..], ":") == |task|
    ensures var rest := c[|OUTPUT_CONTAINS|..]; rest[..|task|] == task && rest[|task| + 1..] == needle
  {
    assert c == OUTPUT_CONTAINS + (task + ":" + needle);
    PrefixSplits(c, OUTPUT_CONTAINS, task + ":" + needle);
    ColonSplits(task, needle);
  }

  lemma KindsApart(c: string)
    ensures HasPrefix(c, ON_SUCCESS) ==> !HasPrefix(c, ON_FAILED) && !HasPrefix(c, OUTPUT_CONTAINS) && c != "" && c != "always"
    ensures HasPrefix(c, ON_FAILED) ==> !HasPrefix(c, OUTPUT_CONTAINS) && c != "" && c != "always"
    ensures HasPrefix(c, OUTPUT_CONTAINS) ==> c != "" && c != "always"
  {
    assert ON_SUCCESS[3] == 's' && ON_FAILED[3] == 'f' && OUTPUT_CONTAINS[0] == 'o' && OUTPUT_CONTAINS[1] == 'u' && "always"[0] == 'a';
    assert ON_SUCCESS[1] == ON_FAILED[1] == 'n' && ON_SUCCESS[0] == ON_FAILED[0] == 'o';
    assert HasPrefix(c, ON_SUCCESS) ==> c[3] == 's' && c[1] == 'n' && c[0] == 'o';
    assert HasPrefix(c, ON_FAILED) ==> c[3] == 'f' && c[1] == 'n' && c[0] == 'o';
    assert HasPrefix(c, OUTPUT_CONTAINS) ==> c[1] == 'u' && c[0] == 'o';
  }

  /** What each kind of text is read as, and that nothing else is read as that. */
  lemma ReadAs(raw: string)
    ensures var c := TrimSpace(raw);
      && (Parse(raw).Always? <==> c == "" || c == "always")
      && (forall t :: c == "on_success:" + t ==> Parse(raw) == OnSuccess(TrimSpace(t)))
      && (forall t :: c == "on_failed:" + t ==> Parse(raw) == OnFailed(TrimSpace(t)))
      && (forall t, n :: OnOutput(c, t, n) ==> Parse(raw) == OutputContains(TrimSpace(t), n))
      && (Parse(raw).OnSuccess? ==> exists t :: c == "on_success:" + t && TrimSpace(t) == Parse(raw).task)
      && (Parse(raw).OnFailed? ==> exists t :: c == "on_failed:" + t && TrimSpace(t) == Parse(raw).task)
      && (Parse(raw).OutputContains? ==>
            exists t :: OnOutput(c, t, Parse(raw).needle) && TrimSpace(t) == Parse(raw).task)
  {
    var c := TrimSpace(raw);
    hide TrimSpace, HasPrefix;
    KindsApart(c);
    forall t ensures c == "on_success:" + t ==> HasPrefix(c, ON_SUCCESS) && c[|ON_SUCCESS|..] == t {
      PrefixSplits(c, ON_SUCCESS, t);
    }
    forall t ensures c == "on_failed:" + t ==> HasPrefix(c, ON_FAILED) && c[|ON_FAILED|..] == t {
      PrefixSplits(c, ON_FAILED, t);
    }
    forall t, n | OnOutput(c, t, n)
      ensures HasPrefix(c, OUTPUT_CONTAINS) && Parse(raw) == OutputContains(TrimSpace(t), n)
    {
      OutputRead(c, t, n);
    }
    PrefixSplits(c, ON_SUCCESS, "");
    PrefixSplits(c, ON_FAILED, "");
    PrefixSplits(c, OUTPUT_CONTAINS, "");
    match Parse(raw) {
      case OutputContains(task, needle) =>
        var rest := c[|OUTPUT_CONTAINS|..];
        ColonFound(rest);
        var t := rest[..Index(rest, ":")];
        assert c == "output_contains:" + t + ":" + needle;
        assert OnOutput(c, t, needle) && TrimSpace(t) == task;
      case OnSuccess(task) => assert c == "on_success:" + c[|ON_SUCCESS|..];
      case OnFailed(task) => assert c == "on_failed:" + c[|ON_FAILED|..];
      case _ =>
    }
  }

  /** A condition lets its task run exactly when what its text asks for holds of the results. */
  lemma EvaluateIff(raw: string, results: map<string, Outcome>)
    ensures Evaluate(raw, results).Run? <==> Met(raw, results)
  {
    hide TrimSpace, At, Parse, OnOutput;
    ReadAs(raw);
    forall t, n | t in results ensures Contains(results[t].output, n) <==> Holds(results[t].output, n) {
    }
  }

  predicate Named(task: string, known: set<string>) {
    task != "" && task in known
  }

  /** What validation asks of the text of a condition. */
  ghost predicate Usable(raw: string, known: set<string>) {
    var c := TrimSpace(raw);
    || c == "" || c == "always"
    || (exists t :: c == "on_success:" + t && Named(TrimSpace(t), known))
    || (exists t :: c == "on_failed:" + t && Named(TrimSpace(t), known))
    || (exists t, n :: OnOutput(c, t, n) && Named(TrimSpace(t), known))
  }

  lemma CheckIff(raw: string, known: set<string>)
    ensures Check(raw, known).None? <==> Usable(raw, known)
  {
    hide TrimSpace, Parse, OnOutput, Reads;
    ReadAs(raw);
  }

  /** A condition's decision depends on nothing but the results it reads. */
  lemma EvaluateReadsOnly(raw: string, small: map<string, Outcome>, large: map<string, Outcome>)
    requires forall t :: t in Reads(raw) ==> (t in small <==> t in large) && (t in small ==> small[t] == large[t])
    ensures Evaluate(raw, small) == Evaluate(raw, large)
  {
    assert Parse(raw).OnSuccess? ==> Parse(raw).task in Reads(raw);
    assert Parse(raw).OnFailed? ==> Parse(raw).task in Reads(raw);
    assert Parse(raw).OutputContains? ==> Parse(raw).task in Reads(raw);
  }

  /** A met condition stays met when results are only added. */
  lemma EvaluateMonotone(raw: string, small: map<string, Outcome>, large: map<string, Outcome>)
    requires small.Keys <= large.Keys && forall t :: t in small ==> large[t] == small[t]
    requires Evaluate(raw, small) == Run
    ensures Evaluate(raw, large) == Run
  {
  }

  lemma FixedTexts()
    ensures '$' !in "condition not met: " && '$' !in "invalid condition syntax: " && '$' !in "unsupported condition: "
  {
  }

  /** The reason for skipping cannot bring a template about when the condition cannot. */
  lemma ReasonInert(raw: string, results: map<string, Outcome>)
    requires Templates.Inert(TrimSpace(raw)) && Evaluate(raw, results).Skip?
    ensures Templates.Inert(Evaluate(raw, results).reason)
  {
    hide Parse, TrimSpace, Contains, Templates.Inert;
    FixedTexts();
    Templates.InertBehind("condition not met: ", TrimSpace(raw));
    Templates.InertBehind("invalid condition syntax: ", TrimSpace(raw));
    Templates.InertBehind("unsupported condition: ", TrimSpace(raw));
  }
}
