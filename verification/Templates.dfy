/** `${task.field}` templates: the rescanning rewrite of resolveValue and what it computes. */
module Templates {
  import opened Text
  import opened Domain

  datatype TemplateError =
    | Unclosed(raw: string)
    | BadToken(token: string)
    | UnknownTask(task: string)
    | BadField(field: string)
  {
    function Message(): string {
      match this
      case Unclosed(raw) => "unclosed template in input: " + raw
      case BadToken(token) => "invalid template token \"" + token + "\""
      case UnknownTask(task) => "template references unknown task \"" + task + "\""
      case BadField(field) => "unsupported template field \"" + field + "\""
    }
  }

  type Results = map<string, Outcome>

  const PREFIX := "${"

  /** What a template token stands for. */
  datatype Lookup = Value(text: string) | Unresolved(error: TemplateError)

  function LookUp(token: string, results: Results): Lookup {
    var parts := Split(token, '.');
    if |parts| != 2 then Unresolved(BadToken(token))
    else
      var task, field := TrimSpace(parts[0]), TrimSpace(parts[1]);
      if task !in results then Unresolved(UnknownTask(task))
      else if field == "output" then Value(results[task].output)
      else if field == "status" then Value(StatusText(results[task].status))
      else if field == "error" then Value(results[task].error)
      else Unresolved(BadField(field))
  }

  /** The token is a known task and a known field around its only dot, blanks aside. */
  ghost predicate NamesField(token: string, i: int, results: Results) {
    && 0 <= i < |token| && '.' !in token[..i] && token[i] == '.' && '.' !in token[i + 1..]
    && TrimSpace(token[..i]) in results && TrimSpace(token[i + 1..]) in {"output", "status", "error"}
  }

  /** Which tokens stand for something. */
  lemma LookUpIff(token: string, results: Results)
    ensures LookUp(token, results).Value? <==> exists i :: NamesField(token, i, results)
  {
    hide TrimSpace, Index;
    var k := Index(token, ".");
    if k >= 0 {
      DotSplits(token, k);
      if '.' in token[k + 1..] {
        DotsSplit(token[k + 1..]);
      } else {
        SplitLast(token[k + 1..], '.');
        assert LookUp(token, results).Value? ==> NamesField(token, k, results);
      }
      forall i | NamesField(token, i, results) ensures i == k {
        OnBothSides(token, i, k);
      }
    } else {
      forall i | 0 <= i < |token| ensures token[i] != '.' {
        AtOne(token, '.', i);
      }
    }
  }

  lemma OnBothSides(s: string, i: int, k: int)
    requires 0 <= i < |s| && 0 <= k < |s|
    ensures k < i ==> s[k] in s[..i]
    ensures i < k ==> s[k] in s[i + 1..]
  {
    if k < i {
      assert s[..i][k] == s[k];
    } else if i < k {
      assert s[i + 1..][k - i - 1] == s[k];
    }
  }

  lemma DotSplits(token: string, k: int)
    requires k >= 0 && k == Index(token, ".")
    ensures k < |token| && token[k] == '.' && '.' !in token[..k]
    ensures Split(token, '.') == [token[..k]] + Split(token[k + 1..], '.')
  {
    hide Split, IndexFrom;
    AtOne(token, '.', k);
    forall i | 0 <= i < k ensures token[i] != '.' {
      AtOne(token, '.', i);
    }
    assert token == token[..k] + ['.'] + token[k + 1..];
    SplitHead(token[..k], '.', token[k + 1..]);
  }

  lemma DotsSplit(rest: string)
    requires '.' in rest
    ensures |Split(rest, '.')| > 1
  {
    hide Index;
    var i :| 0 <= i < |rest| && rest[i] == '.';
    AtOne(rest, '.', i);
  }

  /** `${` stands at position `i`. */
  predicate Opens(s: string, i: int) {
    0 <= i < |s| - 1 && s[i] == '$' && s[i + 1] == '{'
  }

  lemma OpensIsAt(s: string, i: int)
    ensures Opens(s, i) <==> At(s, PREFIX, i)
  {
    if 0 <= i <= |s| - 2 {
      assert s[i..i + 2] == [s[i], s[i + 1]];
    }
  }

  /** A string that starts with `${`, read as one template. */
  datatype Opening = Defective(error: TemplateError) | Closed(length: nat, text: string)

  function ScanOpening(s: string, raw: string, results: Results): (o: Opening)
    requires At(s, PREFIX, 0)
    ensures o.Closed? ==> 2 <= o.length < |s|
  {
    var length := Index(s, "}");
    if length < 0 then Defective(Unclosed(raw))
    else
      assert length >= 2 by { AtOne(s, '}', length); OpensIsAt(s, 0); }
      match LookUp(TrimSpace(s[2..length]), results)
      case Unresolved(e) => Defective(e)
      case Value(text) => Closed(length, text)
  }

  /** The first template of a string: where it stands and what its token means. */
  datatype Hit = Plain | Broken(error: TemplateError) | Template(start: nat, end: nat, text: string)

  function Scan(s: string, raw: string, results: Results): (h: Hit)
    ensures h.Template? ==> h.start + 2 <= h.end < |s| && At(s, PREFIX, h.start)
  {
    var start := Index(s, PREFIX);
    if start < 0 then Plain
    else
      assert s[start..start + 2] == s[start..][..2];
      match ScanOpening(s[start..], raw, results)
      case Defective(e) => Broken(e)
      case Closed(length, text) => Template(start, start + length, text)
  }

  function Splice(s: string, start: nat, end: nat, text: string): string
    requires start <= end < |s|
  {
    s[..start] + text + s[end + 1..]
  }

  datatype Resolution = Text(text: string) | Rejected(error: TemplateError) | Diverges

  /** The rewrite loop cut off after `fuel` replacements; None when it has not ended by then. */
  function Rewrite(fuel: nat, s: string, raw: string, results: Results): Option<Resolution> {
    match Scan(s, raw, results)
    case Plain => Some(Text(s))
    case Broken(e) => Some(Rejected(e))
    case Template(start, end, text) =>
      if fuel == 0 then None else Rewrite(fuel - 1, Splice(s, start, end, text), raw, results)
  }

  ghost predicate Settles(raw: string, results: Results) {
    exists fuel: nat :: Rewrite(fuel, raw, raw, results).Some?
  }

  /** What resolveValue yields, including not returning at all. */
  ghost function Resolve(raw: string, results: Results): Resolution {
    if Settles(raw, results) then
      var fuel: nat :| Rewrite(fuel, raw, raw, results).Some?;
      Rewrite(fuel, raw, raw, results).value
    else Diverges
  }

  lemma {:induction false} MoreFuel(n: nat, m: nat, s: string, raw: string, results: Results)
    requires n <= m && Rewrite(n, s, raw, results).Some?
    ensures Rewrite(m, s, raw, results) == Rewrite(n, s, raw, results)
  {
    hide Scan;
    match Scan(s, raw, results)
    case Plain =>
    case Broken(e) =>
    case Template(start, end, text) =>
      MoreFuel(n - 1, m - 1, Splice(s, start, end, text), raw, results);
  }

  /** The amount of fuel does not matter once it suffices. */
  lemma ResolveBy(fuel: nat, raw: string, results: Results)
    requires Rewrite(fuel, raw, raw, results).Some?
    ensures Settles(raw, results) && Resolve(raw, results) == Rewrite(fuel, raw, raw, results).value
    ensures !Resolve(raw, results).Diverges?
  {
    var other: nat :| Rewrite(other, raw, raw, results).Some? && Resolve(raw, results) == Rewrite(other, raw, raw, results).value;
    if other <= fuel {
      MoreFuel(other, fuel, raw, raw, results);
    } else {
      MoreFuel(fuel, other, raw, raw, results);
    }
    RewriteAnswers(fuel, raw, raw, results);
  }

  lemma {:induction false} RewriteAnswers(fuel: nat, s: string, raw: string, results: Results)
    requires Rewrite(fuel, s, raw, results).Some?
    ensures !Rewrite(fuel, s, raw, results).value.Diverges?
  {
    hide Scan;
    match Scan(s, raw, results)
    case Plain =>
    case Broken(e) =>
    case Template(start, end, text) =>
      RewriteAnswers(fuel - 1, Splice(s, start, end, text), raw, results);
  }

  /** resolveValue, watched for `patience` replacements. The source loop has no bound: None
      stands for a call that is still rewriting by then. */
  method ResolveValue(raw: string, results: Results, patience: nat) returns (r: Option<Resolution>)
    ensures r == Rewrite(patience, raw, raw, results)
    ensures r.Some? ==> r.value == Resolve(raw, results) && !r.value.Diverges?
  {
    hide Scan, Splice;
    var output, left := raw, patience;
    while true
      invariant 0 <= left <= patience
      invariant Rewrite(left, output, raw, results) == Rewrite(patience, raw, raw, results)
      decreases left
    {
      match Scan(output, raw, results)
      case Plain =>
        ResolveBy(patience, raw, results);
        return Some(Text(output));
      case Broken(e) =>
        ResolveBy(patience, raw, results);
        return Some(Rejected(e));
      case Template(start, end, text) =>
        if left == 0 {
          return None;
        }
        output := Splice(output, start, end, text);
        left := left - 1;
    }
  }

  // ----- Locality -----

  ghost predicate Extends(small: Results, large: Results) {
    small.Keys <= large.Keys && forall t :: t in small ==> large[t] == small[t]
  }

  /** The resolution did not look for a task that only the larger map knows. */
  ghost predicate StaysWithin(r: Resolution, large: set<string>) {
    !(r.Rejected? && r.error.UnknownTask? && r.error.task in large)
  }

  lemma ScanLocal(s: string, raw: string, small: Results, large: Results)
    requires Extends(small, large)
    requires var h := Scan(s, raw, small); !(h.Broken? && h.error.UnknownTask? && h.error.task in large)
    ensures Scan(s, raw, large) == Scan(s, raw, small)
  {
    hide Split, TrimSpace;
  }

  lemma {:induction false} RewriteLocal(fuel: nat, s: string, raw: string, small: Results, large: Results)
    requires Extends(small, large)
    requires Rewrite(fuel, s, raw, small).Some? && StaysWithin(Rewrite(fuel, s, raw, small).value, large.Keys)
    ensures Rewrite(fuel, s, raw, large) == Rewrite(fuel, s, raw, small)
  {
    hide Scan;
    match Scan(s, raw, small)
    case Plain =>
      ScanLocal(s, raw, small, large);
    case Broken(e) =>
      ScanLocal(s, raw, small, large);
    case Template(start, end, text) =>
      ScanLocal(s, raw, small, large);
      RewriteLocal(fuel - 1, Splice(s, start, end, text), raw, small, large);
  }

  /** Adding results cannot change a resolution that never missed one of them. */
  lemma ResolveLocal(raw: string, small: Results, large: Results)
    requires Extends(small, large)
    requires !Resolve(raw, small).Diverges? && StaysWithin(Resolve(raw, small), large.Keys)
    ensures Resolve(raw, large) == Resolve(raw, small)
  {
    var fuel: nat :| Rewrite(fuel, raw, raw, small).Some? && Resolve(raw, small) == Rewrite(fuel, raw, raw, small).value;
    RewriteLocal(fuel, raw, raw, small, large);
    ResolveBy(fuel, raw, large);
  }

  lemma ScanUnknown(s: string, raw: string, results: Results)
    ensures var h := Scan(s, raw, results); h.Broken? && h.error.UnknownTask? ==> h.error.task !in results
    ensures var h := Scan(s, raw, results); h.Broken? && h.error.Unclosed? ==> h.error.raw == raw
  {
    hide Split, TrimSpace;
  }

  lemma {:induction false} RewriteUnknown(fuel: nat, s: string, raw: string, results: Results)
    ensures var r := Rewrite(fuel, s, raw, results);
      && (r.Some? && r.value.Rejected? && r.value.error.UnknownTask? ==> r.value.error.task !in results)
      && (r.Some? && r.value.Rejected? && r.value.error.Unclosed? ==> r.value.error.raw == raw)
  {
    hide Scan;
    ScanUnknown(s, raw, results);
    match Scan(s, raw, results)
    case Plain =>
    case Broken(e) =>
    case Template(start, end, text) =>
      if fuel > 0 {
        RewriteUnknown(fuel - 1, Splice(s, start, end, text), raw, results);
      }
  }

  /** A task reported unknown is unknown, and a text reported unclosed is the value itself. */
  lemma ResolveUnknown(raw: string, results: Results)
    ensures var r := Resolve(raw, results); r.Rejected? && r.error.UnknownTask? ==> r.error.task !in results
    ensures var r := Resolve(raw, results); r.Rejected? && r.error.Unclosed? ==> r.error.raw == raw
  {
    if !Resolve(raw, results).Diverges? {
      var fuel: nat :| Rewrite(fuel, raw, raw, results).Some? && Resolve(raw, results) == Rewrite(fuel, raw, raw, results).value;
      RewriteUnknown(fuel, raw, raw, results);
    }
  }

  // ----- Termination -----

  lemma IndexOpens(s: string)
    ensures var k := Index(s, PREFIX); k == -1 || Opens(s, k)
    ensures forall j :: Opens(s, j) ==> 0 <= Index(s, PREFIX) <= j
  {
    OpensIsAt(s, Index(s, PREFIX));
    forall j | Opens(s, j) ensures 0 <= Index(s, PREFIX) <= j {
      OpensIsAt(s, j);
    }
  }

  /** The trimmed tokens between any opening brace and the next closing one. */
  function Groups(s: string): set<string> {
    if s == "" then {}
    else
      var close := Index(s[1..], "}");
      (if s[0] == '{' && close >= 0 then {TrimSpace(s[1..][..close])} else {}) + Groups(s[1..])
  }

  /** No text these tokens stand for contains the character. */
  ghost predicate TextsFree(tokens: set<string>, results: Results, c: char) {
    forall token :: token in tokens && LookUp(token, results).Value? ==> c !in LookUp(token, results).text
  }

  lemma {:induction false} GroupsDrop(s: string, k: nat)
    requires k <= |s|
    ensures Groups(s[k..]) <= Groups(s)
  {
    if k > 0 {
      GroupsDrop(s[1..], k - 1);
      assert s[1..][k - 1..] == s[k..];
    } else {
      assert s[0..] == s;
    }
  }

  /** The first closing brace after an opening is the first one after its second character. */
  lemma CloseAfter(s: string)
    requires Opens(s, 0)
    ensures Index(s, "}") < 0 <==> Index(s[2..], "}") < 0
    ensures Index(s, "}") >= 0 ==> Index(s, "}") == Index(s[2..], "}") + 2
  {
    forall j ensures At(s, "}", j) <==> j >= 2 && At(s[2..], "}", j - 2) {
      AtOne(s[2..], '}', j - 2);
      AtOne(s, '}', j);
    }
    var k := Index(s[2..], "}");
    assert k >= 0 ==> At(s, "}", k + 2);
    assert Index(s, "}") >= 0 ==> At(s[2..], "}", Index(s, "}") - 2);
  }

  /** The token of a template is the group of its brace. */
  lemma TemplateGroup(s: string, start: nat, raw: string, results: Results)
    requires Index(s, PREFIX) == start && Scan(s, raw, results).Template?
    ensures var h := Scan(s, raw, results); start + 1 <= |s| && exists token :: token in Groups(s[start + 1..]) && LookUp(token, results) == Value(h.text)
  {
    hide LookUp, TrimSpace, Index;
    IndexOpens(s);
    var tail := s[start..];
    CloseAfter(tail);
    var after := s[start + 1..];
    assert after[0] == '{' && after[1..] == tail[2..];
    var close := Index(tail[2..], "}");
    assert tail[2..close + 2] == after[1..][..close];
    var token := TrimSpace(after[1..][..close]);
    assert token in Groups(after);
    OpensIsAt(tail, 0);
    assert ScanOpening(tail, raw, results).Closed?;
    assert Index(tail, "}") == close + 2;
    assert LookUp(TrimSpace(tail[2..close + 2]), results) == Value(ScanOpening(tail, raw, results).text);
    assert token == TrimSpace(tail[2..close + 2]);
  }

  /** Once nothing in front opens a template, the next template stands in the rest. */
  lemma NextInRest(done: string, rest: string)
    requires Index(done, PREFIX) < 0 && Index(done + rest, PREFIX) >= 0
    ensures |done| <= Index(done + rest, PREFIX) + 1 < |done + rest|
  {
    hide Index;
    IndexOpens(done);
    IndexOpens(done + rest);
    var k := Index(done + rest, PREFIX);
    assert k + 1 < |done| ==> Opens(done, k);
  }

  lemma StillUnopened(s: string, start: nat, text: string)
    requires Index(s, PREFIX) == start && '{' !in text
    ensures Index(s[..start] + text, PREFIX) < 0
  {
    hide Index;
    IndexOpens(s);
    var front := s[..start] + text;
    forall j ensures !Opens(front, j) {
      assert Opens(front, j) && j + 1 < start ==> Opens(s, j);
      assert start <= j + 1 < |front| ==> front[j + 1] in text;
    }
    IndexOpens(front);
  }

  lemma {:induction false} TailLosesBrace(s: string, k: nat)
    requires k < |s| && s[k] == '{'
    ensures forall m :: k < m <= |s| ==> Count(s[m..], '{') < Count(s, '{')
  {
    forall m | k < m <= |s| ensures Count(s[m..], '{') < Count(s, '{') {
      assert s == s[..k] + (s[k..m] + s[m..]);
      CountConcat(s[..k], s[k..m] + s[m..], '{');
      CountConcat(s[k..m], s[m..], '{');
      assert s[k..m][0] == '{';
    }
  }

  /** What a replacement leaves: less still to scan, and nothing opened in front of it. */
  lemma GroupStep(done: string, rest: string, raw: string, results: Results)
    requires Index(done, PREFIX) < 0 && TextsFree(Groups(rest), results, '{')
    requires Scan(done + rest, raw, results).Template?
    ensures var Template(start, end, text) := Scan(done + rest, raw, results);
      && |done| <= end + 1 && '{' !in text
      && var left := (done + rest)[end + 1..];
         && Count(left, '{') < Count(rest, '{') && TextsFree(Groups(left), results, '{')
         && Index((done + rest)[..start] + text, PREFIX) < 0
  {
    var s := done + rest;
    ScanIsFirst(s, raw, results);
    hide Index, LookUp, Groups, Count;
    var Template(start, end, text) := Scan(s, raw, results);
    TemplateGroup(s, start, raw, results);
    NextInRest(done, rest);
    IndexOpens(s);
    hide Scan;
    var k := start + 1 - |done|;
    assert s[start + 1..] == rest[k..] && rest[k] == '{';
    GroupsDrop(rest, k);
    var m := end + 1 - |done|;
    assert s[end + 1..] == rest[m..];
    GroupsDrop(rest, m);
    TailLosesBrace(rest, k);
    StillUnopened(s, start, text);
  }

  lemma ScanIsFirst(s: string, raw: string, results: Results)
    ensures Scan(s, raw, results).Template? ==> Index(s, PREFIX) == Scan(s, raw, results).start
  {
    hide ScanOpening;
  }

  /** Each replacement uses up an opening brace of what was there at first, so the rewrite ends. */
  lemma {:induction false} RewriteEnds(fuel: nat, done: string, rest: string, raw: string, results: Results)
    requires Index(done, PREFIX) < 0 && TextsFree(Groups(rest), results, '{') && fuel >= Count(rest, '{')
    ensures Rewrite(fuel, done + rest, raw, results).Some?
    decreases fuel
  {
    hide Scan, Index, Groups, TextsFree, Count;
    match Scan(done + rest, raw, results)
    case Plain =>
    case Broken(e) =>
    case Template(start, end, text) =>
      GroupStep(done, rest, raw, results);
      RewriteEnds(fuel - 1, (done + rest)[..start] + text, (done + rest)[end + 1..], raw, results);
  }

  /** Resolution ends when no text that a group of the value itself stands for contains an opening
      brace. Texts nobody asks for do not matter. */
  lemma BraceFreeSettles(raw: string, results: Results)
    requires TextsFree(Groups(raw), results, '{')
    ensures Settles(raw, results)
  {
    IndexOpens("");
    assert "" + raw == raw;
    RewriteEnds(Count(raw, '{'), "", raw, raw, results);
  }

  const SELF := "${a.output}"

  lemma SelfToken(results: Results)
    requires "a" in results
    ensures LookUp(TrimSpace("a.output"), results) == Value(results["a"].output)
  {
    hide Split, TrimSpace;
    TrimKeeps("a.output");
    assert "a.output" == "a" + ['.'] + "output";
    SplitHead("a", '.', "output");
    SplitLast("output", '.');
    TrimKeeps("a");
    TrimKeeps("output");
  }

  lemma SelfScan(results: Results)
    requires "a" in results
    ensures Scan(SELF, SELF, results) == Template(0, 10, results["a"].output)
  {
    hide LookUp, TrimSpace, Index, At;
    OpensIsAt(SELF, 0);
    IndexIsFirst(SELF, PREFIX, 0);
    assert SELF[0..] == SELF;
    AtOne(SELF, '}', 10);
    forall j ensures At(SELF, "}", j) ==> j >= 10 {
      AtOne(SELF, '}', j);
    }
    IndexIsFirst(SELF, "}", 10);
    assert SELF[2..10] == "a.output";
    SelfToken(results);
  }

  /** The proviso matters: an output that is its own template is rewritten for ever. */
  lemma {:induction false} SelfReferenceDiverges(fuel: nat, status: TaskStatus, error: string, attempts: nat)
    ensures Rewrite(fuel, SELF, SELF, map["a" := Outcome(status, SELF, error, attempts)]).None?
  {
    hide Scan;
    SelfScan(map["a" := Outcome(status, SELF, error, attempts)]);
    if fuel > 0 {
      assert Splice(SELF, 0, 10, SELF) == SELF;
      SelfReferenceDiverges(fuel - 1, status, error, attempts);
    }
  }

  // ----- One left-to-right pass -----

  /** Substitution that never looks at replaced text again. */
  function Substitute(s: string, raw: string, results: Results): Resolution {
    match Scan(s, raw, results)
    case Plain => Text(s)
    case Broken(e) => Rejected(e)
    case Template(start, end, text) =>
      match Substitute(s[end + 1..], raw, results)
      case Text(rest) => Text(s[..start] + text + rest)
      case failure => failure
  }

  predicate EndsInDollar(s: string) {
    s != "" && s[|s| - 1] == '$'
  }

  lemma FirstOpens(s: string, k: int)
    requires Opens(s, k) && forall j :: Opens(s, j) ==> k <= j
    ensures Index(s, PREFIX) == k
  {
    IndexOpens(s);
  }

  lemma NeverOpens(s: string)
    requires forall j :: !Opens(s, j)
    ensures Index(s, PREFIX) == -1
  {
    IndexOpens(s);
  }

  /** Finished text in front of a string does not change which template comes first. */
  lemma IndexBehind(done: string, s: string)
    requires Index(done, PREFIX) < 0 && !EndsInDollar(done)
    ensures var k := Index(s, PREFIX); Index(done + s, PREFIX) == if k < 0 then -1 else |done| + k
  {
    hide Index;
    IndexOpens(done);
    IndexOpens(s);
    forall j | Opens(done + s, j) ensures Opens(s, j - |done|) {
      assert Opens(done, j) || j >= |done|;
    }
    if Index(s, PREFIX) >= 0 {
      FirstOpens(done + s, |done| + Index(s, PREFIX));
    } else {
      NeverOpens(done + s);
    }
  }

  /** A text that neither holds nor can help to form the opening of a template. */
  ghost predicate Inert(text: string) {
    Index(text, PREFIX) < 0 && !EndsInDollar(text)
  }

  lemma ScanBehind(done: string, s: string, raw: string, results: Results)
    requires Inert(done)
    ensures var h := Scan(s, raw, results);
      Scan(done + s, raw, results) == if h.Template? then Template(|done| + h.start, |done| + h.end, h.text) else h
  {
    hide ScanOpening, Index;
    IndexBehind(done, s);
    var k := Index(s, PREFIX);
    if k >= 0 {
      assert (done + s)[|done| + k..] == s[k..];
    }
  }

  lemma StillPlain(done: string, mid: string, text: string)
    requires Inert(done) && Inert(mid) && Inert(text)
    ensures Inert(done + mid + text)
  {
    hide Index;
    IndexBehind(done, mid);
    NoLastDollar(done, mid);
    IndexBehind(done + mid, text);
    NoLastDollar(done + mid, text);
  }

  lemma NoLastDollar(front: string, back: string)
    requires !EndsInDollar(front) && !EndsInDollar(back)
    ensures !EndsInDollar(front + back)
  {
  }

  lemma NoDollarInert(text: string)
    requires '$' !in text
    ensures Inert(text)
  {
    hide Index;
    IndexOpens(text);
  }

  /** Text without dollars in front does not matter. */
  lemma InertBehind(front: string, text: string)
    requires '$' !in front && Inert(text)
    ensures Inert(front + text)
  {
    hide Inert;
    NoDollarInert(front);
    NoDollarInert("");
    StillPlain(front, text, "");
    assert front + text + "" == front + text;
  }

  /** What stands before the first template holds none. */
  lemma BeforeFirst(s: string, start: nat)
    requires Index(s, PREFIX) == start
    ensures start <= |s| && Index(s[..start], PREFIX) < 0
    ensures start == 0 || s[start - 1] != '$' ==> Inert(s[..start])
  {
    hide Index;
    IndexOpens(s);
    IndexOpens(s[..start]);
    assert forall j :: Opens(s[..start], j) ==> Opens(s, j);
  }

  ghost predicate NoDoubleDollar(s: string) {
    forall i :: !At(s, "$${", i)
  }

  lemma AtShift(s: string, sub: string, k: nat, i: int)
    requires k <= |s|
    ensures At(s[k..], sub, i) ==> At(s, sub, k + i)
  {
    if At(s[k..], sub, i) {
      assert s[k + i..k + i + |sub|] == s[k..][i..i + |sub|];
    }
  }

  lemma NoDoubleDollarAfter(s: string, k: nat)
    requires NoDoubleDollar(s) && k <= |s|
    ensures NoDoubleDollar(s[k..])
  {
    forall i ensures !At(s[k..], "$${", i) {
      AtShift(s, "$${", k, i);
    }
  }

  ghost function Prepend(front: string, r: Resolution): Resolution {
    if r.Text? then Text(front + r.text) else r
  }

  /** The trimmed tokens of the templates that stand in the text itself. */
  function Tokens(s: string): set<string> {
    var start := Index(s, PREFIX);
    if start < 0 then {}
    else
      var tail := s[start..];
      assert tail[..2] == s[start..start + 2];
      var length := Index(tail, "}");
      if length < 0 then {}
      else
        assert length >= 2 by { AtOne(tail, '}', length); OpensIsAt(tail, 0); }
        {TrimSpace(tail[2..length])} + Tokens(tail[length + 1..])
  }

  /** The texts these tokens stand for are inert. */
  ghost predicate AllInert(tokens: set<string>, results: Results) {
    forall token :: token in tokens && LookUp(token, results).Value? ==> Inert(LookUp(token, results).text)
  }

  lemma ScanTokens(s: string, raw: string, results: Results)
    ensures var h := Scan(s, raw, results);
      && (h.Broken? && h.error.UnknownTask? ==> exists token :: token in Tokens(s) && LookUp(token, results) == Unresolved(h.error))
      && (h.Template? ==>
           && Tokens(s[h.end + 1..]) <= Tokens(s)
           && exists token :: token in Tokens(s) && LookUp(token, results) == Value(h.text))
  {
    var start := Index(s, PREFIX);
    hide LookUp, TrimSpace, Index;
    if start >= 0 {
      var tail := s[start..];
      var length := Index(tail, "}");
      if length >= 0 {
        assert tail[..2] == s[start..start + 2];
        assert length >= 2 by { AtOne(tail, '}', length); OpensIsAt(tail, 0); }
        assert tail[length + 1..] == s[start + length + 1..];
        assert TrimSpace(tail[2..length]) in Tokens(s);
      }
    }
  }

  /** What one replacement leaves: more finished text, and less still to scan. */
  lemma AfterReplacement(done: string, s: string, raw: string, results: Results)
    requires AllInert(Tokens(s), results) && Inert(done) && NoDoubleDollar(s)
    requires Scan(s, raw, results).Template?
    ensures var Template(start, end, text) := Scan(s, raw, results);
      var front := done + s[..start] + text;
      && Inert(front) && NoDoubleDollar(s[end + 1..]) && AllInert(Tokens(s[end + 1..]), results)
      && Count(s[end + 1..], '{') < Count(s, '{')
      && Splice(done + s, |done| + start, |done| + end, text) == front + s[end + 1..]
  {
    hide Count, Index, LookUp, Tokens, Inert;
    ScanTokens(s, raw, results);
    ScanIsFirst(s, raw, results);
    var Template(start, end, text) := Scan(s, raw, results);
    hide Scan;
    IndexOpens(s);
    TailLosesBrace(s, start + 1);
    if start > 0 {
      OpensIsAt(s, start);
      assert s[start - 1..start + 2] == [s[start - 1]] + s[start..start + 2];
      assert !At(s, "$${", start - 1);
    }
    BeforeFirst(s, start);
    StillPlain(done, s[..start], text);
    NoDoubleDollarAfter(s, end + 1);
  }

  lemma {:induction false} RewriteIsSubstitute(fuel: nat, done: string, s: string, raw: string, results: Results)
    requires AllInert(Tokens(s), results) && Inert(done) && NoDoubleDollar(s)
    requires fuel >= Count(s, '{')
    ensures Rewrite(fuel, done + s, raw, results) == Some(Prepend(done, Substitute(s, raw, results)))
    decreases fuel
  {
    hide Scan, Count, Index, At, AllInert, Tokens, NoDoubleDollar, Inert, Splice;
    ScanBehind(done, s, raw, results);
    match Scan(s, raw, results)
    case Plain =>
    case Broken(e) =>
    case Template(start, end, text) =>
      AfterReplacement(done, s, raw, results);
      var front, rest := done + s[..start] + text, s[end + 1..];
      RewriteIsSubstitute(fuel - 1, front, rest, raw, results);
      if Substitute(rest, raw, results).Text? {
        var tail := Substitute(rest, raw, results).text;
        assert front + tail == done + (s[..start] + text + tail);
      }
  }

  /** The rescanning rewrite equals one left-to-right pass, errors included, whenever the texts that
      the value itself asks for are inert. */
  lemma RescanIsOnePass(raw: string, results: Results)
    requires AllInert(Tokens(raw), results) && NoDoubleDollar(raw)
    ensures Resolve(raw, results) == Substitute(raw, raw, results)
  {
    var fuel := Count(raw, '{');
    assert "" + raw == raw;
    IndexOpens("");
    RewriteIsSubstitute(fuel, "", raw, raw, results);
    var r := Substitute(raw, raw, results);
    assert Prepend("", r) == r by {
      if r.Text? {
        assert "" + r.text == r.text;
      }
    }
    ResolveBy(fuel, raw, results);
  }

  /** The task a token names, if it has the form of a reference. */
  function Named(token: string): Option<string> {
    var parts := Split(token, '.');
    if |parts| == 2 then Some(TrimSpace(parts[0])) else None
  }

  /** The field such a token names. */
  function FieldOf(token: string): string {
    var parts := Split(token, '.');
    if |parts| == 2 then TrimSpace(parts[1]) else ""
  }

  /** The tasks named by the templates that stand in the text itself. */
  function Names(s: string): set<string> {
    set token | token in Tokens(s) && Named(token).Some? :: Named(token).value
  }

  lemma {:induction false} SubstituteUnknown(s: string, raw: string, results: Results)
    ensures var r := Substitute(s, raw, results);
      r.Rejected? && r.error.UnknownTask? ==> exists token :: token in Tokens(s) && LookUp(token, results) == Unresolved(r.error)
    ensures !Substitute(s, raw, results).Diverges?
  {
    hide Scan, Tokens, LookUp;
    ScanTokens(s, raw, results);
    match Scan(s, raw, results)
    case Plain =>
    case Broken(e) =>
    case Template(start, end, text) => SubstituteUnknown(s[end + 1..], raw, results);
  }

  /** Over inert texts, a value that names none of some tasks, save known ones, looks for none of them. */
  lemma NamedStaysWithin(raw: string, results: Results, large: set<string>)
    requires AllInert(Tokens(raw), results) && NoDoubleDollar(raw)
    requires Names(raw) * large <= results.Keys
    ensures !Resolve(raw, results).Diverges? && StaysWithin(Resolve(raw, results), large)
  {
    hide AllInert, NoDoubleDollar, Resolve, Substitute, Tokens, TrimSpace, Split;
    RescanIsOnePass(raw, results);
    SubstituteUnknown(raw, raw, results);
    forall token, e | token in Tokens(raw) && LookUp(token, results) == Unresolved(e) && e.UnknownTask? ensures e.task !in large {
      assert Named(token).Some? ==> Named(token).value in Names(raw);
    }
  }

  // ----- Whole inputs -----

  /** The outcome of resolving every entry of an input map. When an entry fails, the map's
      iteration order decides which error is reported (and an entry that does not settle may
      be met first). */
  datatype InputResolution = Resolved(input: Input) | Refused(errors: set<TemplateError>) | Hangs

  ghost function ResolveInput(input: Input, results: Results): InputResolution {
    if exists k :: k in input && Resolve(input[k], results).Rejected? then
      Refused(set k | k in input && Resolve(input[k], results).Rejected? :: Resolve(input[k], results).error)
    else if exists k :: k in input && Resolve(input[k], results).Diverges? then
      Hangs
    else
      Resolved(map k | k in input :: Resolve(input[k], results).text)
  }

  /** The three outcomes, entry by entry. */
  lemma ResolveInputMeans(input: Input, results: Results)
    ensures match ResolveInput(input, results)
      case Refused(errors) =>
        && (exists k :: k in input && Resolve(input[k], results).Rejected?)
        && forall e :: e in errors <==> exists k :: k in input && Resolve(input[k], results) == Rejected(e)
      case Hangs => (exists k :: k in input && Resolve(input[k], results).Diverges?)
        && forall k :: k in input ==> !Resolve(input[k], results).Rejected?
      case Resolved(texts) => texts.Keys == input.Keys && forall k :: k in input ==> Resolve(input[k], results) == Text(texts[k])
  {
    hide Resolve;
  }

  datatype InputResult = Ready(input: Input) | Bad(error: TemplateError) | Unfinished(key: string)

  /** resolveInputTemplates, for every iteration order. */
  method ResolveInputTemplates(input: Input, results: Results, patience: nat) returns (r: InputResult)
    ensures r.Ready? ==> ResolveInput(input, results) == Resolved(r.input)
    ensures r.Bad? ==> ResolveInput(input, results).Refused? && r.error in ResolveInput(input, results).errors
    ensures r.Unfinished? ==> r.key in input && Rewrite(patience, input[r.key], input[r.key], results).None?
  {
    hide Resolve, Rewrite;
    var resolved: Input := map[];
    var todo := input.Keys;
    while todo != {}
      invariant todo <= input.Keys
      invariant resolved.Keys == input.Keys - todo
      invariant forall k :: k in resolved ==> Resolve(input[k], results) == Text(resolved[k])
    {
      var k :| k in todo;
      todo := todo - {k};
      var next := ResolveValue(input[k], results, patience);
      if next.None? {
        return Unfinished(k);
      }
      if next.value.Rejected? {
        return Bad(next.value.error);
      }
      resolved := resolved[k := next.value.text];
    }
    return Ready(resolved);
  }

  /** The whole-input form of locality. */
  ghost predicate InputStaysWithin(input: Input, small: Results, large: set<string>) {
    forall k :: k in input ==> !Resolve(input[k], small).Diverges? && StaysWithin(Resolve(input[k], small), large)
  }

  lemma ResolveInputLocal(input: Input, small: Results, large: Results)
    requires Extends(small, large) && InputStaysWithin(input, small, large.Keys)
    ensures ResolveInput(input, large) == ResolveInput(input, small)
    ensures !ResolveInput(input, large).Hangs?
  {
    forall k | k in input ensures Resolve(input[k], large) == Resolve(input[k], small) {
      ResolveLocal(input[k], small, large);
    }
  }
}
