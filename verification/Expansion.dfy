/** Exactly when rescanning ends, over results whose texts consist of inert text and whole templates,
    sound or not: resolving a value ends unless, before any error, it reaches templates that refer to one
    another in a circle. */
module Expansion {
  import opened Domain
  import opened Text
  import T = Templates

  datatype Field = Output | Error | Status

  datatype Ref = Ref(task: string, field: Field)

  /** Inert text, a template of a known field, or a template that cannot be resolved. */
  datatype Piece = Literal(text: string) | Slot(ref: Ref) | Fault(token: string)

  function FieldName(field: Field): string {
    match field
    case Output => "output"
    case Error => "error"
    case Status => "status"
  }

  function TextOf(o: Outcome, field: Field): string {
    match field
    case Output => o.output
    case Error => o.error
    case Status => StatusText(o.status)
  }

  function Token(ref: Ref): string {
    ref.task + ['.'] + FieldName(ref.field)
  }

  function Braced(token: string): string {
    T.PREFIX + token + "}"
  }

  function Template(ref: Ref): string {
    Braced(Token(ref))
  }

  /** The text that pieces make up. */
  function Render(ps: seq<Piece>): string {
    if ps == [] then ""
    else (match ps[0] case Literal(text) => text case Slot(ref) => Template(ref) case Fault(token) => Braced(token)) + Render(ps[1..])
  }

  /** A task ID that a template can name. */
  predicate Nameable(task: string) {
    task != "" && !IsSpace(task[0]) && !IsSpace(task[|task| - 1]) && '.' !in task && '}' !in task
  }

  type Parts = map<Ref, seq<Piece>>

  ghost predicate Fits(results: T.Results, parts: Parts, p: Piece) {
    match p
    case Literal(text) => T.Inert(text)
    case Slot(ref) => ref in parts
    case Fault(token) => '}' !in token && T.LookUp(TrimSpace(token), results).Unresolved?
  }

  /** Literals are inert, slots are known, and faults are malformed or ask for what there is not. */
  ghost predicate Known(results: T.Results, parts: Parts, ps: seq<Piece>) {
    forall p :: p in ps ==> Fits(results, parts, p)
  }

  /** `parts` says what the text of each field is made of. */
  ghost predicate Formed(results: T.Results, parts: Parts) {
    forall ref :: ref in parts ==>
      && ref.task in results && Nameable(ref.task)
      && Known(results, parts, parts[ref]) && Render(parts[ref]) == TextOf(results[ref.task], ref.field)
  }

  // ----- Expanding pieces -----

  /** The leftmost slot is expanded again and again, up to the first fault; `n` expansions suffice. */
  predicate Ends(parts: Parts, ps: seq<Piece>, n: nat)
    decreases n, |ps|
  {
    ps == [] ||
    match ps[0]
    case Literal(_) => Ends(parts, ps[1..], n)
    case Slot(ref) => n > 0 && ref in parts && Ends(parts, parts[ref] + ps[1..], n - 1)
    case Fault(_) => true
  }

  /** The same without meeting a fault. */
  predicate Clears(parts: Parts, ps: seq<Piece>, n: nat)
    decreases n, |ps|
  {
    ps == [] ||
    match ps[0]
    case Literal(_) => Clears(parts, ps[1..], n)
    case Slot(ref) => n > 0 && ref in parts && Clears(parts, parts[ref] + ps[1..], n - 1)
    case Fault(_) => false
  }

  lemma {:induction false} RenderConcat(a: seq<Piece>, b: seq<Piece>)
    ensures Render(a + b) == Render(a) + Render(b)
  {
    hide Template, Braced;
    if a == [] {
      assert a + b == b;
    } else {
      assert (a + b)[1..] == a[1..] + b;
      RenderConcat(a[1..], b);
    }
  }

  lemma FieldTrims(field: Field)
    ensures FieldName(field) != "" && TrimSpace(FieldName(field)) == FieldName(field) && '.' !in FieldName(field) && '}' !in FieldName(field)
    ensures !IsSpace(FieldName(field)[|FieldName(field)| - 1])
  {
    TrimKeeps(FieldName(field));
  }

  lemma TokenMeans(ref: Ref, results: T.Results)
    requires ref.task in results && Nameable(ref.task)
    ensures T.LookUp(TrimSpace(Token(ref)), results) == T.Value(TextOf(results[ref.task], ref.field))
  {
    hide Split, TrimSpace;
    var name := FieldName(ref.field);
    FieldTrims(ref.field);
    hide IsSpace;
    TrimKeeps(Token(ref));
    SplitHead(ref.task, '.', name);
    SplitLast(name, '.');
    TrimKeeps(ref.task);
  }

  /** What is between the braces of the first template, at the front of a text. */
  lemma BracedScans(token: string, rest: string, raw: string, results: T.Results)
    requires '}' !in token
    ensures T.Scan(Braced(token) + rest, raw, results) ==
      match T.LookUp(TrimSpace(token), results)
      case Unresolved(e) => T.Broken(e)
      case Value(text) => T.Template(0, |token| + 2, text)
  {
    hide T.LookUp, TrimSpace, Index, At;
    var s := Braced(token) + rest;
    assert s == ['$', '{'] + token + ['}'] + rest;
    T.OpensIsAt(s, 0);
    IndexIsFirst(s, T.PREFIX, 0);
    assert s[0..] == s;
    var close := |token| + 2;
    AtOne(s, '}', close);
    forall j ensures At(s, "}", j) ==> j >= close {
      AtOne(s, '}', j);
      assert 2 <= j < close ==> s[j] == token[j - 2];
    }
    IndexIsFirst(s, "}", close);
    assert s[2..close] == token;
  }

  /** A whole template at the front of a text is what the scan finds. */
  lemma TemplateScans(ref: Ref, rest: string, raw: string, results: T.Results)
    requires ref.task in results && Nameable(ref.task)
    ensures T.Scan(Template(ref) + rest, raw, results) == T.Template(0, |Token(ref)| + 2, TextOf(results[ref.task], ref.field))
  {
    hide T.LookUp, T.Scan, TrimSpace, TextOf;
    FieldTrims(ref.field);
    BracedScans(Token(ref), rest, raw, results);
    TokenMeans(ref, results);
  }

  lemma KnownHead(results: T.Results, parts: Parts, ps: seq<Piece>)
    requires Known(results, parts, ps) && ps != []
    ensures Known(results, parts, ps[1..]) && Fits(results, parts, ps[0])
  {
    assert ps[0] in ps;
    assert forall p :: p in ps[1..] ==> p in ps;
  }

  lemma KnownConcat(results: T.Results, parts: Parts, a: seq<Piece>, b: seq<Piece>)
    requires Known(results, parts, a) && Known(results, parts, b)
    ensures Known(results, parts, a + b)
  {
  }

  lemma FormedAt(results: T.Results, parts: Parts, ref: Ref)
    requires Formed(results, parts) && ref in parts
    ensures ref.task in results && Nameable(ref.task)
    ensures Known(results, parts, parts[ref]) && Render(parts[ref]) == TextOf(results[ref.task], ref.field)
  {
  }

  lemma SlotRewrites(fuel: nat, done: string, ref: Ref, rest: string, raw: string, results: T.Results)
    requires ref.task in results && Nameable(ref.task) && T.Inert(done)
    ensures T.Rewrite(fuel, done + (Template(ref) + rest), raw, results) ==
      if fuel == 0 then None else T.Rewrite(fuel - 1, done + (TextOf(results[ref.task], ref.field) + rest), raw, results)
  {
    hide T.Scan, T.Inert, T.Splice, Nameable;
    TemplateScans(ref, rest, raw, results);
    T.ScanBehind(done, Template(ref) + rest, raw, results);
    SpliceTemplate(done, ref, rest, TextOf(results[ref.task], ref.field));
  }

  lemma FaultRewrites(fuel: nat, done: string, token: string, rest: string, raw: string, results: T.Results)
    requires '}' !in token && T.LookUp(TrimSpace(token), results).Unresolved? && T.Inert(done)
    ensures T.Rewrite(fuel, done + (Braced(token) + rest), raw, results).Some?
  {
    hide T.Scan, T.Inert, T.LookUp, TrimSpace;
    BracedScans(token, rest, raw, results);
    T.ScanBehind(done, Braced(token) + rest, raw, results);
  }

  /** The rewrite loop on text that is done and pieces that are not ends exactly when the pieces do. */
  lemma {:induction false} RewriteExpands(fuel: nat, done: string, ps: seq<Piece>, raw: string, results: T.Results, parts: Parts)
    requires Formed(results, parts) && Known(results, parts, ps) && T.Inert(done)
    ensures T.Rewrite(fuel, done + Render(ps), raw, results).Some? <==> Ends(parts, ps, fuel)
    decreases fuel, |ps|
  {
    hide T.Rewrite, T.Inert, T.LookUp, TrimSpace, Formed, Known, Nameable, Template, Braced, TextOf;
    if ps == [] {
      InertRewrites(fuel, done, raw, results);
      assert done + "" == done;
    } else {
      KnownHead(results, parts, ps);
      match ps[0] {
        case Literal(text) =>
          InertJoins(done, text);
          assert done + Render(ps) == done + text + Render(ps[1..]);
          RewriteExpands(fuel, done + text, ps[1..], raw, results, parts);
        case Slot(ref) =>
          FormedAt(results, parts, ref);
          SlotRewrites(fuel, done, ref, Render(ps[1..]), raw, results);
          if fuel > 0 {
            RenderConcat(parts[ref], ps[1..]);
            KnownConcat(results, parts, parts[ref], ps[1..]);
            RewriteExpands(fuel - 1, done, parts[ref] + ps[1..], raw, results, parts);
          }
        case Fault(token) =>
          FaultRewrites(fuel, done, token, Render(ps[1..]), raw, results);
      }
    }
  }

  lemma InertRewrites(fuel: nat, done: string, raw: string, results: T.Results)
    requires T.Inert(done)
    ensures T.Rewrite(fuel, done, raw, results) == Some(T.Text(done))
  {
  }

  lemma InertJoins(a: string, b: string)
    requires T.Inert(a) && T.Inert(b)
    ensures T.Inert(a + b)
  {
    T.StillPlain(a, b, "");
    assert a + b + "" == a + b;
  }

  lemma SpliceTemplate(done: string, ref: Ref, rest: string, text: string)
    ensures var s := done + (Template(ref) + rest);
      T.Splice(s, |done|, |done| + |Token(ref)| + 2, text) == done + (text + rest)
  {
    var s := done + (Template(ref) + rest);
    assert s[..|done|] == done;
    assert s[|done| + |Token(ref)| + 3..] == rest;
  }

  /** What a template between inert texts resolves to. */
  lemma SlotResolves(front: string, ref: Ref, back: string, results: T.Results)
    requires ref.task in results && Nameable(ref.task) && T.Inert(front) && T.Inert(back)
    ensures var o := results[ref.task];
      var name := match ref.field case Output => "output" case Error => "error" case Status => "status";
      var text := match ref.field
        case Output => o.output
        case Error => o.error
        case Status => match o.status case Success => "SUCCESS" case Failed => "FAILED" case Skipped => "SKIPPED";
      T.Inert(text) ==> T.Resolve(front + ("${" + (ref.task + ['.'] + name) + "}" + back), results) == T.Text(front + text + back)
  {
    hide T.Inert, T.Rewrite, T.Resolve;
    var text := TextOf(results[ref.task], ref.field);
    var raw := front + (Template(ref) + back);
    if T.Inert(text) {
      InertJoins(front, text);
      InertJoins(front + text, back);
      SlotRewrites(1, front, ref, back, raw, results);
      assert front + (text + back) == front + text + back;
      InertRewrites(0, front + text + back, raw, results);
      T.ResolveBy(1, raw, results);
    }
  }

  // ----- Circles -----

  ghost predicate Cleared(parts: Parts, ps: seq<Piece>) {
    exists n: nat :: Clears(parts, ps, n)
  }

  /** Expansion gets to a slot of this field: nothing in front of it meets a fault, or never ends. */
  ghost predicate Reached(parts: Parts, ps: seq<Piece>, ref: Ref) {
    exists i :: 0 <= i < |ps| && ps[i] == Slot(ref) && Cleared(parts, ps[..i])
  }

  /** A chain of references that is reached from the pieces and comes back to a field it has passed. */
  ghost predicate Circular(parts: Parts, ps: seq<Piece>, path: seq<Ref>) {
    && |path| >= 2 && Reached(parts, ps, path[0]) && Chained(parts, path)
    && exists i :: 0 <= i < |path| - 1 && path[i] == path[|path| - 1]
  }

  /** In each field's text expansion gets to a template of the next. */
  ghost predicate Chained(parts: Parts, path: seq<Ref>) {
    && (forall i :: 0 <= i < |path| ==> path[i] in parts)
    && (forall i :: 0 <= i < |path| - 1 ==> Reached(parts, parts[path[i]], path[i + 1]))
  }

  lemma {:induction false} MoreEnds(parts: Parts, ps: seq<Piece>, n: nat, m: nat)
    requires Ends(parts, ps, n) && n <= m
    ensures Ends(parts, ps, m)
    decreases n, |ps|
  {
    if ps != [] {
      match ps[0] {
        case Literal(_) => MoreEnds(parts, ps[1..], n, m);
        case Slot(ref) => MoreEnds(parts, parts[ref] + ps[1..], n - 1, m - 1);
        case Fault(_) =>
      }
    }
  }

  lemma {:induction false} MoreClears(parts: Parts, ps: seq<Piece>, n: nat, m: nat)
    requires Clears(parts, ps, n) && n <= m
    ensures Clears(parts, ps, m)
    decreases n, |ps|
  {
    if ps != [] {
      match ps[0] {
        case Literal(_) => MoreClears(parts, ps[1..], n, m);
        case Slot(ref) => MoreClears(parts, parts[ref] + ps[1..], n - 1, m - 1);
        case Fault(_) =>
      }
    }
  }

  lemma {:induction false} EndsPrefix(parts: Parts, a: seq<Piece>, b: seq<Piece>, n: nat)
    requires Ends(parts, a + b, n)
    ensures Ends(parts, a, n)
    decreases n, |a|
  {
    if a != [] {
      assert (a + b)[1..] == a[1..] + b;
      match a[0] {
        case Literal(_) => EndsPrefix(parts, a[1..], b, n);
        case Slot(ref) =>
          assert parts[ref] + (a[1..] + b) == parts[ref] + a[1..] + b;
          EndsPrefix(parts, parts[ref] + a[1..], b, n - 1);
        case Fault(_) =>
      }
    }
  }

  lemma {:induction false} EndsSuffix(parts: Parts, a: seq<Piece>, b: seq<Piece>, n: nat, m: nat)
    requires Ends(parts, a + b, n) && Clears(parts, a, m)
    ensures Ends(parts, b, n)
    decreases n, |a|
  {
    if a == [] {
      assert a + b == b;
    } else {
      assert (a + b)[1..] == a[1..] + b;
      match a[0] {
        case Literal(_) => EndsSuffix(parts, a[1..], b, n, m);
        case Slot(ref) =>
          assert parts[ref] + (a[1..] + b) == parts[ref] + a[1..] + b;
          EndsSuffix(parts, parts[ref] + a[1..], b, n - 1, m - 1);
          MoreEnds(parts, b, n - 1, n);
      }
    }
  }

  lemma {:induction false} ClearsThenEnds(parts: Parts, a: seq<Piece>, b: seq<Piece>, m: nat, n: nat)
    requires Clears(parts, a, m) && Ends(parts, b, n)
    ensures Ends(parts, a + b, m + n)
    decreases m, |a|
  {
    if a == [] {
      assert a + b == b;
      MoreEnds(parts, b, n, m + n);
    } else {
      assert (a + b)[1..] == a[1..] + b;
      match a[0] {
        case Literal(_) => ClearsThenEnds(parts, a[1..], b, m, n);
        case Slot(ref) =>
          assert parts[ref] + (a[1..] + b) == parts[ref] + a[1..] + b;
          ClearsThenEnds(parts, parts[ref] + a[1..], b, m - 1, n);
      }
    }
  }

  lemma {:induction false} ClearsJoin(parts: Parts, a: seq<Piece>, b: seq<Piece>, m: nat, n: nat)
    requires Clears(parts, a, m) && Clears(parts, b, n)
    ensures Clears(parts, a + b, m + n)
    decreases m, |a|
  {
    if a == [] {
      assert a + b == b;
      MoreClears(parts, b, n, m + n);
    } else {
      assert (a + b)[1..] == a[1..] + b;
      match a[0] {
        case Literal(_) => ClearsJoin(parts, a[1..], b, m, n);
        case Slot(ref) =>
          assert parts[ref] + (a[1..] + b) == parts[ref] + a[1..] + b;
          ClearsJoin(parts, parts[ref] + a[1..], b, m - 1, n);
      }
    }
  }

  lemma {:induction false} ClearsEnds(parts: Parts, ps: seq<Piece>, n: nat)
    requires Clears(parts, ps, n)
    ensures Ends(parts, ps, n)
    decreases n, |ps|
  {
    if ps != [] {
      match ps[0] {
        case Literal(_) => ClearsEnds(parts, ps[1..], n);
        case Slot(ref) => ClearsEnds(parts, parts[ref] + ps[1..], n - 1);
      }
    }
  }

  /** What ends at a fault ends there whatever comes after. */
  lemma {:induction false} FaultEnds(parts: Parts, a: seq<Piece>, b: seq<Piece>, n: nat)
    requires Ends(parts, a, n) && !Clears(parts, a, n)
    ensures Ends(parts, a + b, n)
    decreases n, |a|
  {
    assert (a + b)[1..] == a[1..] + b;
    match a[0] {
      case Literal(_) => FaultEnds(parts, a[1..], b, n);
      case Slot(ref) =>
        assert parts[ref] + (a[1..] + b) == parts[ref] + a[1..] + b;
        FaultEnds(parts, parts[ref] + a[1..], b, n - 1);
      case Fault(_) =>
    }
  }

  /** A slot that is reached needs no more expansions than the pieces. */
  lemma SlotEnds(parts: Parts, ps: seq<Piece>, ref: Ref, n: nat)
    requires Ends(parts, ps, n) && Reached(parts, ps, ref)
    ensures Ends(parts, [Slot(ref)], n)
  {
    var i :| 0 <= i < |ps| && ps[i] == Slot(ref) && Cleared(parts, ps[..i]);
    var m: nat :| Clears(parts, ps[..i], m);
    assert ps == ps[..i] + ps[i..];
    EndsSuffix(parts, ps[..i], ps[i..], n, m);
    assert ps[i..] == [ps[i]] + ps[i + 1..];
    EndsPrefix(parts, [ps[i]], ps[i + 1..], n);
  }

  /** Following a reference costs an expansion. */
  lemma StepEnds(parts: Parts, ref: Ref, next: Ref, n: nat)
    requires Ends(parts, [Slot(ref)], n) && ref in parts && Reached(parts, parts[ref], next)
    ensures n > 0 && Ends(parts, [Slot(next)], n - 1)
  {
    assert parts[ref] + [Slot(ref)][1..] == parts[ref];
    SlotEnds(parts, parts[ref], next, n - 1);
  }

  lemma {:induction false} PathEnds(parts: Parts, path: seq<Ref>, i: nat, j: nat, n: nat)
    requires Chained(parts, path) && i <= j < |path| && Ends(parts, [Slot(path[i])], n)
    ensures n >= j - i && Ends(parts, [Slot(path[j])], n - (j - i))
    decreases j
  {
    hide Reached;
    if i < j {
      PathEnds(parts, path, i, j - 1, n);
      assert Reached(parts, parts[path[j - 1]], path[j - 1 + 1]);
      StepEnds(parts, path[j - 1], path[j], n - (j - 1 - i));
    }
  }

  /** A field on a circle is never expanded completely. */
  lemma {:induction false} NeverEnds(parts: Parts, path: seq<Ref>, i: nat, n: nat)
    requires Chained(parts, path) && i < |path| - 1 && path[i] == path[|path| - 1]
    ensures !Ends(parts, [Slot(path[i])], n)
    decreases n
  {
    hide Chained;
    if Ends(parts, [Slot(path[i])], n) {
      PathEnds(parts, path, i, |path| - 1, n);
      NeverEnds(parts, path, i, n - (|path| - 1 - i));
    }
  }

  lemma CircularNeverEnds(parts: Parts, ps: seq<Piece>, path: seq<Ref>, n: nat)
    requires Circular(parts, ps, path)
    ensures !Ends(parts, ps, n)
  {
    hide Chained, Reached;
    var i :| 0 <= i < |path| - 1 && path[i] == path[|path| - 1];
    if Ends(parts, ps, n) {
      SlotEnds(parts, ps, path[0], n);
      PathEnds(parts, path, 0, i, n);
      NeverEnds(parts, path, i, n - i);
    }
  }

  // ----- No circle -----

  /** References that are reached can be followed at most `d` deep. */
  ghost predicate Shallow(parts: Parts, ps: seq<Piece>, d: nat)
    decreases d
  {
    forall ref :: Reached(parts, ps, ref) ==> d > 0 && ref in parts && Shallow(parts, parts[ref], d - 1)
  }

  lemma ShallowEnds(parts: Parts, ps: seq<Piece>, d: nat) returns (n: nat)
    requires Shallow(parts, ps, d)
    ensures Ends(parts, ps, n)
    decreases d, |ps| + 1
  {
    n := ShallowPrefix(parts, ps, d, |ps|);
    assert ps[..|ps|] == ps;
    if !Ends(parts, ps, n) {
      ClearsEnds(parts, ps, n);
    }
  }

  /** The first pieces clear, unless all of them together end. */
  lemma {:induction false} ShallowPrefix(parts: Parts, ps: seq<Piece>, d: nat, k: nat) returns (n: nat)
    requires Shallow(parts, ps, d) && k <= |ps|
    ensures Ends(parts, ps, n) || Clears(parts, ps[..k], n)
    decreases d, k
  {
    if k == 0 {
      n := 0;
    } else {
      n := ShallowPrefix(parts, ps, d, k - 1);
      if !Ends(parts, ps, n) {
        var front, p := ps[..k - 1], ps[k - 1];
        assert ps[..k] == front + [p] && ps == front + ps[k - 1..] && ps[k - 1..][1..] == ps[k..];
        match p {
          case Literal(_) => ClearsJoin(parts, front, [p], n, 0);
          case Fault(_) => ClearsThenEnds(parts, front, ps[k - 1..], n, 0);
          case Slot(ref) =>
            assert Reached(parts, ps, ref);
            var m := ShallowEnds(parts, parts[ref], d - 1);
            if Clears(parts, parts[ref], m) {
              assert parts[ref] + [p][1..] == parts[ref];
              ClearsJoin(parts, front, [p], n, m + 1);
            } else {
              FaultEnds(parts, parts[ref], ps[k..], m);
              ClearsThenEnds(parts, front, ps[k - 1..], n, m + 1);
            }
            n := n + m + 1;
        }
      }
    }
  }

  /** Pieces that are not shallow start a long chain. */
  lemma {:induction false} DeepChain(results: T.Results, parts: Parts, ps: seq<Piece>, d: nat) returns (path: seq<Ref>)
    requires !Shallow(parts, ps, d) && Known(results, parts, ps) && forall ref :: ref in parts ==> Known(results, parts, parts[ref])
    ensures |path| == d + 1 && Reached(parts, ps, path[0]) && Chained(parts, path)
    decreases d
  {
    var ref :| Reached(parts, ps, ref) && !(d > 0 && ref in parts && Shallow(parts, parts[ref], d - 1));
    assert Slot(ref) in ps;
    hide Reached;
    if d == 0 {
      path := [ref];
    } else {
      var rest := DeepChain(results, parts, parts[ref], d - 1);
      path := [ref] + rest;
      forall i | 0 <= i < |path| - 1 ensures Reached(parts, parts[path[i]], path[i + 1]) {
        assert i > 0 ==> path[i] == rest[i - 1] && path[i + 1] == rest[i - 1 + 1];
      }
    }
  }

  /** A list longer than a set it draws from repeats itself. */
  lemma {:induction false} Repeats(path: seq<Ref>, all: set<Ref>) returns (i: nat, j: nat)
    requires |path| > |all| && forall ref :: ref in path ==> ref in all
    ensures i < j < |path| && path[i] == path[j]
    decreases |path|
  {
    assert path[0] in path && |all| > 0;
    if k :| 1 <= k < |path| && path[k] == path[0] {
      i, j := 0, k;
    } else {
      forall ref | ref in path[1..] ensures ref in all - {path[0]} {
        assert ref in path;
      }
      i, j := Repeats(path[1..], all - {path[0]});
      i, j := i + 1, j + 1;
    }
  }

  lemma CircleOrShallow(results: T.Results, parts: Parts, ps: seq<Piece>)
    requires Known(results, parts, ps) && forall ref :: ref in parts ==> Known(results, parts, parts[ref])
    ensures Shallow(parts, ps, |parts|) || exists path :: Circular(parts, ps, path)
  {
    hide Reached, Known, Shallow;
    if !Shallow(parts, ps, |parts|) {
      var path := DeepChain(results, parts, ps, |parts|);
      assert |parts| == |parts.Keys|;
      var i, j := Repeats(path, parts.Keys);
      var circle := path[..j + 1];
      assert circle[i] == circle[|circle| - 1];
      assert Circular(parts, ps, circle);
    }
  }

  // ----- The exact condition -----

  /** Resolving a value ends, with a text or an error, exactly when it reaches no circle of references. */
  lemma SettlesIff(results: T.Results, parts: Parts, ps: seq<Piece>)
    requires Formed(results, parts) && Known(results, parts, ps)
    ensures T.Settles(Render(ps), results) <==> !exists path :: Circular(parts, ps, path)
  {
    hide Formed, Circular, Ends, Shallow, T.Rewrite, Known;
    var raw := Render(ps);
    assert "" + raw == raw;
    T.IndexOpens("");
    forall n: nat ensures T.Rewrite(n, raw, raw, results).Some? <==> Ends(parts, ps, n) {
      RewriteExpands(n, "", ps, raw, results, parts);
    }
    forall path, n: nat | Circular(parts, ps, path) ensures !Ends(parts, ps, n) {
      CircularNeverEnds(parts, ps, path, n);
    }
    FormedKnown(results, parts);
    CircleOrShallow(results, parts, ps);
    if Shallow(parts, ps, |parts|) {
      var n := ShallowEnds(parts, ps, |parts|);
    }
  }

  lemma FormedKnown(results: T.Results, parts: Parts)
    requires Formed(results, parts)
    ensures forall ref :: ref in parts ==> Known(results, parts, parts[ref])
  {
  }

  /** A field whose text leads back to itself. */
  ghost predicate Circle(parts: Parts, path: seq<Ref>) {
    |path| >= 2 && Chained(parts, path) && path[0] == path[|path| - 1]
  }

  /** Every value over these results resolves exactly when no field leads back to itself. */
  lemma AllSettleIff(results: T.Results, parts: Parts)
    requires Formed(results, parts)
    ensures (forall ps :: Known(results, parts, ps) ==> T.Settles(Render(ps), results)) <==> !exists path :: Circle(parts, path)
  {
    hide Formed, T.Settles, Chained, Reached;
    forall ps | Known(results, parts, ps) ensures T.Settles(Render(ps), results) <==> !exists path :: Circular(parts, ps, path) {
      SettlesIff(results, parts, ps);
    }
    forall ps, path | Circular(parts, ps, path) ensures exists circle :: Circle(parts, circle) {
      var i :| 0 <= i < |path| - 1 && path[i] == path[|path| - 1];
      ChainedTail(parts, path, i);
      assert Circle(parts, path[i..]);
    }
    forall path | Circle(parts, path) ensures Known(results, parts, [Slot(path[0])]) && Circular(parts, [Slot(path[0])], path) {
      ChainedHead(parts, path);
    }
  }

  lemma ChainedTail(parts: Parts, path: seq<Ref>, i: nat)
    requires Chained(parts, path) && i <= |path|
    ensures Chained(parts, path[i..])
  {
    hide Reached;
    var tail := path[i..];
    forall k | 0 <= k < |tail| - 1 ensures Reached(parts, parts[tail[k]], tail[k + 1]) {
      assert Reached(parts, parts[path[i + k]], path[i + k + 1]);
    }
  }

  lemma ChainedHead(parts: Parts, path: seq<Ref>)
    requires Chained(parts, path) && path != []
    ensures path[0] in parts && Reached(parts, [Slot(path[0])], path[0])
  {
    var ps := [Slot(path[0])];
    assert Clears(parts, ps[..0], 0);
    assert Cleared(parts, ps[..0]) && ps[0] == Slot(path[0]);
  }
}
