/**
 The routing policy of an API method (tools/parity.py:27-63): a depth-first search over simple paths
 in the call graph of method bodies, which may be cyclic. It computes plain reachability.
 */
module Parity {
  import opened Wrappers

  datatype Policy = MasterThenBackup | ConfiguredMode

  /** The names that each body of a method calls. A name can have several bodies. */
  type Methods = map<string, seq<set<string>>>

  /** The body executes by itself: writes through the master first, everything else in the configured mode.
      `executeWrite` calls `execute`, so it counts when both are called. */
  predicate Executes(calls: set<string>, p: Policy) {
    match p
    case MasterThenBackup => "executeWrite" in calls
    case ConfiguredMode => "execute" in calls && "executeWrite" !in calls
  }

  /** One of the bodies of `name` executes with this policy. */
  predicate Terminal(methods: Methods, name: string, p: Policy) {
    name in methods && exists i :: 0 <= i < |methods[name]| && Executes(methods[name][i], p)
  }

  /** The body does not execute by itself and calls the method `b`. */
  predicate Passes(methods: Methods, calls: set<string>, b: string) {
    "execute" !in calls && "executeWrite" !in calls && b in calls && b in methods
  }

  /** One of the bodies of `a` calls the method `b` and does not execute by itself. */
  predicate Edge(methods: Methods, a: string, b: string) {
    a in methods && exists i :: 0 <= i < |methods[a]| && Passes(methods, methods[a][i], b)
  }

  /** A walk along the edges that ends in a terminal body with policy `p`. It may repeat names. */
  predicate Walk(methods: Methods, w: seq<string>, p: Policy) {
    && w != []
    && (forall i :: 0 <= i < |w| - 1 ==> Edge(methods, w[i], w[i + 1]))
    && Terminal(methods, w[|w| - 1], p)
  }

  predicate Avoids(w: seq<string>, visiting: set<string>) {
    forall i :: 0 <= i < |w| ==> w[i] !in visiting
  }

  /** Some walk from `name` that avoids `visiting` ends in policy `p`. */
  ghost predicate Reaches(methods: Methods, name: string, visiting: set<string>, p: Policy) {
    exists w :: Walk(methods, w, p) && w[0] == name && Avoids(w, visiting)
  }

  function BodiesOf(methods: Methods, name: string): seq<set<string>> {
    if name in methods then methods[name] else []
  }

  /** The policies found in one body of `name`. */
  ghost predicate InBody(methods: Methods, calls: set<string>, visiting: set<string>, p: Policy) {
    Executes(calls, p) || exists c :: Passes(methods, calls, c) && Reaches(methods, c, visiting, p)
  }

  ghost predicate InBodies(methods: Methods, bodies: seq<set<string>>, visiting: set<string>, p: Policy) {
    exists i :: 0 <= i < |bodies| && InBody(methods, bodies[i], visiting, p)
  }

  /** Every walk from `name` can be cut at the last visit of `name`. */
  lemma CutAtLast(methods: Methods, w: seq<string>, p: Policy, visiting: set<string>, name: string)
    requires Walk(methods, w, p) && w[0] == name && Avoids(w, visiting)
    ensures InBodies(methods, BodiesOf(methods, name), visiting + {name}, p)
  {
    hide Executes, Passes, Reaches;
    var k := LastOf(w, name);
    var bodies := BodiesOf(methods, name);
    if k == |w| - 1 {
      var i :| 0 <= i < |bodies| && Executes(bodies[i], p);
      assert InBody(methods, bodies[i], visiting + {name}, p);
    } else {
      assert Edge(methods, w[k], w[k + 1]);
      var i :| 0 <= i < |bodies| && Passes(methods, bodies[i], w[k + 1]);
      TailReaches(methods, w, p, visiting, name, k);
      assert InBody(methods, bodies[i], visiting + {name}, p);
    }
  }

  /** After the last visit of `name` the walk avoids it. */
  lemma TailReaches(methods: Methods, w: seq<string>, p: Policy, visiting: set<string>, name: string, k: nat)
    requires Walk(methods, w, p) && Avoids(w, visiting) && k < |w| - 1
    requires forall j :: k < j < |w| ==> w[j] != name
    ensures Reaches(methods, w[k + 1], visiting + {name}, p)
  {
    hide Edge, Terminal;
    var tail := w[k + 1..];
    forall j | 0 <= j < |tail| - 1
      ensures Edge(methods, tail[j], tail[j + 1])
    {
      assert tail[j] == w[k + 1 + j] && tail[j + 1] == w[k + 1 + j + 1];
    }
    assert Walk(methods, tail, p) && tail[0] == w[k + 1] && Avoids(tail, visiting + {name});
  }

  lemma {:induction false} LastOf(w: seq<string>, name: string) returns (k: nat)
    requires w != [] && w[0] == name
    ensures k < |w| && w[k] == name && forall j :: k < j < |w| ==> w[j] != name
  {
    if w[|w| - 1] == name {
      k := |w| - 1;
    } else {
      k := LastOf(w[..|w| - 1], name);
    }
  }

  /** A body that executes is a walk by itself. */
  lemma EndsHere(methods: Methods, name: string, i: nat, visiting: set<string>, p: Policy)
    requires name !in visiting && i < |BodiesOf(methods, name)| && Executes(BodiesOf(methods, name)[i], p)
    ensures Reaches(methods, name, visiting, p)
  {
    hide Edge, Executes;
    var w := [name];
    assert Terminal(methods, name, p);
    assert Walk(methods, w, p) && w[0] == name && Avoids(w, visiting);
  }

  /** A walk from a callee is a walk from the caller. */
  lemma Prepend(methods: Methods, name: string, c: string, visiting: set<string>, p: Policy)
    requires name !in visiting && Edge(methods, name, c) && Reaches(methods, c, visiting + {name}, p)
    ensures Reaches(methods, name, visiting, p)
  {
    hide Edge, Terminal;
    var w :| Walk(methods, w, p) && w[0] == c && Avoids(w, visiting + {name});
    LongerWalk(methods, name, w, p);
    LongerAvoids(name, w, visiting);
    var longer := [name] + w;
    hide Walk, Avoids;
    assert Walk(methods, longer, p) && longer[0] == name && Avoids(longer, visiting);
  }

  lemma LongerWalk(methods: Methods, name: string, w: seq<string>, p: Policy)
    requires Walk(methods, w, p) && Edge(methods, name, w[0])
    ensures Walk(methods, [name] + w, p)
  {
    hide Edge, Terminal;
    var longer := [name] + w;
    assert longer[|longer| - 1] == w[|w| - 1];
    forall j | 0 <= j < |longer| - 1
      ensures Edge(methods, longer[j], longer[j + 1])
    {
      assert longer[j + 1] == w[j];
      assert j > 0 ==> longer[j] == w[j - 1];
    }
  }

  lemma LongerAvoids(name: string, w: seq<string>, visiting: set<string>)
    requires name !in visiting && Avoids(w, visiting + {name})
    ensures Avoids([name] + w, visiting)
  {
    assert forall j :: 0 < j < |[name] + w| ==> ([name] + w)[j] == w[j - 1];
  }

  /** What the bodies end in or reach, the name reaches. */
  lemma FromBodies(methods: Methods, name: string, visiting: set<string>, p: Policy)
    requires name !in visiting && InBodies(methods, BodiesOf(methods, name), visiting + {name}, p)
    ensures Reaches(methods, name, visiting, p)
  {
    hide Executes, Reaches, Passes;
    var bodies := BodiesOf(methods, name);
    var i :| 0 <= i < |bodies| && InBody(methods, bodies[i], visiting + {name}, p);
    if Executes(bodies[i], p) {
      EndsHere(methods, name, i, visiting, p);
    } else {
      var c :| Passes(methods, bodies[i], c) && Reaches(methods, c, visiting + {name}, p);
      assert Edge(methods, name, c);
      Prepend(methods, name, c, visiting, p);
    }
  }

  lemma OneStep(methods: Methods, name: string, visiting: set<string>, p: Policy)
    ensures Reaches(methods, name, visiting, p) <==>
            name !in visiting && InBodies(methods, BodiesOf(methods, name), visiting + {name}, p)
  {
    if Reaches(methods, name, visiting, p) {
      var w :| Walk(methods, w, p) && w[0] == name && Avoids(w, visiting);
      CutAtLast(methods, w, p, visiting, name);
    } else if name !in visiting && InBodies(methods, BodiesOf(methods, name), visiting + {name}, p) {
      FromBodies(methods, name, visiting, p);
    }
  }

  /**
   The search terminates on every graph and finds exactly the policies at the end of walks that avoid
   the path it is on. With an empty path these are all reachable policies: cutting the search at the
   current path loses nothing.
   */
  method ResolvePolicy(name: string, methods: Methods, visiting: set<string>) returns (policies: set<Policy>)
    ensures forall p :: p in policies <==> Reaches(methods, name, visiting, p)
    decreases |methods.Keys - visiting|
  {
    hide Reaches, InBody;
    policies := {};
    ghost var inner := visiting + {name};
    forall p {
      OneStep(methods, name, visiting, p);
    }
    if name in visiting {
      return;
    }
    var bodies := BodiesOf(methods, name);
    for i := 0 to |bodies|
      invariant forall p :: p in policies <==> InBodies(methods, bodies[..i], inner, p)
    {
      assert methods.Keys - inner < methods.Keys - visiting;
      SmallerSet(methods.Keys - inner, methods.Keys - visiting);
      var found := ResolveBody(bodies[i], methods, visiting + {name}, |methods.Keys - visiting|);
      forall p {
        OneMoreBody(methods, bodies, i, inner, p);
      }
      policies := policies + found;
    }
    assert bodies[..|bodies|] == bodies;
  }

  lemma SmallerSet<T>(a: set<T>, b: set<T>)
    requires a < b
    ensures |a| < |b|
  {
    assert b == a + (b - a);
    assert b - a != {};
  }

  lemma OneMoreBody(methods: Methods, bodies: seq<set<string>>, i: nat, visiting: set<string>, p: Policy)
    requires i < |bodies|
    ensures InBodies(methods, bodies[..i + 1], visiting, p) <==>
            InBodies(methods, bodies[..i], visiting, p) || InBody(methods, bodies[i], visiting, p)
  {
    hide InBody;
    if InBodies(methods, bodies[..i], visiting, p) {
      var k :| 0 <= k < i && InBody(methods, bodies[..i][k], visiting, p);
      assert bodies[..i + 1][k] == bodies[..i][k];
    }
    assert bodies[..i + 1][i] == bodies[i];
    if InBodies(methods, bodies[..i + 1], visiting, p) {
      var k :| 0 <= k < i + 1 && InBody(methods, bodies[..i + 1][k], visiting, p);
      if k < i {
        assert bodies[..i][k] == bodies[..i + 1][k];
      }
    }
  }

  /** The policies of one body. */
  method ResolveBody(calls: set<string>, methods: Methods, visiting: set<string>, ghost bound: nat)
    returns (found: set<Policy>)
    requires |methods.Keys - visiting| < bound
    ensures forall p :: p in found <==> InBody(methods, calls, visiting, p)
    decreases bound, 1
  {
    hide Reaches, FromCalls, InBody;
    TerminalBody(methods, calls, visiting);
    if "executeWrite" in calls {
      return {MasterThenBackup};
    } else if "execute" in calls {
      return {ConfiguredMode};
    }
    found := ResolveCalls(calls * methods.Keys, methods, visiting, bound);
    forall p {
      AllCalls(methods, calls, visiting, p);
    }
  }

  /** The loop over the methods that one body calls. */
  method ResolveCalls(calls: set<string>, methods: Methods, visiting: set<string>, ghost bound: nat)
    returns (found: set<Policy>)
    requires |methods.Keys - visiting| < bound
    ensures forall p :: p in found <==> FromCalls(methods, calls, visiting, p)
    decreases bound, 0
  {
    hide Reaches, FromCalls;
    NoCalls(methods, visiting);
    found := {};
    var todo := calls;
    ghost var done: set<string> := {};
    while todo != {}
      invariant done + todo == calls
      invariant forall p :: p in found <==> FromCalls(methods, done, visiting, p)
      decreases todo
    {
      var c :| c in todo;
      var more := ResolvePolicy(c, methods, visiting);
      forall p {
        OneMoreCall(methods, done, c, visiting, p);
      }
      found, todo, done := found + more, todo - {c}, done + {c};
    }
    assert done == calls;
  }

  ghost predicate FromCalls(methods: Methods, done: set<string>, visiting: set<string>, p: Policy) {
    exists c :: c in done && Reaches(methods, c, visiting, p)
  }

  lemma TerminalBody(methods: Methods, calls: set<string>, visiting: set<string>)
    ensures "executeWrite" in calls ==> forall p :: InBody(methods, calls, visiting, p) <==> p == MasterThenBackup
    ensures "execute" in calls && "executeWrite" !in calls ==>
              forall p :: InBody(methods, calls, visiting, p) <==> p == ConfiguredMode
  {
  }

  lemma NoCalls(methods: Methods, visiting: set<string>)
    ensures forall p :: !FromCalls(methods, {}, visiting, p)
  {
  }

  lemma OneMoreCall(methods: Methods, done: set<string>, c: string, visiting: set<string>, p: Policy)
    ensures FromCalls(methods, done + {c}, visiting, p) <==>
            FromCalls(methods, done, visiting, p) || Reaches(methods, c, visiting, p)
  {
    hide Reaches;
  }

  lemma AllCalls(methods: Methods, calls: set<string>, visiting: set<string>, p: Policy)
    requires "executeWrite" !in calls && "execute" !in calls
    ensures FromCalls(methods, calls * methods.Keys, visiting, p) <==> InBody(methods, calls, visiting, p)
  {
    hide Reaches;
    assert forall c :: Passes(methods, calls, c) <==> c in calls * methods.Keys;
  }

  /** From an empty path: exactly the policies at the end of any walk from the name. */
  method PoliciesOf(name: string, methods: Methods) returns (policies: set<Policy>)
    ensures forall p :: p in policies <==> exists w :: Walk(methods, w, p) && w[0] == name
  {
    policies := ResolvePolicy(name, methods, {});
    forall p
      ensures Reaches(methods, name, {}, p) <==> exists w :: Walk(methods, w, p) && w[0] == name
    {
      hide Walk;
      if w :| Walk(methods, w, p) && w[0] == name {
        assert Avoids(w, {});
      }
    }
  }

  // ---- the bodies themselves (tools/parity.py:37-45)

  /** Opening minus closing braces. */
  function Balance(s: string): int {
    if s == [] then 0
    else Balance(s[..|s| - 1]) + Weight(s[|s| - 1])
  }

  function Weight(c: char): int {
    if c == '{' then 1 else if c == '}' then -1 else 0
  }

  /** The text from `start` up to `end` never closes more than it opens. */
  predicate StaysOpen(source: string, start: nat, end: nat)
    requires start <= end <= |source|
  {
    forall k :: start <= k <= end ==> Balance(source[start..k]) >= 0
  }

  /** `end` is the closing brace of the body that starts at `start`. */
  predicate Closes(source: string, start: nat, end: nat)
    requires start <= |source|
  {
    && start <= end < |source| && source[end] == '}'
    && StaysOpen(source, start, end) && Balance(source[start..end]) == 0
  }

  lemma BalanceStep(source: string, start: nat, pos: nat)
    requires start <= pos < |source|
    ensures Balance(source[start..pos + 1]) == Balance(source[start..pos]) + Weight(source[pos])
  {
    assert source[start..pos + 1][..pos - start] == source[start..pos];
  }

  lemma NothingOpened(source: string, start: nat)
    requires start <= |source|
    ensures Balance(source[start..start]) == 0 && StaysOpen(source, start, start)
  {
  }

  /** Find the end of the body after the opening brace, or run off the text (an IndexError). */
  method MatchBrace(source: string, start: nat) returns (end: Option<nat>)
    requires start <= |source|
    ensures end.Some? ==> Closes(source, start, end.value)
    ensures end.None? ==> StaysOpen(source, start, |source|)
  {
    NothingOpened(source, start);
    hide Balance;
    var pos, depth := start, 1;
    while depth != 0
      invariant start <= pos <= |source| && depth >= 0
      invariant depth > 0 ==> depth == Balance(source[start..pos]) + 1 && StaysOpen(source, start, pos)
      invariant depth == 0 ==> pos > start && Closes(source, start, pos - 1)
      decreases |source| - pos, depth
    {
      if pos == |source| {
        return None;
      }
      BalanceStep(source, start, pos);
      if source[pos] == '{' {
        depth := depth + 1;
      } else if source[pos] == '}' {
        depth := depth - 1;
      }
      pos := pos + 1;
    }
    end := Some(pos - 1);
  }

  /** There is at most one closing brace, and none when the text runs off. */
  lemma ClosesOnce(source: string, start: nat, end: nat, other: nat)
    requires start <= |source| && Closes(source, start, end) && end < other <= |source|
    ensures !StaysOpen(source, start, other)
  {
    assert source[start..end + 1][..end - start] == source[start..end];
    assert Balance(source[start..end + 1]) == -1;
  }
}
