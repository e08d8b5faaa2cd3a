/**
 * `Archetype_Funnel` (archetype.funnel.php): a funnel is an ordered list of
 * phases, each with a test on the user. The first phase whose test answers
 * exactly `false` is the user's next phase, and the funnel hooks that phase's
 * callback. `complete` records that the user finished and redirects.
 *
 * A phase is the array `get_phases` returns under its key; a test closure is a
 * `Test` value that `RunTest` applies to the user's meta row. Hook dispatch is
 * the pair of action name and callback name the constructor registers.
 */
module Funnels {
  import opened Php
  import opened UserMeta

  /** One entry of `get_phases()`: its key, `test_type`, `meta_key`, `hook` and `callback`. */
  datatype Phase = Phase(key: string, testType: string, metaKey: string, hook: string, callback: string)

  /** The keys of a PHP array are unique. */
  predicate DistinctKeys(phases: seq<Phase>)
  {
    forall i, j :: 0 <= i < j < |phases| ==> phases[i].key != phases[j].key
  }

  /** The closures `get_tests` builds: `create_usermeta_test`'s, and the `once` case's. */
  datatype Test = UsermetaTest(metaKey: string) | OnceTest(phase: string, funnelName: string)

  /** The `test_type`s the `switch` in `get_tests` has a case for. */
  predicate Recognised(p: Phase)
  {
    p.testType == "usermeta" || p.testType == "once"
  }

  /** The closure `get_tests` stores for a phase it recognises. */
  function TestFor(p: Phase, funnelName: string): (t: Test)
    requires Recognised(p)
    ensures p.testType == "usermeta" ==> forall row :: Fails(t, row) <==> !Truthy(Lookup(row, p.metaKey))
    ensures p.testType == "once" ==> forall row :: !Truthy(Lookup(row, funnelName)) ==> Fails(t, row)
    ensures p.testType == "once" ==> forall row :: Lookup(row, funnelName).List? && Truthy(Lookup(row, funnelName)) ==>
      (Fails(t, row) <==> Str(p.key) !in Lookup(row, funnelName).items)
  {
    if p.testType == "usermeta" then UsermetaTest(p.metaKey) else OnceTest(p.key, funnelName)
  }

  /**
   * `in_array($needle, $haystack)`: membership in the values of an array; on
   * anything that is not an array PHP warns and returns null.
   */
  function InArray(needle: Value, haystack: Value): (r: Value)
    ensures haystack.List? ==> (r == Bool(true) <==> needle in haystack.items)
    ensures haystack.Dict? ==> (r == Bool(true) <==> needle in haystack.entries.Values)
    ensures IsArray(haystack) ==> r.Bool?
    ensures !IsArray(haystack) ==> r == Null
  {
    match haystack
    case List(items) => Bool(needle in items)
    case Dict(entries) => Bool(needle in entries.Values)
    case _ => Null
  }

  /** What a test closure returns for a user with the given meta row. */
  function RunTest(t: Test, row: map<string, Value>): (r: Value)
    ensures t.UsermetaTest? ==> (r == Bool(true) <==> Truthy(Lookup(row, t.metaKey)))
    ensures t.UsermetaTest? ==> (r == Bool(false) <==> !Truthy(Lookup(row, t.metaKey)))
    ensures t.OnceTest? && !Truthy(Lookup(row, t.funnelName)) ==> r == Bool(false)
    ensures t.OnceTest? && Lookup(row, t.funnelName).List? && Truthy(Lookup(row, t.funnelName)) ==>
      (r == Bool(true) <==> Str(t.phase) in Lookup(row, t.funnelName).items)
    ensures t.OnceTest? && Lookup(row, t.funnelName).Dict? && Truthy(Lookup(row, t.funnelName)) ==>
      (r == Bool(true) <==> Str(t.phase) in Lookup(row, t.funnelName).entries.Values)
    ensures t.OnceTest? && Truthy(Lookup(row, t.funnelName)) && !IsArray(Lookup(row, t.funnelName)) ==> r == Null
  {
    match t
    case UsermetaTest(metaKey) =>
      if Truthy(Lookup(row, metaKey)) then Bool(true) else Bool(false)
    case OnceTest(phase, funnelName) =>
      var stored := Lookup(row, funnelName);
      var progress := if !Truthy(stored) then List([]) else stored;
      InArray(Str(phase), progress)
  }

  /** `call_user_func($test, $this->user) === false`. */
  predicate Fails(t: Test, row: map<string, Value>)
  {
    RunTest(t, row) == Bool(false)
  }

  /**
   * The `$tests` array `get_tests` builds: one entry per recognised phase,
   * under the phase's key, in phase order; unrecognised phases get nothing.
   */
  function Tests(phases: seq<Phase>, funnelName: string): (tests: seq<(string, Test)>)
    ensures |tests| <= |phases|
  {
    if phases == [] then []
    else
      var init := Tests(phases[..|phases| - 1], funnelName);
      var p := phases[|phases| - 1];
      if Recognised(p) then init + [(p.key, TestFor(p, funnelName))] else init
  }

  /** Every entry of `Tests` comes from a recognised phase, and every recognised phase has its entry. */
  lemma {:induction false} TestsMatchPhases(phases: seq<Phase>, funnelName: string)
    ensures forall e :: e in Tests(phases, funnelName) ==>
      exists p :: p in phases && Recognised(p) && e == (p.key, TestFor(p, funnelName))
    ensures forall p :: p in phases && Recognised(p) ==> (p.key, TestFor(p, funnelName)) in Tests(phases, funnelName)
  {
    if phases != [] {
      var init := phases[..|phases| - 1];
      var p := phases[|phases| - 1];
      TestsMatchPhases(init, funnelName);
      assert phases == init + [p];
      assert forall q :: q in phases <==> q in init || q == p;
    }
  }

  /**
   * The index of the first test that fails, or None when none does.
   */
  function FirstFailing(tests: seq<(string, Test)>, row: map<string, Value>): (r: Option<nat>)
    ensures r.Some? ==> r.value < |tests| && Fails(tests[r.value].1, row)
    ensures r.Some? ==> forall j :: 0 <= j < r.value ==> !Fails(tests[j].1, row)
    ensures r.None? ==> forall j :: 0 <= j < |tests| ==> !Fails(tests[j].1, row)
  {
    if tests == [] then None
    else if Fails(tests[0].1, row) then Some(0)
    else
      match FirstFailing(tests[1..], row)
      case None => None
      case Some(j) => Some(j + 1)
  }

  /** `get_next_phase`'s answer: the key of the first failing test, or None for its `false`. */
  function NextPhase(tests: seq<(string, Test)>, row: map<string, Value>): (next: Option<string>)
    ensures next.None? <==> forall j :: 0 <= j < |tests| ==> !Fails(tests[j].1, row)
    ensures next.Some? ==> exists i :: 0 <= i < |tests| && tests[i].0 == next.value && Fails(tests[i].1, row) &&
                                       (forall j :: 0 <= j < i ==> !Fails(tests[j].1, row))
  {
    match FirstFailing(tests, row)
    case None => None
    case Some(i) => Some(tests[i].0)
  }

  /** A failing test that every earlier test passes is the one `FirstFailing` finds. */
  lemma FirstFailingUnique(tests: seq<(string, Test)>, row: map<string, Value>, i: nat)
    requires i < |tests| && Fails(tests[i].1, row)
    requires forall j :: 0 <= j < i ==> !Fails(tests[j].1, row)
    ensures FirstFailing(tests, row) == Some(i)
    ensures NextPhase(tests, row) == Some(tests[i].0)
  {
  }

  /** Once a prefix of the tests has a failing one, the tests after it do not matter. */
  lemma {:induction false} PrefixDecides(tests: seq<(string, Test)>, rest: seq<(string, Test)>, row: map<string, Value>)
    requires FirstFailing(tests, row).Some?
    ensures FirstFailing(tests + rest, row) == FirstFailing(tests, row)
    ensures NextPhase(tests + rest, row) == NextPhase(tests, row)
  {
    if !Fails(tests[0].1, row) {
      assert (tests + rest)[1..] == tests[1..] + rest;
      PrefixDecides(tests[1..], rest, row);
    }
  }

  /** The recognised phases before index `i` all pass their tests. */
  predicate EarlierPhasesPass(phases: seq<Phase>, funnelName: string, row: map<string, Value>, i: int)
    requires i <= |phases|
  {
    forall j :: 0 <= j < i && Recognised(phases[j]) ==> !Fails(TestFor(phases[j], funnelName), row)
  }

  /**
   * `get_next_phase` over the phases in declaration order: the key it returns
   * belongs to a recognised phase whose test fails and before which every
   * recognised phase passes.
   */
  lemma {:induction false} NextPhaseIsFirstFailingPhase(phases: seq<Phase>, funnelName: string, row: map<string, Value>)
    ensures var next := NextPhase(Tests(phases, funnelName), row);
      next.Some? ==> exists i :: (0 <= i < |phases| && phases[i].key == next.value && Recognised(phases[i]) &&
                                  Fails(TestFor(phases[i], funnelName), row) && EarlierPhasesPass(phases, funnelName, row, i))
    decreases |phases|
  {
    if phases != [] {
      var init := phases[..|phases| - 1];
      var p := phases[|phases| - 1];
      var ti := Tests(init, funnelName);
      var rest: seq<(string, Test)> := if Recognised(p) then [(p.key, TestFor(p, funnelName))] else [];
      var tests := Tests(phases, funnelName);
      assert phases[..|phases| - 1] == init;
      assert tests == ti + rest;
      assert forall j :: 0 <= j < |init| ==> init[j] == phases[j];
      if FirstFailing(ti, row).Some? {
        PrefixDecides(ti, rest, row);
        NextPhaseIsFirstFailingPhase(init, funnelName, row);
        var i :| 0 <= i < |init| && init[i].key == NextPhase(ti, row).value && Recognised(init[i])
          && Fails(TestFor(init[i], funnelName), row) && EarlierPhasesPass(init, funnelName, row, i);
        assert phases[i] == init[i];
        assert EarlierPhasesPass(phases, funnelName, row, i);
      } else {
        forall j | 0 <= j < |ti|
          ensures !Fails(tests[j].1, row)
        {
          assert tests[j] == ti[j];
        }
        if Recognised(p) && Fails(TestFor(p, funnelName), row) {
          assert tests[|ti|] == (p.key, TestFor(p, funnelName));
          FirstFailingUnique(tests, row, |ti|);
          TestsMatchPhases(init, funnelName);
          forall j | 0 <= j < |init| && Recognised(init[j])
            ensures !Fails(TestFor(init[j], funnelName), row)
          {
            assert init[j] in init;
            var k :| 0 <= k < |ti| && ti[k] == (init[j].key, TestFor(init[j], funnelName));
          }
          assert phases[|init|] == p;
          assert EarlierPhasesPass(phases, funnelName, row, |init|);
        } else {
          forall j | 0 <= j < |tests|
            ensures !Fails(tests[j].1, row)
          {
            if j >= |ti| {
              assert tests[j] == (p.key, TestFor(p, funnelName));
            }
          }
        }
      }
    }
  }

  /** `get_next_phase` returns `false` exactly when every recognised phase passes its test. */
  lemma NoNextPhaseIffAllPass(phases: seq<Phase>, funnelName: string, row: map<string, Value>)
    ensures NextPhase(Tests(phases, funnelName), row).None? <==> EarlierPhasesPass(phases, funnelName, row, |phases|)
  {
    var tests := Tests(phases, funnelName);
    NextPhaseIsFirstFailingPhase(phases, funnelName, row);
    if NextPhase(tests, row).None? {
      TestsMatchPhases(phases, funnelName);
      forall j | 0 <= j < |phases| && Recognised(phases[j])
        ensures !Fails(TestFor(phases[j], funnelName), row)
      {
        assert phases[j] in phases;
        var k :| 0 <= k < |tests| && tests[k] == (phases[j].key, TestFor(phases[j], funnelName));
      }
    }
  }

  /** A phase whose `test_type` has no case in `get_tests` can never be the next phase. */
  lemma UnrecognisedNeverNext(phases: seq<Phase>, funnelName: string, row: map<string, Value>, p: Phase)
    requires DistinctKeys(phases) && p in phases && !Recognised(p)
    ensures NextPhase(Tests(phases, funnelName), row) != Some(p.key)
  {
    var tests := Tests(phases, funnelName);
    var next := FirstFailing(tests, row);
    if next.Some? {
      TestsMatchPhases(phases, funnelName);
      assert tests[next.value] in tests;
      var q :| q in phases && Recognised(q) && tests[next.value] == (q.key, TestFor(q, funnelName));
      var a :| 0 <= a < |phases| && phases[a] == p;
      var b :| 0 <= b < |phases| && phases[b] == q;
      assert a != b;
    }
  }

  /** `$phases[$next]`: the phase stored under a key. */
  function PhaseAt(phases: seq<Phase>, key: string): (r: Option<Phase>)
    ensures r.Some? ==> r.value in phases && r.value.key == key
    ensures r.None? ==> forall p :: p in phases ==> p.key != key
  {
    if phases == [] then None
    else if phases[0].key == key then Some(phases[0])
    else PhaseAt(phases[1..], key)
  }

  /** With unique keys, the phase stored under a key is the only phase with that key. */
  lemma {:induction false} PhaseAtUnique(phases: seq<Phase>, p: Phase)
    requires DistinctKeys(phases) && p in phases
    ensures PhaseAt(phases, p.key) == Some(p)
  {
    if phases[0] != p {
      assert p in phases[1..];
      assert phases[0].key != p.key by {
        var k :| 0 <= k < |phases| && phases[k] == p;
      }
      PhaseAtUnique(phases[1..], p);
    }
  }

  /** The next phase is a recognised phase whose own test fails, and it is the one stored under that key. */
  lemma NextPhaseIsFailingPhase(phases: seq<Phase>, funnelName: string, row: map<string, Value>)
    requires DistinctKeys(phases)
    requires NextPhase(Tests(phases, funnelName), row).Some?
    ensures var p := PhaseAt(phases, NextPhase(Tests(phases, funnelName), row).value);
      p.Some? && Recognised(p.value) && Fails(TestFor(p.value, funnelName), row)
  {
    var tests := Tests(phases, funnelName);
    var i := FirstFailing(tests, row).value;
    TestsMatchPhases(phases, funnelName);
    assert tests[i] in tests;
    var q :| q in phases && Recognised(q) && tests[i] == (q.key, TestFor(q, funnelName));
    PhaseAtUnique(phases, q);
  }

  /** `if( !$next ) return;`: the constructor goes on only for a truthy phase key. */
  predicate HookGate(next: Option<string>): (go: bool)
    ensures go <==> next.Some? && next.value != "" && next.value != "0"
  {
    next.Some? && Truthy(Str(next.value))
  }

  /** A failing first phase keyed "0" (or the integer key 0 of a list of phases) is next, yet the gate lets it through unhooked. */
  lemma PhaseZeroNeverHooked()
    ensures var phases := [Phase("0", "usermeta", "tour_done", "template_redirect", "show_tour")];
      NextPhase(Tests(phases, "signup"), map[]) == Some("0") && !HookGate(Some("0"))
  {
    var phases := [Phase("0", "usermeta", "tour_done", "template_redirect", "show_tour")];
    assert phases[..0] == [];
    assert Tests(phases, "signup") == [("0", UsermetaTest("tour_done"))];
    FirstFailingUnique(Tests(phases, "signup"), map[], 0);
  }

  /** How a call that ends the request ends: `wp_redirect` followed by `die()`, or a plain return. */
  datatype Exit = Redirected(location: string) | Returned

  /** The users `register_signup_completed` has been called for. */
  class Signups {
    var completed: set<UserId>

    constructor ()
      ensures completed == {}
    {
      completed := {};
    }

    method RegisterCompleted(u: UserId)
      modifies this
      ensures completed == old(completed) + {u}
    {
      completed := completed + {u};
    }
  }

  /** Where `complete` sends the user: always "/", whatever `$path` and `$redirect` say. */
  function CompleteExit(path: string, redirect: bool): (e: Exit)
    ensures e.Redirected?
  {
    Redirected("/")
  }

  /** Where `complete` evidently means to send the user: to `$path`, when `$redirect` asks for it. */
  function IntendedCompleteExit(path: string, redirect: bool): (e: Exit)
    ensures redirect ==> e == Redirected(path)
    ensures !redirect ==> e == Returned
  {
    if redirect then Redirected(path) else Returned
  }

  /** The `$path` argument never reaches the redirect. */
  lemma CompleteIgnoresPath()
    ensures CompleteExit("/welcome", true) != IntendedCompleteExit("/welcome", true)
    ensures forall p1, p2, r1, r2 :: CompleteExit(p1, r1) == CompleteExit(p2, r2)
  {
  }

  /** `Archetype_Funnel::complete` as written. */
  method Complete(u: UserId, path: string, redirect: bool, signups: Signups) returns (e: Exit)
    modifies signups
    ensures signups.completed == old(signups.completed) + {u}
    ensures e == CompleteExit(path, redirect)
  {
    signups.RegisterCompleted(u);
    e := Redirected("/");
  }

  /** `complete` with the path and the redirect flag honoured. */
  method CompleteTo(u: UserId, path: string, redirect: bool, signups: Signups) returns (e: Exit)
    modifies signups
    ensures signups.completed == old(signups.completed) + {u}
    ensures e == IntendedCompleteExit(path, redirect)
  {
    signups.RegisterCompleted(u);
    if redirect {
      e := Redirected(path);
    } else {
      e := Returned;
    }
  }

  class Funnel {
    const user: UserId
    const name: string
    const phases: seq<Phase>
    /** Whether `at_is_funnel` was filtered to `__return_true`. */
    var isFunnel: bool
    var currentPhase: Option<Phase>
    /** The action and the callback the constructor hooked, if any. */
    var hooked: Option<(string, string)>

    /** `get_tests`. */
    method GetTests() returns (tests: seq<(string, Test)>)
      ensures tests == Tests(phases, name)
    {
      tests := [];
      for i := 0 to |phases|
        invariant tests == Tests(phases[..i], name)
      {
        var p := phases[i];
        assert phases[..i + 1][..i] == phases[..i];
        if p.testType == "usermeta" {
          tests := tests + [(p.key, UsermetaTest(p.metaKey))];
        } else if p.testType == "once" {
          tests := tests + [(p.key, OnceTest(p.key, name))];
        }
      }
      assert phases[..|phases|] == phases;
    }

    /**
     * `get_next_phase`: the tests run in order and the loop stops at the
     * first that answers `false`; `evaluated` counts the tests that ran.
     */
    method GetNextPhase(tests: seq<(string, Test)>, store: MetaStore) returns (next: Option<string>, ghost evaluated: nat)
      ensures next == NextPhase(tests, store.Row(user))
      ensures FirstFailing(tests, store.Row(user)).Some? ==> evaluated == FirstFailing(tests, store.Row(user)).value + 1
      ensures FirstFailing(tests, store.Row(user)).None? ==> evaluated == |tests|
    {
      var row := store.Row(user);
      evaluated := 0;
      for i := 0 to |tests|
        invariant evaluated == i
        invariant forall j :: 0 <= j < i ==> !Fails(tests[j].1, row)
      {
        evaluated := i + 1;
        if RunTest(tests[i].1, row) == Bool(false) {
          FirstFailingUnique(tests, row, i);
          return Some(tests[i].0), evaluated;
        }
      }
      next := None;
    }

    /**
     * The constructor as written: when `get_next_phase` returns a truthy key,
     * it filters `at_is_funnel` and hooks the phase's callback on its hook;
     * otherwise it does nothing.
     */
    constructor (user: UserId, name: string, phases: seq<Phase>, store: MetaStore)
      requires DistinctKeys(phases)
      ensures this.user == user && this.name == name && this.phases == phases
      ensures var next := NextPhase(Tests(phases, name), store.Row(user));
        if HookGate(next) then
          isFunnel && currentPhase == PhaseAt(phases, next.value) && currentPhase.Some?
          && hooked == Some((currentPhase.value.hook, currentPhase.value.callback))
        else
          !isFunnel && currentPhase == None && hooked == None
    {
      this.user := user;
      this.name := name;
      this.phases := phases;
      isFunnel := false;
      currentPhase := None;
      hooked := None;
      new;
      var tests := GetTests();
      var next, _ := GetNextPhase(tests, store);
      if !HookGate(next) {
        return;
      }
      NextPhaseIsFailingPhase(phases, name, store.Row(user));
      isFunnel := true;
      currentPhase := PhaseAt(phases, next.value);
      hooked := Some((currentPhase.value.hook, currentPhase.value.callback));
    }

    /** The constructor with the gate the comment describes: hook whenever some phase fails. */
    constructor Intended(user: UserId, name: string, phases: seq<Phase>, store: MetaStore)
      requires DistinctKeys(phases)
      ensures this.user == user && this.name == name && this.phases == phases
      ensures var next := NextPhase(Tests(phases, name), store.Row(user));
        if next.Some? then
          isFunnel && currentPhase == PhaseAt(phases, next.value) && currentPhase.Some?
          && Recognised(currentPhase.value) && Fails(TestFor(currentPhase.value, name), store.Row(user))
          && hooked == Some((currentPhase.value.hook, currentPhase.value.callback))
        else
          !isFunnel && currentPhase == None && hooked == None
    {
      this.user := user;
      this.name := name;
      this.phases := phases;
      isFunnel := false;
      currentPhase := None;
      hooked := None;
      new;
      var tests := GetTests();
      var next, _ := GetNextPhase(tests, store);
      if next.None? {
        return;
      }
      NextPhaseIsFailingPhase(phases, name, store.Row(user));
      isFunnel := true;
      currentPhase := PhaseAt(phases, next.value);
      hooked := Some((currentPhase.value.hook, currentPhase.value.callback));
    }
  }
}
