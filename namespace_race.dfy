/**
 * The namespace captured by the replica reader's and the scaler's closures,
 * under concurrent requests. net/http serves each request on a goroutine of
 * its own. Each closure first assigns the captured variable when the query
 * names a namespace, then reads it again to resolve the Function. Nothing
 * orders the accesses of two requests between that assignment and that read.
 * A request is reduced here to its accesses of the captured variable. A
 * schedule picks, one access at a time, which request moves next.
 */
module NamespaceRace {
  import opened Wrappers
  import opened Namespaces

  /** One access to the captured variable: the query's assignment, or the read for `GetNamespace`. */
  datatype Access = Assign(ns: string) | Read

  /** A request's accesses, in program order: the assignment when the query names a namespace, then the read. */
  function Accesses(query: Query): (steps: seq<Access>)
    ensures |steps| >= 1 && steps[|steps| - 1] == Read
    ensures |steps| == 2 <==> QueryGet(query, "namespace") != ""
    ensures |steps| == 2 ==> steps[0] == Assign(QueryGet(query, "namespace"))
  {
    var requested := QueryGet(query, "namespace");
    if requested != "" then [Assign(requested), Read] else [Read]
  }

  /**
   * The captured variable; how many accesses each request has made; and,
   * for each request, the namespace its read saw once it has read.
   */
  datatype World = World(captured: string, next: seq<nat>, seen: seq<Option<string>>)

  predicate Fits(w: World, requests: seq<Query>)
  {
    |w.next| == |requests| && |w.seen| == |requests|
  }

  /** Before any request has run: the namespace the closure was built with. */
  function Start(captured: string, requests: seq<Query>): (w: World)
    ensures Fits(w, requests)
  {
    World(captured, seq(|requests|, _ => 0), seq(|requests|, _ => None))
  }

  /** Request `r` makes its next access, if it has one left. */
  function Advance(w: World, requests: seq<Query>, r: nat): (w': World)
    requires Fits(w, requests)
    ensures Fits(w', requests)
    ensures forall x :: 0 <= x < |w.seen| && w.seen[x].Some? ==> w'.seen[x].Some?
  {
    if r >= |requests| || w.next[r] >= |Accesses(requests[r])| then w
    else
      var next := w.next[r := w.next[r] + 1];
      match Accesses(requests[r])[w.next[r]]
      case Assign(ns) => w.(captured := ns, next := next)
      case Read => w.(seen := w.seen[r := Some(w.captured)], next := next)
  }

  /** The accesses as the schedule orders them. */
  function Run(w: World, requests: seq<Query>, schedule: seq<nat>): (w': World)
    requires Fits(w, requests)
    ensures Fits(w', requests)
    decreases |schedule|
  {
    if schedule == [] then w else Run(Advance(w, requests, schedule[0]), requests, schedule[1..])
  }

  /**
   * As written: request A asks for `a` and request B for `b`. A assigns, B
   * assigns, A reads, B reads. A's Function lookup then goes to `b`.
   */
  lemma InterleavedReadSeesOtherRequest()
    ensures var requests := [map["namespace" := "a"], map["namespace" := "b"]];
      var w := Run(Start("openfaas-fn", requests), requests, [0, 1, 0, 1]);
      QueryGet(requests[0], "namespace") == "a" && w.seen[0] == Some("b")
  {
    var requests: seq<Query> := [map["namespace" := "a"], map["namespace" := "b"]];
    assert Accesses(requests[0]) == [Assign("a"), Read];
    assert Accesses(requests[1]) == [Assign("b"), Read];
    var w0 := Start("openfaas-fn", requests);
    var w1 := Advance(w0, requests, 0);
    assert w1.captured == "a" && w1.next == [1, 0];
    var w2 := Advance(w1, requests, 1);
    assert w2.captured == "b" && w2.next == [1, 1];
    var w3 := Advance(w2, requests, 0);
    assert w3.seen[0] == Some("b");
    var w4 := Advance(w3, requests, 1);
    assert w4.seen[0] == Some("b");
    assert [0, 1, 0, 1][1..][1..][1..][1..] == [];
  }

  /**
   * The evident intent: a request's assignment and read in one critical
   * section, so the schedule moves a request through both accesses at once.
   */
  function Locked(schedule: seq<nat>): (steps: seq<nat>)
    ensures |steps| == 2 * |schedule|
    decreases |schedule|
  {
    if schedule == [] then [] else [schedule[0], schedule[0]] + Locked(schedule[1..])
  }

  /**
   * Every request has either not started, or made all its accesses; one that
   * named a namespace saw exactly that namespace.
   */
  ghost predicate Settled(w: World, requests: seq<Query>)
    requires Fits(w, requests)
  {
    forall r :: 0 <= r < |requests| ==>
      || (w.next[r] == 0 && w.seen[r].None?)
      || (&& w.next[r] == |Accesses(requests[r])|
          && w.seen[r].Some?
          && (QueryGet(requests[r], "namespace") != "" ==> w.seen[r] == Some(QueryGet(requests[r], "namespace"))))
  }

  /**
   * One request served inside the critical section does what one call of
   * the handlers' `Handle` does: the captured variable becomes the
   * effective namespace, and the read sees it.
   */
  lemma LockedServe(w: World, requests: seq<Query>, r: nat)
    requires Fits(w, requests) && r < |requests| && w.next[r] == 0
    ensures var w' := Advance(Advance(w, requests, r), requests, r);
      && w'.captured == EffectiveNamespace(w.captured, requests[r])
      && w'.seen[r] == Some(w'.captured)
      && w'.next[r] == |Accesses(requests[r])|
  {
  }

  /** Serving requests in critical sections keeps every request settled, and a scheduled request has read. */
  lemma {:induction false} LockedStaysSettled(w: World, requests: seq<Query>, schedule: seq<nat>)
    requires Fits(w, requests) && Settled(w, requests)
    ensures Settled(Run(w, requests, Locked(schedule)), requests)
    ensures forall r :: 0 <= r < |requests| && w.seen[r].Some? ==> Run(w, requests, Locked(schedule)).seen[r].Some?
    ensures forall r :: r in schedule && r < |requests| ==> Run(w, requests, Locked(schedule)).seen[r].Some?
    decreases |schedule|
  {
    if schedule != [] {
      var r := schedule[0];
      var w' := Advance(Advance(w, requests, r), requests, r);
      assert Locked(schedule)[1..][1..] == Locked(schedule[1..]);
      assert Run(w, requests, Locked(schedule)) == Run(w', requests, Locked(schedule[1..]));
      if r < |requests| && w.next[r] == 0 {
        LockedServe(w, requests, r);
      }
      assert Settled(w', requests);
      LockedStaysSettled(w', requests, schedule[1..]);
    }
  }

  /**
   * In critical sections, a request that names a namespace works in that
   * namespace, whatever other requests run and in whatever order.
   */
  lemma LockedServesOwnNamespace(captured: string, requests: seq<Query>, schedule: seq<nat>, r: nat)
    requires r < |requests| && r in schedule
    requires QueryGet(requests[r], "namespace") != ""
    ensures Run(Start(captured, requests), requests, Locked(schedule)).seen[r]
      == Some(QueryGet(requests[r], "namespace"))
  {
    LockedStaysSettled(Start(captured, requests), requests, schedule);
  }
}
