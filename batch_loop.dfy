/**
  The loop shared by the three batch operations: one request per planned item,
  strictly in order, each awaited before the next is sent; a returned value is
  kept and the loop goes on; a raised error ends the loop at once, because the
  `try` encloses the whole loop.
 */
module BatchLoop {
  import opened Remote

  /** What a loop run did: the requests it issued, in order (a raising request
      counts as issued), the values the returning ones resolved with, and the
      message of the error that ended it early, if one did. */
  datatype LoopRun = LoopRun(issued: seq<Request>, values: seq<Value>, raised: Option<string>)

  /** Issues `plan` to `service`, which has already received `history`. */
  function Issue(service: Service, history: seq<Request>, plan: seq<Request>): LoopRun
    decreases |plan|
  {
    if plan == [] then LoopRun([], [], None)
    else
      match service(history, plan[0])
      case Raised(m) => LoopRun([plan[0]], [], Some(m))
      case Returned(v) =>
        var rest := Issue(service, history + [plan[0]], plan[1..]);
        LoopRun([plan[0]] + rest.issued, [v] + rest.values, rest.raised)
  }

  /** A loop run issues only planned requests, in plan order, with nothing
      skipped; it keeps one value per request that returned, and it reaches
      the end of the plan unless an error stopped it. */
  lemma {:induction false} IssueShape(service: Service, history: seq<Request>, plan: seq<Request>)
    ensures var s := Issue(service, history, plan);
      && |s.issued| <= |plan| && s.issued == plan[..|s.issued|]
      && (s.raised.None? ==> s.issued == plan && |s.values| == |plan|)
      && (s.raised.Some? ==> |s.issued| == |s.values| + 1)
    decreases |plan|
  {
    if plan != [] && service(history, plan[0]).Returned? {
      var rest := Issue(service, history + [plan[0]], plan[1..]);
      IssueShape(service, history + [plan[0]], plan[1..]);
      assert [plan[0]] + plan[1..][..|rest.issued|] == plan[..|rest.issued| + 1];
    }
  }

  /** What the `i`-th planned request gets, once the service has received
      `history` and every planned request before it. */
  function OutcomeAt(service: Service, history: seq<Request>, plan: seq<Request>, i: nat): Outcome
    requires i < |plan|
  {
    service(history + plan[..i], plan[i])
  }

  /** Every planned request returns, when issued in order. */
  predicate NoneRaises(service: Service, history: seq<Request>, plan: seq<Request>)
  {
    forall i | 0 <= i < |plan| :: OutcomeAt(service, history, plan, i).Returned?
  }

  /** The `k`-th planned request is the first to raise. */
  predicate FirstRaisesAt(service: Service, history: seq<Request>, plan: seq<Request>, k: nat)
  {
    && k < |plan|
    && OutcomeAt(service, history, plan, k).Raised?
    && forall i | 0 <= i < k :: OutcomeAt(service, history, plan, i).Returned?
  }

  /** Seen from the second request on, a plan is its tail sent after its head. */
  lemma OutcomeShift(service: Service, history: seq<Request>, plan: seq<Request>, i: nat)
    requires i + 1 < |plan|
    ensures OutcomeAt(service, history + [plan[0]], plan[1..], i) == OutcomeAt(service, history, plan, i + 1)
  {
    assert history + [plan[0]] + plan[1..][..i] == history + plan[..i + 1];
  }

  /** When nothing raises, every planned request is issued, in order, and the
      i-th collected value is what the i-th request returned. */
  lemma {:induction false} IssueComplete(service: Service, history: seq<Request>, plan: seq<Request>)
    requires NoneRaises(service, history, plan)
    ensures var s := Issue(service, history, plan);
      && s.issued == plan && s.raised == None && |s.values| == |plan|
      && forall i | 0 <= i < |plan| :: s.values[i] == OutcomeAt(service, history, plan, i).value
    decreases |plan|
  {
    if plan != [] {
      var h := history + [plan[0]];
      forall i | 0 <= i < |plan| - 1
        ensures OutcomeAt(service, h, plan[1..], i).Returned?
      {
        OutcomeShift(service, history, plan, i);
      }
      assert history + plan[..0] == history;
      assert OutcomeAt(service, history, plan, 0).Returned?;
      IssueComplete(service, h, plan[1..]);
      var rest := Issue(service, h, plan[1..]);
      var s := Issue(service, history, plan);
      forall i | 0 <= i < |plan|
        ensures s.values[i] == OutcomeAt(service, history, plan, i).value
      {
        if i > 0 {
          OutcomeShift(service, history, plan, i - 1);
        }
      }
    }
  }

  /** When the k-th request is the first to raise, exactly the requests up to
      and including the k-th are issued, the loop run ends with that error's
      message, and the values before it are collected in order. */
  lemma {:induction false} IssueHalts(service: Service, history: seq<Request>, plan: seq<Request>, k: nat)
    requires FirstRaisesAt(service, history, plan, k)
    ensures var s := Issue(service, history, plan);
      && s.issued == plan[..k + 1]
      && s.raised == Some(OutcomeAt(service, history, plan, k).message)
      && |s.values| == k
      && forall i | 0 <= i < k :: s.values[i] == OutcomeAt(service, history, plan, i).value
    decreases k
  {
    assert history + plan[..0] == history;
    if k > 0 {
      var h := history + [plan[0]];
      assert OutcomeAt(service, history, plan, 0).Returned?;
      forall i | 0 <= i < k - 1
        ensures OutcomeAt(service, h, plan[1..], i).Returned?
      {
        OutcomeShift(service, history, plan, i);
      }
      OutcomeShift(service, history, plan, k - 1);
      IssueHalts(service, h, plan[1..], k - 1);
      assert [plan[0]] + plan[1..][..k] == plan[..k + 1];
      var s := Issue(service, history, plan);
      forall i | 0 <= i < k
        ensures s.values[i] == OutcomeAt(service, history, plan, i).value
      {
        if i > 0 {
          OutcomeShift(service, history, plan, i - 1);
        }
      }
    }
  }

  /** If some planned request raises, one of them is the first to. */
  lemma {:induction false} FirstRaise(service: Service, history: seq<Request>, plan: seq<Request>) returns (k: nat)
    requires !NoneRaises(service, history, plan)
    ensures FirstRaisesAt(service, history, plan, k)
    decreases |plan|
  {
    assert history + plan[..0] == history;
    if OutcomeAt(service, history, plan, 0).Raised? {
      k := 0;
    } else {
      var h := history + [plan[0]];
      var j :| 0 <= j < |plan| && OutcomeAt(service, history, plan, j).Raised?;
      OutcomeShift(service, history, plan, j - 1);
      var k' := FirstRaise(service, h, plan[1..]);
      k := k' + 1;
      OutcomeShift(service, history, plan, k');
      forall i | 0 <= i < k
        ensures OutcomeAt(service, history, plan, i).Returned?
      {
        if i > 0 {
          OutcomeShift(service, history, plan, i - 1);
        }
      }
    }
  }

  /** A loop run ends without an error exactly when no planned request raises. */
  lemma IssueRaisesIff(service: Service, history: seq<Request>, plan: seq<Request>)
    ensures Issue(service, history, plan).raised.None? <==> NoneRaises(service, history, plan)
  {
    if NoneRaises(service, history, plan) {
      IssueComplete(service, history, plan);
    } else {
      var k := FirstRaise(service, history, plan);
      IssueHalts(service, history, plan, k);
    }
  }

  /** Loop invariant of the batch methods: the first `i` planned requests have
      been issued and have returned `values`, and the whole loop run is those
      followed by the loop run of the remaining plan. */
  ghost predicate Resumes(service: Service, history: seq<Request>, plan: seq<Request>, i: nat, values: seq<Value>)
    requires i <= |plan|
  {
    var rest := Issue(service, history + plan[..i], plan[i..]);
    Issue(service, history, plan) == LoopRun(plan[..i] + rest.issued, values + rest.values, rest.raised)
  }

  /** One turn of the batch loop: the i-th request returns and the loop goes
      on, or it raises and the loop run ends there. */
  lemma ResumeStep(service: Service, history: seq<Request>, plan: seq<Request>, i: nat, values: seq<Value>)
    requires i < |plan| && Resumes(service, history, plan, i, values)
    ensures var o := OutcomeAt(service, history, plan, i);
      && (o.Returned? ==> Resumes(service, history, plan, i + 1, values + [o.value]))
      && (o.Raised? ==> Issue(service, history, plan) == LoopRun(plan[..i + 1], values, Some(o.message)))
  {
    var o := OutcomeAt(service, history, plan, i);
    var h, tail := history + plan[..i], plan[i..];
    assert tail[0] == plan[i] && tail[1..] == plan[i + 1..];
    assert h + [plan[i]] == history + plan[..i + 1];
    assert plan[..i] + [plan[i]] == plan[..i + 1];
    var here := Issue(service, h, tail);
    if o.Raised? {
      assert here == LoopRun([plan[i]], [], Some(o.message));
    } else {
      var next := Issue(service, history + plan[..i + 1], plan[i + 1..]);
      assert here == LoopRun([plan[i]] + next.issued, [o.value] + next.values, next.raised);
      assert plan[..i] + ([plan[i]] + next.issued) == plan[..i + 1] + next.issued;
      assert values + ([o.value] + next.values) == (values + [o.value]) + next.values;
    }
  }

  /** The loop can start with nothing issued, and once the plan is exhausted
      the loop run is complete. */
  lemma ResumeEnds(service: Service, history: seq<Request>, plan: seq<Request>, values: seq<Value>)
    ensures Resumes(service, history, plan, 0, [])
    ensures Resumes(service, history, plan, |plan|, values) ==> Issue(service, history, plan) == LoopRun(plan, values, None)
  {
    assert history + plan[..0] == history && plan[0..] == plan && plan[..0] == [];
    assert plan[|plan|..] == [] && plan[..|plan|] == plan;
  }
}
