/**
  The batch membership operations of the access-groups client: promoting and
  demoting curators, inviting members, and the local filtering of a user
  lookup. The client's executor (`this.api.execute`) is the `service` oracle
  of module Remote; `history` is what the remote service had received before
  the call, and `issued` is the ordered trace of the requests the call sends.
 */
module AccessGroups {
  import opened Remote
  import opened Filtering
  import opened BatchLoop

  /** How long an unanswered invitation stays valid; the same for every
      invitation and not settable by any caller. */
  const DEFAULT_GROUP_INVITATION_EXPIRATION: int := 5

  /** The one message a failed invitation batch raises, however many failed. */
  const SEND_INVITATION_ERRORS: string := "Send invitation errors"

  /** The message of the TypeError thrown when `users/get` resolves with
      something that is not a list, as V8 and SpiderMonkey word it; getUsers
      rethrows it as a plain Error carrying this message. */
  const USERS_NOT_FILTERABLE: string := "users.filter is not a function"

  /** A batch operation's successful result, the number 200. */
  const SUCCESS: Outcome := Returned(Status(200))

  /** A member or curator reference; only its uuid is used. */
  datatype Member = Member(uuid: string)

  /** What one call of an operation did: the requests it issued, in order,
      and what it returned or raised. */
  datatype Run = Run(issued: seq<Request>, result: Outcome)

  // ---------------------------------------------------------------- requests

  function CuratorPost(groupName: string, curator: Member): Request
  {
    Request("curators/post", [groupName], CuratorBody(curator.uuid))
  }

  function CuratorDowngrade(groupName: string, curator: Member, expiration: int): Request
  {
    Request("curators/downgrade", [groupName, curator.uuid], ExpirationBody(expiration))
  }

  function InvitationPost(groupName: string, member: Member, expiration: int): Request
  {
    Request("groupInvitations/post", [groupName],
            InvitationBody(member.uuid, DEFAULT_GROUP_INVITATION_EXPIRATION, expiration))
  }

  function UsersGet(q: string, scope: string): Request
  {
    Request("users/get", [q, scope], NoBody)
  }

  /** The requests `addCurators` plans: one per curator, in list order. */
  function CuratorPosts(groupName: string, curators: seq<Member>): seq<Request>
  {
    seq(|curators|, i requires 0 <= i < |curators| => CuratorPost(groupName, curators[i]))
  }

  function CuratorDowngrades(groupName: string, curators: seq<Member>, expiration: int): seq<Request>
  {
    seq(|curators|, i requires 0 <= i < |curators| => CuratorDowngrade(groupName, curators[i], expiration))
  }

  function InvitationPosts(groupName: string, members: seq<Member>, expiration: int): seq<Request>
  {
    seq(|members|, i requires 0 <= i < |members| => InvitationPost(groupName, members[i], expiration))
  }

  // ---------------------------------------------------------- reference runs

  /** A curator batch ignores the values its requests return: it re-raises the
      message of the error that stopped it, or else returns 200. */
  function Rethrow(s: LoopRun): Outcome
  {
    match s.raised
    case Some(m) => Raised(m)
    case None => SUCCESS
  }

  function AddCuratorsRun(service: Service, history: seq<Request>, groupName: string, curators: seq<Member>): Run
  {
    var s := Issue(service, history, CuratorPosts(groupName, curators));
    Run(s.issued, Rethrow(s))
  }

  function RemoveCuratorsRun(service: Service, history: seq<Request>, groupName: string,
                             curators: seq<Member>, expiration: int): Run
  {
    var s := Issue(service, history, CuratorDowngrades(groupName, curators, expiration));
    Run(s.issued, Rethrow(s))
  }

  function SendInvitationsRun(service: Service, history: seq<Request>, groupName: string,
                              members: seq<Member>, expiration: int): Run
  {
    var s := Issue(service, history, InvitationPosts(groupName, members, expiration));
    Run(s.issued, match s.raised
                  case Some(m) => Raised(m)
                  case None => Aggregate(s.values))
  }

  // ------------------------------------------------------------- aggregation

  /** A collected result counts as an error unless it is exactly 200. */
  predicate IsError(v: Value)
  {
    v != Status(200)
  }

  /** The reduction of the invitation results: 200 when every result is 200,
      otherwise the one fixed error, whichever and however many failed. */
  function Aggregate(results: seq<Value>): (r: Outcome)
    ensures r == SUCCESS <==> forall i | 0 <= i < |results| :: results[i] == Status(200)
    ensures r != SUCCESS ==> r == Raised(SEND_INVITATION_ERRORS)
  {
    var errors := Filter(results, IsError);
    if |errors| > 0 then
      assert errors[0] in errors;
      Raised(SEND_INVITATION_ERRORS)
    else
      assert forall i | 0 <= i < |results| :: results[i] in results;
      SUCCESS
  }

  // ---------------------------------------------------------- batch methods

  method AddCurators(service: Service, history: seq<Request>, groupName: string, curators: seq<Member>)
    returns (issued: seq<Request>, result: Outcome)
    ensures Run(issued, result) == AddCuratorsRun(service, history, groupName, curators)
    ensures curators == [] ==> issued == [] && result == SUCCESS
  {
    ghost var plan := CuratorPosts(groupName, curators);
    ghost var values: seq<Value> := [];
    ResumeEnds(service, history, plan, values);
    issued := [];
    for i := 0 to |curators|
      invariant issued == plan[..i]
      invariant Resumes(service, history, plan, i, values)
    {
      var request := CuratorPost(groupName, curators[i]);
      var outcome := service(history + issued, request);
      ResumeStep(service, history, plan, i, values);
      issued := issued + [request];
      if outcome.Raised? {
        assert Issue(service, history, plan) == LoopRun(issued, values, Some(outcome.message));
        return issued, Raised(outcome.message);
      }
      values := values + [outcome.value];
    }
    ResumeEnds(service, history, plan, values);
    assert Issue(service, history, plan) == LoopRun(issued, values, None);
    return issued, SUCCESS;
  }

  method RemoveCurators(service: Service, history: seq<Request>, groupName: string,
                        curators: seq<Member>, expiration: int)
    returns (issued: seq<Request>, result: Outcome)
    ensures Run(issued, result) == RemoveCuratorsRun(service, history, groupName, curators, expiration)
    ensures curators == [] ==> issued == [] && result == SUCCESS
  {
    ghost var plan := CuratorDowngrades(groupName, curators, expiration);
    ghost var values: seq<Value> := [];
    ResumeEnds(service, history, plan, values);
    issued := [];
    for i := 0 to |curators|
      invariant issued == plan[..i]
      invariant Resumes(service, history, plan, i, values)
    {
      var request := CuratorDowngrade(groupName, curators[i], expiration);
      var outcome := service(history + issued, request);
      ResumeStep(service, history, plan, i, values);
      issued := issued + [request];
      if outcome.Raised? {
        assert Issue(service, history, plan) == LoopRun(issued, values, Some(outcome.message));
        return issued, Raised(outcome.message);
      }
      values := values + [outcome.value];
    }
    ResumeEnds(service, history, plan, values);
    assert Issue(service, history, plan) == LoopRun(issued, values, None);
    return issued, SUCCESS;
  }

  method SendInvitations(service: Service, history: seq<Request>, groupName: string,
                         members: seq<Member>, expiration: int)
    returns (issued: seq<Request>, result: Outcome)
    ensures Run(issued, result) == SendInvitationsRun(service, history, groupName, members, expiration)
    ensures members == [] ==> issued == [] && result == SUCCESS
  {
    ghost var plan := InvitationPosts(groupName, members, expiration);
    var results: seq<Value> := [];
    ResumeEnds(service, history, plan, results);
    issued := [];
    for i := 0 to |members|
      invariant issued == plan[..i]
      invariant Resumes(service, history, plan, i, results)
    {
      var request := InvitationPost(groupName, members[i], expiration);
      var outcome := service(history + issued, request);
      ResumeStep(service, history, plan, i, results);
      issued := issued + [request];
      if outcome.Raised? {
        assert Issue(service, history, plan) == LoopRun(issued, results, Some(outcome.message));
        return issued, Raised(outcome.message);
      }
      results := results + [outcome.value];
    }
    ResumeEnds(service, history, plan, results);
    assert Issue(service, history, plan) == LoopRun(issued, results, None);
    assert SendInvitationsRun(service, history, groupName, members, expiration) == Run(issued, Aggregate(results));
    var errors := Filter(results, IsError);
    if |errors| > 0 {
      return issued, Raised(SEND_INVITATION_ERRORS);
    }
    return issued, SUCCESS;
  }

  // --------------------------------------------------------------- getUsers

  predicate HasFirstName(u: User)
  {
    u.firstName != Null
  }

  /** The users `getUsers` hands back from a list: exactly those whose
      first_name is not null; a missing first_name is kept. */
  function KeepNamed(users: seq<User>): (r: seq<User>)
    ensures forall u | u in r :: u in users && u.firstName != Null
    ensures forall u | u in users && u.firstName != Null :: u in r
  {
    Filter(users, HasFirstName)
  }

  /** `getUsers`: one `users/get` request; a list is filtered, anything else
      cannot be filtered and raises, and raised errors keep their message. */
  function GetUsers(service: Service, history: seq<Request>, q: string, scope: string): (run: Run)
    ensures run.issued == [Request("users/get", [q, scope], NoBody)]
    ensures var o := service(history, UsersGet(q, scope));
      && (run.result.Returned? <==> o.Returned? && o.value.UserList?)
      && (o.Raised? ==> run.result == Raised(o.message))
      && (o.Returned? && o.value.UserList? ==> run.result == Returned(UserList(KeepNamed(o.value.users))))
      && (o.Returned? && !o.value.UserList? ==> run.result == Raised(USERS_NOT_FILTERABLE))
  {
    var request := UsersGet(q, scope);
    Run([request],
        match service(history, request)
        case Raised(m) => Raised(m)
        case Returned(UserList(users)) => Returned(UserList(KeepNamed(users)))
        case Returned(_) => Raised(USERS_NOT_FILTERABLE))
  }

  /** The users kept are the order-preserving subsequence of the named ones:
      the filter works piece by piece, keeps a single user exactly when it has
      a first_name, and keeps every copy of such a user. */
  lemma KeepNamedInOrder(a: seq<User>, b: seq<User>, u: User)
    ensures KeepNamed(a + b) == KeepNamed(a) + KeepNamed(b)
    ensures KeepNamed([u]) == if u.firstName != Null then [u] else []
    ensures multiset(KeepNamed(a))[u] == if u.firstName != Null then multiset(a)[u] else 0
  {
    FilterAppend(a, b, HasFirstName);
    FilterCount(a, HasFirstName, u);
    assert [u][1..] == [];
  }

  // ------------------------------------------------------ batch properties

  /** addCurators returns (always 200) exactly when no request raises, and then
      it has sent one curators/post per curator, in list order, duplicates
      included, whatever values came back. */
  lemma AddCuratorsSucceeds(service: Service, history: seq<Request>, groupName: string, curators: seq<Member>)
    ensures var run := AddCuratorsRun(service, history, groupName, curators);
      && (run.result.Returned? <==> NoneRaises(service, history, CuratorPosts(groupName, curators)))
      && (run.result.Returned? ==>
            && run.result == SUCCESS
            && |run.issued| == |curators|
            && forall i | 0 <= i < |curators| ::
                 run.issued[i] == Request("curators/post", [groupName], CuratorBody(curators[i].uuid)))
  {
    var plan := CuratorPosts(groupName, curators);
    IssueRaisesIff(service, history, plan);
    if NoneRaises(service, history, plan) {
      IssueComplete(service, history, plan);
    }
  }

  /** If the k-th curators/post is the first to raise, no request is sent for
      a later curator and addCurators raises that error's message. */
  lemma AddCuratorsHalts(service: Service, history: seq<Request>, groupName: string, curators: seq<Member>, k: nat)
    requires FirstRaisesAt(service, history, CuratorPosts(groupName, curators), k)
    ensures var run := AddCuratorsRun(service, history, groupName, curators);
      && run.issued == CuratorPosts(groupName, curators)[..k + 1]
      && run.result == Raised(OutcomeAt(service, history, CuratorPosts(groupName, curators), k).message)
  {
    IssueHalts(service, history, CuratorPosts(groupName, curators), k);
  }

  /** Whatever the service does, the i-th request addCurators sends is the
      curators/post for the i-th curator, naming only the group in the path
      and carrying the curator's uuid as its body. */
  lemma AddCuratorsPayload(service: Service, history: seq<Request>, groupName: string, curators: seq<Member>)
    ensures var run := AddCuratorsRun(service, history, groupName, curators);
      && |run.issued| <= |curators|
      && forall i | 0 <= i < |run.issued| ::
           run.issued[i] == Request("curators/post", [groupName], CuratorBody(curators[i].uuid))
  {
    IssueShape(service, history, CuratorPosts(groupName, curators));
  }

  /** Two successful addCurators calls with the same list send 2n requests:
      nothing is cached or de-duplicated across calls. */
  lemma AddCuratorsTwice(service: Service, history: seq<Request>, groupName: string, curators: seq<Member>)
    requires var first := AddCuratorsRun(service, history, groupName, curators);
      && first.result == SUCCESS
      && AddCuratorsRun(service, history + first.issued, groupName, curators).result == SUCCESS
    ensures var first := AddCuratorsRun(service, history, groupName, curators);
      var second := AddCuratorsRun(service, history + first.issued, groupName, curators);
      && first.issued + second.issued == CuratorPosts(groupName, curators) + CuratorPosts(groupName, curators)
      && |first.issued + second.issued| == 2 * |curators|
  {
    var first := AddCuratorsRun(service, history, groupName, curators);
    AddCuratorsSucceeds(service, history, groupName, curators);
    AddCuratorsSucceeds(service, history + first.issued, groupName, curators);
  }

  /** removeCurators returns (always 200) exactly when no request raises, and
      then it has sent, for every curator in list order, a curators/downgrade
      naming the group and that curator, all with the one shared expiration. */
  lemma RemoveCuratorsSucceeds(service: Service, history: seq<Request>, groupName: string,
                               curators: seq<Member>, expiration: int)
    ensures var run := RemoveCuratorsRun(service, history, groupName, curators, expiration);
      && (run.result.Returned? <==> NoneRaises(service, history, CuratorDowngrades(groupName, curators, expiration)))
      && (run.result.Returned? ==>
            && run.result == SUCCESS
            && |run.issued| == |curators|
            && forall i | 0 <= i < |curators| ::
                 run.issued[i] == Request("curators/downgrade", [groupName, curators[i].uuid], ExpirationBody(expiration)))
  {
    var plan := CuratorDowngrades(groupName, curators, expiration);
    IssueRaisesIff(service, history, plan);
    if NoneRaises(service, history, plan) {
      IssueComplete(service, history, plan);
    }
  }

  /** Whatever the service does, the i-th request removeCurators sends is the
      curators/downgrade for the i-th curator, naming the group and that
      curator's uuid, with the batch's one expiration as its body. */
  lemma RemoveCuratorsPayload(service: Service, history: seq<Request>, groupName: string,
                              curators: seq<Member>, expiration: int)
    ensures var run := RemoveCuratorsRun(service, history, groupName, curators, expiration);
      && |run.issued| <= |curators|
      && forall i | 0 <= i < |run.issued| ::
           run.issued[i] == Request("curators/downgrade", [groupName, curators[i].uuid], ExpirationBody(expiration))
  {
    IssueShape(service, history, CuratorDowngrades(groupName, curators, expiration));
  }

  /** If the k-th curators/downgrade is the first to raise, no request is sent
      for a later curator and removeCurators raises that error's message. */
  lemma RemoveCuratorsHalts(service: Service, history: seq<Request>, groupName: string,
                            curators: seq<Member>, expiration: int, k: nat)
    requires FirstRaisesAt(service, history, CuratorDowngrades(groupName, curators, expiration), k)
    ensures var plan := CuratorDowngrades(groupName, curators, expiration);
      var run := RemoveCuratorsRun(service, history, groupName, curators, expiration);
      && run.issued == plan[..k + 1]
      && run.result == Raised(OutcomeAt(service, history, plan, k).message)
  {
    IssueHalts(service, history, CuratorDowngrades(groupName, curators, expiration), k);
  }

  /** Whatever the service does, the i-th request sendInvitations sends is the
      groupInvitations/post for the i-th member: the group in the path, and a
      body with the member's uuid, the fixed invitation expiration 5 and the
      caller's group expiration. */
  lemma SendInvitationsPayload(service: Service, history: seq<Request>, groupName: string,
                               members: seq<Member>, expiration: int)
    ensures var run := SendInvitationsRun(service, history, groupName, members, expiration);
      && |run.issued| <= |members|
      && forall i | 0 <= i < |run.issued| ::
           run.issued[i] == Request("groupInvitations/post", [groupName], InvitationBody(members[i].uuid, 5, expiration))
  {
    IssueShape(service, history, InvitationPosts(groupName, members, expiration));
  }

  /** When no request raises, sendInvitations invites every member, in list
      order, collecting one result per member even when some are not 200; it
      returns 200 exactly when all are 200 and otherwise raises the fixed
      aggregate message. */
  lemma SendInvitationsComplete(service: Service, history: seq<Request>, groupName: string,
                                members: seq<Member>, expiration: int)
    requires NoneRaises(service, history, InvitationPosts(groupName, members, expiration))
    ensures var plan := InvitationPosts(groupName, members, expiration);
      var results := Issue(service, history, plan).values;
      var run := SendInvitationsRun(service, history, groupName, members, expiration);
      && run.issued == plan
      && |results| == |members|
      && (forall i | 0 <= i < |members| :: Returned(results[i]) == OutcomeAt(service, history, plan, i))
      && (run.result == SUCCESS <==> forall i | 0 <= i < |members| :: results[i] == Status(200))
      && (run.result != SUCCESS ==> run.result == Raised(SEND_INVITATION_ERRORS))
  {
    IssueComplete(service, history, InvitationPosts(groupName, members, expiration));
  }

  /** sendInvitations returns 200 exactly when every invitation request returns
      200; any other result is a raised error. */
  lemma SendInvitationsSucceeds(service: Service, history: seq<Request>, groupName: string,
                                members: seq<Member>, expiration: int)
    ensures var plan := InvitationPosts(groupName, members, expiration);
      var run := SendInvitationsRun(service, history, groupName, members, expiration);
      && (run.result == SUCCESS <==>
            forall i | 0 <= i < |members| :: OutcomeAt(service, history, plan, i) == Returned(Status(200)))
      && (run.result == SUCCESS || run.result.Raised?)
  {
    var plan := InvitationPosts(groupName, members, expiration);
    IssueRaisesIff(service, history, plan);
    if NoneRaises(service, history, plan) {
      IssueComplete(service, history, plan);
    }
  }

  /** A raised error is not collected: if the k-th invitation request is the
      first to raise, no later member is invited and sendInvitations raises
      that error's own message, not the aggregate one. */
  lemma SendInvitationsHalts(service: Service, history: seq<Request>, groupName: string,
                             members: seq<Member>, expiration: int, k: nat)
    requires FirstRaisesAt(service, history, InvitationPosts(groupName, members, expiration), k)
    ensures var plan := InvitationPosts(groupName, members, expiration);
      var run := SendInvitationsRun(service, history, groupName, members, expiration);
      && run.issued == plan[..k + 1]
      && run.result == Raised(OutcomeAt(service, history, plan, k).message)
  {
    IssueHalts(service, history, InvitationPosts(groupName, members, expiration), k);
  }
}
