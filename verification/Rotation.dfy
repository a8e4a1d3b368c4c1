/**
 Ringing a team's agents one at a time (internal/calling/transfer.go, runTransferRotation).

 What the loop reads from outside in its k-th turn (deadline, transfer status, user rows,
 presence, the wait's result) is `world(k)`; all results are for every world.
 */
module Rotation {
  import opened Wrappers
  import opened Assignment

  datatype Wait = AgentTimeout | Accepted | DeadlineHit

  datatype Turn = Turn(
    expired: bool,            // totalCtx.Err() != nil at the top of the loop
    waiting: bool,            // TransferStatus is still "waiting"
    users: seq<User>,
    loads: map<Agent, nat>,
    now: int,
    faults: Faults,
    online: set<Agent>,
    wait: Wait)

  /** What ends the wait after the broadcast: an agent, the deadline, or a cancellation. */
  datatype LastWait = AnsweredLate | Expired | Cancelled

  datatype Ending = LeftWaiting | TakenByAgent | NobodyLeft | Broadcast(to: seq<Agent>)

  predicate Distinct(s: seq<Agent>) { forall i, j :: 0 <= i < j < |s| ==> s[i] != s[j] }

  function AsSet(s: seq<Agent>): set<Agent> { set a | a in s }

  /** What the loop keeps: the agents tried are distinct members, so those left to try are that many fewer. */
  ghost predicate Progress(members: seq<Agent>, tried: seq<Agent>, ringing: seq<Agent>) {
    && Distinct(tried)
    && AsSet(ringing) <= AsSet(tried) <= AsSet(members)
    && |tried| + |AsSet(members) - AsSet(tried)| == |AsSet(members)|
  }

  lemma Advance(members: seq<Agent>, tried: seq<Agent>, ringing: seq<Agent>, a: Agent, rings: bool)
    requires Progress(members, tried, ringing) && a in members && a !in tried
    ensures Progress(members, tried + [a], if rings then ringing + [a] else ringing)
    ensures |AsSet(members) - AsSet(tried + [a])| == |AsSet(members) - AsSet(tried)| - 1
  {
    assert AsSet(tried + [a]) == AsSet(tried) + {a};
    assert AsSet(ringing + [a]) == AsSet(ringing) + {a};
    assert AsSet(members) - AsSet(tried + [a]) == (AsSet(members) - AsSet(tried)) - {a};
  }

  lemma NothingTried(members: seq<Agent>)
    ensures Progress(members, [], [])
  {
    assert AsSet(members) - AsSet([]) == AsSet(members);
  }

  // ----- The story of a rotation -----

  predicate TakesTurns(team: Option<Team>) {
    team.Some? && team.value.strategy != LoadBalanced && team.value.strategy != Manual
  }

  /** When each agent was last assigned, after the agents in `tried` had their turns. */
  function Stamps(team: Option<Team>, rows: LastAssigned, world: nat -> Turn, tried: seq<Agent>): LastAssigned {
    if tried == [] then rows
    else
      var k := |tried| - 1;
      var before := Stamps(team, rows, world, tried[..k]);
      if TakesTurns(team) && !world(k).faults.stamp then before[tried[k] := Some(world(k).now)] else before
  }

  /** The team's strategy picks `a` in this turn among those not tried before. */
  ghost predicate ChosenBy(team: Option<Team>, last: LastAssigned, tried: seq<Agent>, turn: Turn, a: Agent) {
    && Eligible(MembersOf(team), tried, turn.users, a)
    && match team.value.strategy
       case Manual => false
       case LoadBalanced =>
         forall b :: Eligible(MembersOf(team), tried, turn.users, b) ==> LoadOf(turn.loads, a) <= LoadOf(turn.loads, b)
       case _ => !turn.faults.membersQuery && Picks(last, EligibleSet(MembersOf(team), tried, turn.users), a)
  }

  /** In this turn the strategy has nobody. */
  ghost predicate Nobody(team: Option<Team>, last: LastAssigned, tried: seq<Agent>, turn: Turn) {
    || team.None?
    || match team.value.strategy
       case Manual => true
       case LoadBalanced => forall a :: !Eligible(MembersOf(team), tried, turn.users, a)
       case _ => turn.faults.membersQuery || EligibleSet(MembersOf(team), tried, turn.users) !! last.Keys
  }

  /** The agent was offline or let its time run out, so the rotation goes on. */
  predicate Passed(world: nat -> Turn, tried: seq<Agent>, k: nat)
    requires k < |tried|
  {
    tried[k] !in world(k).online || world(k).wait == AgentTimeout
  }

  /** Turn by turn: before the deadline, still waiting, the strategy's choice; and every agent but the newest has passed. */
  ghost predicate Story(team: Option<Team>, rows: LastAssigned, world: nat -> Turn, tried: seq<Agent>) {
    || tried == []
    || (var k := |tried| - 1;
        && Story(team, rows, world, tried[..k])
        && (k > 0 ==> Passed(world, tried[..k], k - 1))
        && !world(k).expired && world(k).waiting
        && team.Some? && ChosenBy(team, Stamps(team, rows, world, tried[..k]), tried[..k], world(k), tried[k]))
  }

  /** Those of the agents tried that were online in their turn. */
  function Rung(world: nat -> Turn, tried: seq<Agent>): seq<Agent> {
    if tried == [] then []
    else
      var k := |tried| - 1;
      Rung(world, tried[..k]) + if tried[k] in world(k).online then [tried[k]] else []
  }

  /** Why the loop ended. */
  datatype Stop = DeadlinePassed | NoLongerWaiting | NobodyToAssign | AgentAccepted | DeadlineWhileRinging

  ghost predicate StoppedRightly(team: Option<Team>, rows: LastAssigned, world: nat -> Turn, tried: seq<Agent>, stop: Stop) {
    var n := |tried|;
    match stop
    case DeadlinePassed => (n > 0 ==> Passed(world, tried, n - 1)) && world(n).expired
    case NoLongerWaiting => (n > 0 ==> Passed(world, tried, n - 1)) && !world(n).expired && !world(n).waiting
    case NobodyToAssign =>
      && (n > 0 ==> Passed(world, tried, n - 1)) && !world(n).expired && world(n).waiting
      && Nobody(team, Stamps(team, rows, world, tried), tried, world(n))
    case AgentAccepted => n > 0 && tried[n - 1] in world(n - 1).online && world(n - 1).wait == Accepted
    case DeadlineWhileRinging => n > 0 && tried[n - 1] in world(n - 1).online && world(n - 1).wait == DeadlineHit
  }

  ghost predicate Rotated(team: Option<Team>, rows: LastAssigned, world: nat -> Turn, tried: seq<Agent>, ringing: seq<Agent>, stop: Stop) {
    Story(team, rows, world, tried) && ringing == Rung(world, tried) && StoppedRightly(team, rows, world, tried, stop)
  }

  lemma OneMoreTurn(team: Option<Team>, rows: LastAssigned, world: nat -> Turn, tried: seq<Agent>, a: Agent)
    ensures var k := |tried|;
            && Rung(world, tried + [a]) == Rung(world, tried) + (if a in world(k).online then [a] else [])
            && Stamps(team, rows, world, tried + [a])
               == (if TakesTurns(team) && !world(k).faults.stamp then Stamps(team, rows, world, tried)[a := Some(world(k).now)]
                   else Stamps(team, rows, world, tried))
            && (Story(team, rows, world, tried + [a]) <==>
                (&& Story(team, rows, world, tried) && (k > 0 ==> Passed(world, tried, k - 1))
                 && !world(k).expired && world(k).waiting
                 && team.Some? && ChosenBy(team, Stamps(team, rows, world, tried), tried, world(k), a)))
  {
    hide ChosenBy;
    assert (tried + [a])[..|tried|] == tried;
  }

  lemma PassedStays(world: nat -> Turn, tried: seq<Agent>, a: Agent)
    ensures Passed(world, tried + [a], |tried|) <==> a !in world(|tried|).online || world(|tried|).wait == AgentTimeout
  {
  }

  /** The loop at transfer.go:864-957. `turns` counts its iterations. */
  method TryAgents(assigner: Assigner, team: Option<Team>, world: nat -> Turn)
    returns (tried: seq<Agent>, ringing: seq<Agent>, turns: nat, stop: Stop)
    modifies assigner
    ensures Progress(MembersOf(team), tried, ringing)
    ensures Rotated(team, old(assigner.last), world, tried, ringing, stop)
    ensures assigner.last == Stamps(team, old(assigner.last), world, tried)
    ensures turns == |tried| + if stop == NoLongerWaiting || stop == NobodyToAssign then 1 else 0
  {
    hide Progress, Story, Stamps, Rung, ChosenBy, Nobody, Passed, AsSet;
    tried, ringing, turns := [], [], 0;
    ghost var rows := assigner.last;
    NothingTried(MembersOf(team));
    NoStoryYet(team, rows, world);
    while !world(turns).expired
      invariant Progress(MembersOf(team), tried, ringing)
      invariant turns == |tried|
      invariant Story(team, rows, world, tried) && ringing == Rung(world, tried)
      invariant assigner.last == Stamps(team, rows, world, tried)
      invariant |tried| > 0 ==> Passed(world, tried, |tried| - 1)
      decreases |AsSet(MembersOf(team)) - AsSet(tried)|
    {
      var turn := world(turns);
      turns := turns + 1;
      if !turn.waiting {
        stop := NoLongerWaiting;
        return;
      }
      var agent := Assign(assigner, team, tried, turn);
      if agent.None? {
        stop := NobodyToAssign;
        return;
      }
      EligibleAgain(team, Stamps(team, rows, world, tried), tried, turn, agent.value);
      Advance(MembersOf(team), tried, ringing, agent.value, agent.value in turn.online);
      OneMoreTurn(team, rows, world, tried, agent.value);
      PassedStays(world, tried, agent.value);
      tried := tried + [agent.value];
      if agent.value !in turn.online {
        continue;
      }
      ringing := ringing + [agent.value];
      match turn.wait
      case AgentTimeout =>
      case Accepted =>
        stop := AgentAccepted;
        return;
      case DeadlineHit =>
        stop := DeadlineWhileRinging;
        return;
    }
    stop := DeadlinePassed;
  }

  lemma NoStoryYet(team: Option<Team>, rows: LastAssigned, world: nat -> Turn)
    ensures Story(team, rows, world, []) && Rung(world, []) == [] && Stamps(team, rows, world, []) == rows
  {
  }

  lemma EligibleAgain(team: Option<Team>, last: LastAssigned, tried: seq<Agent>, turn: Turn, a: Agent)
    requires team.Some? && ChosenBy(team, last, tried, turn, a)
    ensures a in MembersOf(team) && a !in tried
  {
  }

  /** AssignToTeam with what this turn sees. */
  method Assign(assigner: Assigner, team: Option<Team>, tried: seq<Agent>, turn: Turn) returns (agent: Option<Agent>)
    modifies assigner
    ensures agent.None? ==> Nobody(team, old(assigner.last), tried, turn) && assigner.last == old(assigner.last)
    ensures agent.Some? ==> team.Some? && ChosenBy(team, old(assigner.last), tried, turn, agent.value)
    ensures agent.Some? ==>
              assigner.last == if TakesTurns(team) && !turn.faults.stamp then old(assigner.last)[agent.value := Some(turn.now)]
                               else old(assigner.last)
  {
    hide Eligible;
    agent := assigner.AssignToTeam(team, tried, turn.users, turn.loads, turn.now, turn.faults);
  }

  // ----- Everybody gets a turn -----

  lemma {:induction false} StampsKeys(team: Option<Team>, rows: LastAssigned, world: nat -> Turn, tried: seq<Agent>)
    requires Story(team, rows, world, tried)
    ensures Stamps(team, rows, world, tried).Keys == rows.Keys
  {
    if tried != [] {
      hide Eligible, EligibleSet;
      StampsKeys(team, rows, world, tried[..|tried| - 1]);
    }
  }

  lemma {:induction false} RungIff(world: nat -> Turn, tried: seq<Agent>, k: nat)
    requires k < |tried| && tried[k] in world(k).online
    ensures tried[k] in Rung(world, tried)
  {
    if k < |tried| - 1 { RungIff(world, tried[..|tried| - 1], k); }
  }

  /** Every agent of the story was the strategy's choice in its turn, and all but the last passed. */
  lemma {:induction false} TurnOf(team: Option<Team>, rows: LastAssigned, world: nat -> Turn, tried: seq<Agent>, k: nat)
    requires Story(team, rows, world, tried) && k < |tried|
    ensures !world(k).expired && world(k).waiting && team.Some?
    ensures ChosenBy(team, Stamps(team, rows, world, tried[..k]), tried[..k], world(k), tried[k])
    ensures k + 1 < |tried| ==> Passed(world, tried, k)
    decreases |tried|
  {
    hide ChosenBy, Stamps;
    var n := |tried| - 1;
    if k < n {
      TurnOf(team, rows, world, tried[..n], k);
      assert tried[..n][..k] == tried[..k] && tried[..n][k] == tried[k];
    }
  }

  lemma NobodyMeans(team: Option<Team>, last: LastAssigned, tried: seq<Agent>, turn: Turn, a: Agent)
    requires Nobody(team, last, tried, turn) && team.Some? && team.value.strategy != Manual && !turn.faults.membersQuery
    requires a in MembersOf(team) && a in last && Usable(turn.users, a)
    ensures a in tried
  {
    hide Usable;
    assert a !in tried ==> Eligible(MembersOf(team), tried, turn.users, a) && a in EligibleSet(MembersOf(team), tried, turn.users);
  }

  /**
   With no deadline, nobody accepting and the transfer always waiting, every member that stays
   available and online (and, in turns, has a row) is rung before the rotation gives up.
   */
  lemma EveryoneRings(team: Option<Team>, rows: LastAssigned, world: nat -> Turn, tried: seq<Agent>, ringing: seq<Agent>, stop: Stop, there: set<Agent>)
    requires Rotated(team, rows, world, tried, ringing, stop)
    requires team.Some? && team.value.strategy != Manual
    requires forall k :: !world(k).expired && world(k).waiting && world(k).wait == AgentTimeout && !world(k).faults.membersQuery
    requires forall k, a :: a in there ==> a in world(k).online && Usable(world(k).users, a)
    requires forall a :: a in there ==> a in MembersOf(team) && a in rows
    ensures stop == NobodyToAssign
    ensures forall a :: a in there ==> a in ringing
  {
    hide Usable, Story, Rung;
    var n := |tried|;
    assert stop == NobodyToAssign;
    StampsKeys(team, rows, world, tried);
    forall a | a in there ensures a in ringing {
      assert a in world(n).online && Usable(world(n).users, a);
      NobodyMeans(team, Stamps(team, rows, world, tried), tried, world(n), a);
      var k :| 0 <= k < n && tried[k] == a;
      assert a in world(k).online;
      RungIff(world, tried, k);
    }
  }

  /** The users with a live connection, in order. */
  method FilterOnline(agents: seq<Agent>, connected: set<Agent>) returns (online: seq<Agent>)
    ensures forall a :: a in online <==> a in agents && a in connected
  {
    online := [];
    for i := 0 to |agents|
      invariant forall a :: a in online <==> a in agents[..i] && a in connected
    {
      if agents[i] in connected {
        online := online + [agents[i]];
      }
    }
    assert agents[..|agents|] == agents;
  }

  /**
   runTransferRotation: no agent is rung twice, the loop ends within team size plus one turns
   even if the deadline never comes, and the fallback broadcast reaches only members that were
   not tried, are available and are online. No-answer is called exactly when nobody is left to
   tell or the deadline passes after the broadcast.
   */
  method Rotate(assigner: Assigner, team: Option<Team>, world: nat -> Turn, final: Turn, lastWait: LastWait)
    returns (tried: seq<Agent>, ringing: seq<Agent>, turns: nat, ending: Ending, noAnswer: bool)
    modifies assigner
    ensures Distinct(tried) && AsSet(ringing) <= AsSet(tried) <= AsSet(MembersOf(team))
    ensures turns <= |AsSet(MembersOf(team))| + 1
    ensures ending.Broadcast? ==>
              && ending.to != []
              && forall a :: a in ending.to <==> Eligible(MembersOf(team), tried, final.users, a) && a in final.online
    ensures ending.Broadcast? ==> forall a :: a in ending.to ==> a !in tried && a !in ringing
    ensures ending.Broadcast? || ending == NobodyLeft ==>
              forall a :: Eligible(MembersOf(team), [], final.users, a) && a in final.online ==>
                a in tried || (ending.Broadcast? && a in ending.to)
    ensures noAnswer <==> ending == NobodyLeft || (ending.Broadcast? && lastWait == Expired)
    ensures exists stop ::
              && Rotated(team, old(assigner.last), world, tried, ringing, stop)
              && (ending == TakenByAgent <==> stop == AgentAccepted)
              && (ending == LeftWaiting <==> stop == NoLongerWaiting || (stop != AgentAccepted && !final.waiting))
    ensures ending == NobodyLeft ==>
              (final.waiting && forall a :: Eligible(MembersOf(team), tried, final.users, a) ==> a !in final.online)
  {
    hide Rotated;
    var stop;
    tried, ringing, turns, stop := TryAgents(assigner, team, world);
    assert forall a :: a in ringing ==> a in AsSet(ringing);
    if stop == NoLongerWaiting {
      return tried, ringing, turns, LeftWaiting, false;
    }
    if stop == AgentAccepted {
      return tried, ringing, turns, TakenByAgent, false;
    }
    if !final.waiting {
      return tried, ringing, turns, LeftWaiting, false;
    }
    var remaining := FilterAvailable(MembersOf(team), tried, final.users);
    var online := FilterOnline(remaining, final.online);
    if |online| == 0 {
      ending, noAnswer := NobodyLeft, true;
      assert forall a :: a !in online;
    } else {
      ending, noAnswer := Broadcast(online), lastWait == Expired;
    }
  }
}
