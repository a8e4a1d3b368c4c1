/**
 Team-based agent assignment (internal/assignment/assigner.go).

 Round robin picks the available member whose last assignment is oldest (never assigned
 counts as oldest; ties are broken arbitrarily, as an SQL ORDER BY does). The bounded-wait
 theorem is about all runs of it, with availability changing from one assignment to the next.
 */
module Assignment {
  import opened Wrappers

  type Agent = nat

  /** A row of the users table. */
  datatype User = User(id: Agent, isAvailable: bool, isActive: bool)

  datatype Strategy = RoundRobin | LoadBalanced | Manual | OtherStrategy

  /** Whether the team_members query fails, and whether the new stamp fails to be written. */
  datatype Faults = Faults(membersQuery: bool, stamp: bool)

  datatype Team = Team(strategy: Strategy, members: seq<Agent>)

  /** team_members rows: when each agent was last assigned, if ever. */
  type LastAssigned = map<Agent, Option<int>>

  // ----- Reference -----

  predicate Usable(users: seq<User>, a: Agent) {
    exists k :: 0 <= k < |users| && users[k].id == a && users[k].isAvailable && users[k].isActive
  }

  /** Who may be assigned: members, not excluded, available and active. */
  predicate Eligible(members: seq<Agent>, exclude: seq<Agent>, users: seq<User>, a: Agent) {
    a in members && a !in exclude && Usable(users, a)
  }

  function EligibleSet(members: seq<Agent>, exclude: seq<Agent>, users: seq<User>): set<Agent> {
    set a | a in members && Eligible(members, exclude, users, a)
  }

  /** ORDER BY last_assigned_at ASC NULLS FIRST */
  predicate NotLater(x: Option<int>, y: Option<int>) {
    x.None? || (y.Some? && x.value <= y.value)
  }

  predicate Picks(last: LastAssigned, pool: set<Agent>, a: Agent) {
    a in pool && a in last && forall b :: b in pool && b in last ==> NotLater(last[a], last[b])
  }

  // ----- The code -----

  /** filterAvailable, lines 129-141: members that are not excluded */
  method Candidates(members: seq<Agent>, exclude: seq<Agent>) returns (r: seq<Agent>)
    ensures forall a :: a in r <==> a in members && a !in exclude
  {
    var excludeSet: set<Agent> := {};
    for i := 0 to |exclude|
      invariant excludeSet == set a | a in exclude[..i]
    {
      excludeSet := excludeSet + {exclude[i]};
    }
    r := [];
    for i := 0 to |members|
      invariant forall a :: a in r <==> a in members[..i] && a !in exclude
    {
      if members[i] !in excludeSet {
        r := r + [members[i]];
      }
    }
  }

  /** filterAvailable; `users` is what the query sees, in its order, and nothing when it fails. */
  method FilterAvailable(members: seq<Agent>, exclude: seq<Agent>, users: seq<User>) returns (r: seq<Agent>)
    ensures forall a :: a in r <==> Eligible(members, exclude, users, a)
  {
    r := [];
    var candidates := Candidates(members, exclude);
    for i := 0 to |users|
      invariant forall a :: a in r <==> a in members && a !in exclude && Usable(users[..i], a)
    {
      var u := users[i];
      UsableSnoc(users, i);
      if u.id in candidates && u.isAvailable && u.isActive {
        r := r + [u.id];
      }
    }
    assert users[..|users|] == users;
  }

  lemma UsableSnoc(users: seq<User>, i: nat)
    requires i < |users|
    ensures forall a :: Usable(users[..i + 1], a) <==>
              Usable(users[..i], a) || (users[i].id == a && users[i].isAvailable && users[i].isActive)
  {
    forall a
      ensures Usable(users[..i + 1], a) <==>
                Usable(users[..i], a) || (users[i].id == a && users[i].isAvailable && users[i].isActive)
    {
      var before, after := users[..i], users[..i + 1];
      if Usable(before, a) {
        var k :| 0 <= k < |before| && before[k].id == a && before[k].isAvailable && before[k].isActive;
        assert after[k] == before[k];
      }
      if Usable(after, a) {
        var k :| 0 <= k < |after| && after[k].id == a && after[k].isAvailable && after[k].isActive;
        assert k < i ==> before[k] == after[k];
      }
      assert after[i] == users[i];
    }
  }

  lemma {:induction false} OldestExists(last: LastAssigned, pool: set<Agent>)
    requires exists a :: a in pool && a in last
    ensures exists a :: Picks(last, pool, a)
    decreases pool
  {
    var a :| a in pool && a in last;
    var rest := pool - {a};
    if b :| b in rest && b in last {
      OldestExists(last, rest);
      var c :| Picks(last, rest, c);
      if NotLater(last[c], last[a]) { assert Picks(last, pool, c); } else { assert Picks(last, pool, a); }
    } else {
      assert Picks(last, pool, a);
    }
  }

  class Assigner {
    var last: LastAssigned

    constructor (last: LastAssigned)
      ensures this.last == last
    {
      this.last := last;
    }

    /** assignRoundRobin: the oldest eligible member with a row, stamped with the current time. */
    method AssignRoundRobin(members: seq<Agent>, exclude: seq<Agent>, users: seq<User>, now: int, faults: Faults)
      returns (r: Option<Agent>)
      modifies this
      ensures r.None? <==> faults.membersQuery || EligibleSet(members, exclude, users) !! old(last).Keys
      ensures r.Some? ==> Picks(old(last), EligibleSet(members, exclude, users), r.value)
      ensures last == if r.None? || faults.stamp then old(last) else old(last)[r.value := Some(now)]
    {
      var available := FilterAvailable(members, exclude, users);
      var pool := set a | a in available;
      assert pool == EligibleSet(members, exclude, users);
      if !faults.membersQuery && exists a :: a in pool && a in last {
        OldestExists(last, pool);
        var selected: Agent :| selected in pool && Picks(last, pool, selected);
        if !faults.stamp {
          last := last[selected := Some(now)];
        }
        return Some(selected);
      }
      return None;
    }

    /** AssignToTeam; `team` is None when there is no configuration for it. */
    method AssignToTeam(team: Option<Team>, exclude: seq<Agent>, users: seq<User>, loads: map<Agent, nat>, now: int, faults: Faults)
      returns (r: Option<Agent>)
      modifies this
      ensures r.Some? ==> Eligible(MembersOf(team), exclude, users, r.value)
      ensures team.None? || team.value.strategy == Manual ==> r.None? && last == old(last)
      ensures team.Some? && team.value.strategy == LoadBalanced ==>
                && last == old(last)
                && (r.None? ==> forall a :: !Eligible(MembersOf(team), exclude, users, a))
                && (r.Some? ==> forall b :: Eligible(MembersOf(team), exclude, users, b) ==> LoadOf(loads, r.value) <= LoadOf(loads, b))
      ensures team.Some? && team.value.strategy != Manual && team.value.strategy != LoadBalanced ==>
                var pool := EligibleSet(MembersOf(team), exclude, users);
                && (r.None? <==> faults.membersQuery || pool !! old(last).Keys)
                && (r.Some? ==> Picks(old(last), pool, r.value))
                && last == if r.None? || faults.stamp then old(last) else old(last)[r.value := Some(now)]
    {
      if team.None? {
        return None;
      }
      match team.value.strategy
      case LoadBalanced => r := AssignLoadBalanced(team.value.members, exclude, users, loads);
      case Manual => r := None;
      case _ => r := AssignRoundRobin(team.value.members, exclude, users, now, faults);
    }
  }

  function MembersOf(team: Option<Team>): seq<Agent> { if team.Some? then team.value.members else [] }

  /** A missing count is zero. */
  function LoadOf(loads: map<Agent, nat>, a: Agent): nat { if a in loads then loads[a] else 0 }

  /** assignLoadBalanced: the first agent in query order with the fewest active items. */
  method AssignLoadBalanced(members: seq<Agent>, exclude: seq<Agent>, users: seq<User>, loads: map<Agent, nat>)
    returns (r: Option<Agent>)
    ensures r.None? <==> forall a :: !Eligible(members, exclude, users, a)
    ensures r.Some? ==>
              && Eligible(members, exclude, users, r.value)
              && (forall b :: Eligible(members, exclude, users, b) ==> LoadOf(loads, r.value) <= LoadOf(loads, b))
              && ((exists b :: Eligible(members, exclude, users, b) && b !in loads) ==> r.value !in loads || loads[r.value] == 0)
  {
    var available := FilterAvailable(members, exclude, users);
    r := None;
    var lowest := -1;
    for i := 0 to |available|
      invariant i == 0 <==> r.None?
      invariant r.None? <==> lowest < 0
      invariant r.Some? ==> r.value in available[..i] && lowest == LoadOf(loads, r.value)
      invariant forall j :: 0 <= j < i ==> lowest <= LoadOf(loads, available[j])
    {
      var count := LoadOf(loads, available[i]);
      if lowest < 0 || count < lowest {
        lowest := count;
        r := Some(available[i]);
      }
    }
    if r.None? { assert forall a :: a !in available; } else { assert r.value in available; }
  }

  // ----- Bounded wait -----

  /** One assignment: who was available, at what time, and who was chosen. */
  datatype Round = Round(pool: set<Agent>, now: int, chosen: Agent)

  function After(last: LastAssigned, rounds: seq<Round>): LastAssigned {
    if rounds == [] then last
    else
      var r := rounds[|rounds| - 1];
      After(last, rounds[..|rounds| - 1])[r.chosen := Some(r.now)]
  }

  /** Time `t` is later than everything recorded. */
  ghost predicate LaterThanAll(last: LastAssigned, t: int) {
    forall b :: b in last && last[b].Some? ==> last[b].value < t
  }

  /** A run of round robin from `last` under a strictly increasing clock. */
  ghost predicate IsRun(last: LastAssigned, rounds: seq<Round>) {
    forall i :: 0 <= i < |rounds| ==>
      && Picks(After(last, rounds[..i]), rounds[i].pool, rounds[i].chosen)
      && LaterThanAll(After(last, rounds[..i]), rounds[i].now)
  }

  predicate Chosen(rounds: seq<Round>, a: Agent) { exists i :: 0 <= i < |rounds| && rounds[i].chosen == a }

  /** The other agents of `everyone` that are served no later than `a`. */
  function Ahead(last: LastAssigned, everyone: set<Agent>, a: Agent): set<Agent>
    requires a in last
  {
    set b | b in everyone && b in last && b != a && NotLater(last[b], last[a])
  }

  function ChosenSet(rounds: seq<Round>): set<Agent> {
    if rounds == [] then {} else ChosenSet(rounds[..|rounds| - 1]) + {rounds[|rounds| - 1].chosen}
  }

  lemma {:induction false} ChosenSetIff(rounds: seq<Round>, a: Agent)
    ensures a in ChosenSet(rounds) <==> Chosen(rounds, a)
  {
    if rounds != [] {
      var n := |rounds| - 1;
      ChosenSetIff(rounds[..n], a);
      if Chosen(rounds[..n], a) {
        var i :| 0 <= i < n && rounds[..n][i].chosen == a;
        assert rounds[i].chosen == a;
      }
      if i :| 0 <= i < |rounds| && rounds[i].chosen == a {
        assert i < n ==> rounds[..n][i].chosen == a;
      }
    }
  }

  lemma RunPrefix(last: LastAssigned, rounds: seq<Round>, n: nat)
    requires IsRun(last, rounds) && n <= |rounds|
    ensures IsRun(last, rounds[..n])
  {
    forall i | 0 <= i < n
      ensures Picks(After(last, rounds[..n][..i]), rounds[..n][i].pool, rounds[..n][i].chosen)
      ensures LaterThanAll(After(last, rounds[..n][..i]), rounds[..n][i].now)
    {
      assert rounds[..n][..i] == rounds[..i];
    }
  }

  lemma ChosenPrefix(rounds: seq<Round>, n: nat, a: Agent)
    requires n <= |rounds|
    ensures Chosen(rounds[..n], a) ==> Chosen(rounds, a)
  {
    if Chosen(rounds[..n], a) {
      var i :| 0 <= i < n && rounds[..n][i].chosen == a;
      assert rounds[i].chosen == a;
    }
  }

  /** `served` were ahead of `a` at first and are behind it now; nobody else moved. */
  ghost predicate Overtaken(last: LastAssigned, now: LastAssigned, served: set<Agent>, everyone: set<Agent>, a: Agent)
    requires a in last
  {
    && now.Keys == last.Keys
    && (forall b :: b in last && b !in served ==> now[b] == last[b])
    && (forall b :: b in served ==> b in last && !NotLater(now[b], last[a]))
    && served <= Ahead(last, everyone, a)
  }

  lemma OvertakenStep(last: LastAssigned, now: LastAssigned, served: set<Agent>, everyone: set<Agent>, a: Agent, r: Round)
    requires a in last && Overtaken(last, now, served, everyone, a)
    requires Picks(now, r.pool, r.chosen) && LaterThanAll(now, r.now)
    requires a in r.pool && r.pool <= everyone && r.chosen != a
    ensures r.chosen !in served
    ensures Overtaken(last, now[r.chosen := Some(r.now)], served + {r.chosen}, everyone, a)
  {
    assert now[a] == last[a];
    assert NotLater(now[r.chosen], now[a]);
  }

  /**
   While `a` is passed over, every agent chosen was ahead of `a` to begin with, is now behind
   it, and is therefore never chosen again.
   */
  lemma {:induction false} PassedOver(last: LastAssigned, rounds: seq<Round>, everyone: set<Agent>, a: Agent)
    requires IsRun(last, rounds) && a in last && !Chosen(rounds, a)
    requires forall i :: 0 <= i < |rounds| ==> a in rounds[i].pool && rounds[i].pool <= everyone
    ensures Overtaken(last, After(last, rounds), ChosenSet(rounds), everyone, a)
    ensures |ChosenSet(rounds)| == |rounds|
  {
    if rounds != [] {
      hide Overtaken;
      var n := |rounds| - 1;
      var before, r := rounds[..n], rounds[n];
      RunPrefix(last, rounds, n);
      ChosenPrefix(rounds, n, a);
      assert forall i :: 0 <= i < n ==> before[i] == rounds[i];
      PassedOver(last, before, everyone, a);
      assert rounds[n].chosen != a;
      OvertakenStep(last, After(last, before), ChosenSet(before), everyone, a, r);
    }
  }

  /**
   Bounded wait. An agent that stays available is chosen after at most as many assignments as
   there are agents ahead of it, hence within as many assignments as there are members.
   */
  lemma BoundedWait(last: LastAssigned, rounds: seq<Round>, everyone: set<Agent>, a: Agent)
    requires IsRun(last, rounds) && a in last && a in everyone
    requires forall i :: 0 <= i < |rounds| ==> a in rounds[i].pool && rounds[i].pool <= everyone
    ensures |rounds| > |Ahead(last, everyone, a)| ==> Chosen(rounds, a)
    ensures |rounds| >= |everyone| ==> Chosen(rounds, a)
  {
    assert Ahead(last, everyone, a) < everyone;
    Smaller(Ahead(last, everyone, a), everyone);
    if !Chosen(rounds, a) {
      PassedOver(last, rounds, everyone, a);
      NotLarger(ChosenSet(rounds), Ahead(last, everyone, a));
    }
  }

  lemma {:induction false} NotLarger(x: set<Agent>, y: set<Agent>)
    requires x <= y
    ensures |x| <= |y|
  {
    if x != {} {
      var e :| e in x;
      NotLarger(x - {e}, y - {e});
    }
  }

  lemma Smaller(x: set<Agent>, y: set<Agent>)
    requires x < y
    ensures |x| < |y|
  {
    var e :| e in y && e !in x;
    NotLarger(x, y - {e});
  }

  lemma {:induction false} AfterSuffix(last: LastAssigned, rounds: seq<Round>, k: nat)
    requires k <= |rounds|
    ensures After(After(last, rounds[..k]), rounds[k..]) == After(last, rounds)
    decreases |rounds|
  {
    if k == |rounds| {
      assert rounds[..k] == rounds;
    } else {
      var n := |rounds| - 1;
      AfterSuffix(last, rounds[..n], k);
      assert rounds[..n][..k] == rounds[..k] && rounds[..n][k..] == rounds[k..][..n - k];
    }
  }

  lemma RunSuffix(last: LastAssigned, rounds: seq<Round>, k: nat)
    requires IsRun(last, rounds) && k <= |rounds|
    ensures IsRun(After(last, rounds[..k]), rounds[k..])
  {
    hide Picks, LaterThanAll;
    var start, rest := After(last, rounds[..k]), rounds[k..];
    forall i | 0 <= i < |rest|
      ensures Picks(After(start, rest[..i]), rest[i].pool, rest[i].chosen)
      ensures LaterThanAll(After(start, rest[..i]), rest[i].now)
    {
      AfterSuffix(last, rounds[..k + i], k);
      assert rounds[..k + i][..k] == rounds[..k] && rounds[..k + i][k..] == rest[..i];
      assert rest[i] == rounds[k + i];
    }
  }

  lemma {:induction false} AfterKeys(last: LastAssigned, rounds: seq<Round>)
    requires IsRun(last, rounds)
    ensures After(last, rounds).Keys == last.Keys
  {
    if rounds != [] {
      var n := |rounds| - 1;
      RunPrefix(last, rounds, n);
      AfterKeys(last, rounds[..n]);
    }
  }

  lemma {:induction false} ChosenSetSize(rounds: seq<Round>)
    ensures |ChosenSet(rounds)| <= |rounds|
    ensures |ChosenSet(rounds)| == |rounds| ==>
              forall i, j :: 0 <= i < j < |rounds| ==> rounds[i].chosen != rounds[j].chosen
  {
    if rounds != [] {
      var n := |rounds| - 1;
      var before := rounds[..n];
      ChosenSetSize(before);
      if |ChosenSet(rounds)| == |rounds| {
        forall i, j | 0 <= i < j < |rounds| ensures rounds[i].chosen != rounds[j].chosen {
          assert before[i] == rounds[i];
          if j == n {
            ChosenSetIff(before, rounds[i].chosen);
            assert Chosen(before, rounds[i].chosen);
          } else {
            assert before[j] == rounds[j];
          }
        }
      }
    }
  }

  lemma WindowIsPermutation(last: LastAssigned, rounds: seq<Round>, fixed: set<Agent>)
    requires IsRun(last, rounds) && fixed <= last.Keys && |rounds| == |fixed|
    requires forall i :: 0 <= i < |rounds| ==> rounds[i].pool == fixed
    ensures forall a :: Chosen(rounds, a) <==> a in fixed
    ensures forall i, j :: 0 <= i < j < |rounds| ==> rounds[i].chosen != rounds[j].chosen
  {
    forall a ensures Chosen(rounds, a) <==> a in fixed {
      if a in fixed { BoundedWait(last, rounds, fixed, a); }
      if i :| 0 <= i < |rounds| && rounds[i].chosen == a {
        assert Picks(After(last, rounds[..i]), rounds[i].pool, rounds[i].chosen);
      }
    }
    forall a ensures a in ChosenSet(rounds) <==> a in fixed { ChosenSetIff(rounds, a); }
    assert ChosenSet(rounds) == fixed;
    ChosenSetSize(rounds);
  }

  /** With a fixed available set of n agents, any n consecutive assignments serve each of them exactly once. */
  lemma EveryWindowIsPermutation(last: LastAssigned, rounds: seq<Round>, fixed: set<Agent>, k: nat)
    requires IsRun(last, rounds) && fixed <= last.Keys && k + |fixed| <= |rounds|
    requires forall i :: 0 <= i < |rounds| ==> rounds[i].pool == fixed
    ensures var window := rounds[k..k + |fixed|];
            && (forall a :: Chosen(window, a) <==> a in fixed)
            && (forall i, j :: 0 <= i < j < |window| ==> window[i].chosen != window[j].chosen)
  {
    var front := rounds[..k + |fixed|];
    RunPrefix(last, rounds, k + |fixed|);
    RunSuffix(last, front, k);
    RunPrefix(last, front, k);
    AfterKeys(last, front[..k]);
    assert front[k..] == rounds[k..k + |fixed|];
    WindowIsPermutation(After(last, front[..k]), front[k..], fixed);
  }
}
