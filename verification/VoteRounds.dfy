/**
 * Vote rounds of a whole cluster of nodes that go through all their roles: no two candidates gather a
 * majority in the same term, unless a node that lost its vote grants another one in the same term.
 */
module VoteRounds {
  import opened Types
  import opened Election
  import opened Roles

  /** A node, and whether it has lost its vote of the current term without hearing a leader of that term. */
  datatype Member = Member(node: State, cleared: bool)

  datatype Round = Round(candidate: nat, term: nat)

  /**
   * The fixed voters, and as history whose votes could be counted for which round, and which
   * candidates have led which term, whether or not they won it.
   */
  datatype Cluster = Cluster(members: map<nat, Member>, granted: map<Round, set<nat>>, led: set<Round>)

  function Voters(c: Cluster): set<nat> { c.members.Keys }

  function GrantedBy(c: Cluster, r: Round): set<nat> { if r in c.granted then c.granted[r] else {} }

  predicate HasMajority(c: Cluster, r: Round) { IsMajority(|GrantedBy(c, r)|, |Voters(c)|) }

  // ---- Steps ---------------------------------------------------------------------------------------

  /** The round an event makes a node vote in. */
  function Vote(n: State, e: Event): Option<Round>
  {
    match e
    case ElectionTick(_) => if n.role == Candidate then Some(Round(n.id, n.term + 1)) else None
    case VoteRequested(r, log) =>
      if n.role == Follower && Grants(r, n.term, n.vote, log) then Some(Round(r.candidate, r.term)) else None
    case _ => None
  }

  predicate HeardLeader(n: State, e: Event) { e.AppendReceived? && e.term == n.term && (n.role == Follower || n.role == Learner) }

  predicate HoldsOwnTerm(n: State) { n.vote.Some? && n.vote.value.term == n.term }

  /** The mark is set with the vote of the current term lost; a term rise or a leader of the term removes it. */
  predicate Mark(m: Member, e: Event)
  {
    var n := Step(m.node, e);
    n.term == m.node.term && !HeardLeader(m.node, e) && (m.cleared || (HoldsOwnTerm(m.node) && n.vote.None?))
  }

  /** Append requests come from nodes that have led the term, by whatever right. */
  predicate Enabled(c: Cluster, v: nat, e: Event)
  {
    v in c.members && (e.AppendReceived? ==> Round(e.leader, e.term) in c.led)
  }

  /** The round a node leads once it has handled the event. */
  function Leads(n: State, e: Event): set<Round>
  {
    if e == Become(Leader) && Allowed(n.role, Leader) then {Round(n.id, n.term)} else {}
  }

  /**
   * A vote may be counted as long as its candidate does not lead the term: the tally is over when the
   * candidate's tick is, and the change of role is handled after that.
   */
  function Count(c: Cluster, v: nat, vote: Option<Round>): map<Round, set<nat>>
  {
    if vote.Some? && vote.value !in c.led then c.granted[vote.value := GrantedBy(c, vote.value) + {v}] else c.granted
  }

  /** Node `v` handles an event, by the same step function as a node on its own. */
  function Next(c: Cluster, v: nat, e: Event): Cluster
    requires v in c.members
  {
    var m := c.members[v];
    Cluster(c.members[v := Member(Step(m.node, e), Mark(m, e))], Count(c, v, Vote(m.node, e)), c.led + Leads(m.node, e))
  }

  /** What a node checks: a follower without its vote of the current term `t` is asked for a vote in `t`, and grants it. */
  predicate VotesAgain(m: Member, e: Event, t: nat)
  {
    m.cleared && m.node.term == t && e.VoteRequested? && Vote(m.node, e).Some? && e.r.term == t
  }

  ghost predicate Start(c: Cluster)
  {
    && c.granted == map[] && c.led == {}
    && |Voters(c)| >= 2
    && (forall v :: v in c.members ==> c.members[v].node.id == v && !c.members[v].cleared)
  }

  datatype Action = Action(voter: nat, event: Event)

  ghost predicate Run(tr: seq<Cluster>, acts: seq<Action>)
  {
    && |tr| == |acts| + 1 && Start(tr[0])
    && forall i :: 0 <= i < |acts| ==>
      Enabled(tr[i], acts[i].voter, acts[i].event) && tr[i + 1] == Next(tr[i], acts[i].voter, acts[i].event)
  }

  /** Over the whole run nobody votes a second time in term `t` after losing its vote of that term. */
  ghost predicate NoSecondVote(tr: seq<Cluster>, acts: seq<Action>, t: nat)
    requires Run(tr, acts)
  {
    forall i :: 0 <= i < |acts| ==> !VotesAgain(tr[i].members[acts[i].voter], acts[i].event, t)
  }

  // ---- The invariant of one term -------------------------------------------------------------------------

  /** The vote of `v` for candidate `x` in term `t` could be counted. */
  predicate Has(c: Cluster, t: nat, x: nat, v: nat) { Round(x, t) in c.granted && v in c.granted[Round(x, t)] }

  /** `m` is in term `t` and has not lost a vote there. */
  predicate Bound(m: Member, t: nat) { m.node.term == t && !m.cleared }

  /** `m` holds a vote of term `t`: for `x`, or for a node that has led the term. */
  predicate Holds(m: Member, t: nat, x: nat, led: set<Round>)
  {
    && m.node.vote.Some? && m.node.vote.value.term == t
    && (m.node.vote.value.id == x || Round(m.node.vote.value.id, t) in led)
  }

  /** What is true of a member whose vote for `x` in term `t` could be counted. */
  predicate Voted(m: Member, t: nat, x: nat, led: set<Round>) { t <= m.node.term && (Bound(m, t) ==> Holds(m, t, x, led)) }

  ghost predicate Ids(c: Cluster) { forall v :: v in c.members ==> c.members[v].node.id == v }

  ghost predicate Kept(c: Cluster, t: nat)
  {
    forall x, v :: Has(c, t, x, v) ==> v in c.members && Voted(c.members[v], t, x, c.led)
  }

  /** Nobody is counted for two rounds of the term. */
  ghost predicate Exclusive(c: Cluster, t: nat)
  {
    forall x, y, v :: Has(c, t, x, v) && Has(c, t, y, v) ==> x == y
  }

  ghost predicate Inv(c: Cluster, t: nat) { Ids(c) && Kept(c, t) && Exclusive(c, t) }

  // ---- Preservation ----------------------------------------------------------------------------------------

  /** Two majorities of the same voters share a voter. */
  lemma MajoritiesMeet(a: set<nat>, b: set<nat>, v: set<nat>)
    requires a <= v && b <= v && IsMajority(|a|, |v|) && IsMajority(|b|, |v|)
    ensures a * b != {}
  {
    assert |a + b| == |a| + |b| - |a * b|;
    SubsetSize(a + b, v);
  }

  lemma SubsetSize(a: set<nat>, b: set<nat>)
    requires a <= b
    ensures |a| <= |b|
  {
    assert b == a + (b - a);
  }

  /** What an event that is no vote does to term and vote. */
  lemma StepShape(n: State, e: Event)
    requires Vote(n, e).None?
    ensures var s := Step(n, e);
      && s.id == n.id
      && (|| n.term < s.term
          || (s.term == n.term
              && (|| s.vote == n.vote
                  || (e == Become(Follower) && s.vote.None?)
                  || (s.vote == Some(VotedFor(n.id, n.term)) && Leads(n, e) == {Round(n.id, n.term)})
                  || (HeardLeader(n, e) && s.vote == Some(VotedFor(e.leader, e.term))))))
    ensures HeardLeader(n, e) ==> Step(n, e).vote == Some(VotedFor(e.leader, e.term))
  {
  }

  /** What a vote does to the voter: it votes, and may then learn a later term. */
  lemma VoteShape(n: State, e: Event)
    requires Vote(n, e).Some?
    ensures var r, s := Vote(n, e).value, Step(n, e);
      && s.id == n.id && n.term <= r.term <= s.term
      && (s.term == r.term ==> s.vote == Some(VotedFor(r.candidate, r.term)))
      && (r.term == n.term ==> e.VoteRequested? && e.r.term == n.term
                               && (n.vote.None? || n.vote == Some(VotedFor(r.candidate, r.term))))
  {
  }

  /** An event that is no vote keeps what is true of an earlier voter. */
  lemma QuietKeeps(m: Member, e: Event, t: nat, x: nat, led: set<Round>)
    requires Voted(m, t, x, led) && Vote(m.node, e).None? && (e.AppendReceived? ==> Round(e.leader, e.term) in led)
    ensures Voted(Member(Step(m.node, e), Mark(m, e)), t, x, led + Leads(m.node, e))
  {
    hide Step, Vote, Leads;
    StepShape(m.node, e);
  }

  /** A vote keeps it too, whichever round it is in; and it can be counted only for the round voted in before. */
  lemma VoteKeeps(m: Member, e: Event, t: nat, x: nat, led: set<Round>)
    requires Voted(m, t, x, led) && Vote(m.node, e).Some? && !VotesAgain(m, e, t)
    ensures Voted(Member(Step(m.node, e), Mark(m, e)), t, x, led)
    ensures var r := Vote(m.node, e).value; r.term == t && r !in led ==> r.candidate == x
  {
    hide Step, Vote, Mark;
    VoteShape(m.node, e);
    var r := Vote(m.node, e).value;
    assert r == Round(r.candidate, r.term);
  }

  /** The round voted in holds for the voter. */
  lemma VoteHolds(m: Member, e: Event, led: set<Round>)
    requires Vote(m.node, e).Some?
    ensures var r := Vote(m.node, e).value; Voted(Member(Step(m.node, e), Mark(m, e)), r.term, r.candidate, led)
  {
    hide Step, Vote, Mark;
    VoteShape(m.node, e);
  }

  lemma CountHas(c: Cluster, v: nat, e: Event, t: nat, x: nat, u: nat)
    requires v in c.members
    ensures var vote := Vote(c.members[v].node, e);
      Has(Next(c, v, e), t, x, u) <==> Has(c, t, x, u) || (u == v && vote == Some(Round(x, t)) && Round(x, t) !in c.led)
  {
    hide Step, Vote, Mark, Leads;
  }

  /** Every earlier vote of the handling node stays kept, and a new one is kept and not a second one. */
  lemma MemberKeeps(c: Cluster, v: nat, e: Event, t: nat, x: nat)
    requires Kept(c, t) && Enabled(c, v, e) && !VotesAgain(c.members[v], e, t)
    requires Has(Next(c, v, e), t, x, v)
    ensures Voted(Next(c, v, e).members[v], t, x, Next(c, v, e).led)
    ensures forall y :: Has(c, t, y, v) ==> x == y || Has(c, t, x, v)
  {
    hide Step, Vote, Mark, Leads, Voted, VotesAgain;
    var m := c.members[v];
    CountHas(c, v, e, t, x, v);
    if Has(c, t, x, v) {
      if Vote(m.node, e).Some? {
        VoteKeeps(m, e, t, x, c.led);
        LedGrows(Next(c, v, e).members[v], t, x, c.led, Next(c, v, e).led);
      } else {
        QuietKeeps(m, e, t, x, c.led);
      }
    } else {
      VoteHolds(m, e, Next(c, v, e).led);
      forall y | Has(c, t, y, v) ensures x == y { VoteKeeps(m, e, t, y, c.led); }
    }
  }

  lemma LedGrows(m: Member, t: nat, x: nat, a: set<Round>, b: set<Round>)
    requires Voted(m, t, x, a) && a <= b
    ensures Voted(m, t, x, b)
  {
  }

  /** One event at one node keeps the invariant of term `t`, unless the node votes again in `t`. */
  lemma NextKeeps(c: Cluster, v: nat, e: Event, t: nat)
    requires Inv(c, t) && Enabled(c, v, e) && !VotesAgain(c.members[v], e, t)
    ensures Inv(Next(c, v, e), t)
  {
    hide Step, Vote, Mark, Leads, Voted, VotesAgain, Has, Count;
    var d := Next(c, v, e);
    StepId(c.members[v].node, e);
    forall x, u | Has(d, t, x, u) ensures u in d.members && Voted(d.members[u], t, x, d.led) {
      CountHas(c, v, e, t, x, u);
      if u == v { MemberKeeps(c, v, e, t, x); } else { LedGrows(c.members[u], t, x, c.led, d.led); }
    }
    forall x, y, u | Has(d, t, x, u) && Has(d, t, y, u) ensures x == y {
      CountHas(c, v, e, t, x, u);
      CountHas(c, v, e, t, y, u);
      if u == v {
        MemberKeeps(c, v, e, t, x);
        MemberKeeps(c, v, e, t, y);
      }
    }
  }

  lemma StepId(n: State, e: Event)
    ensures Step(n, e).id == n.id
  {
    StepForward(n, e);
  }

  // ---- Runs ---------------------------------------------------------------------------------------------

  lemma StartInv(c: Cluster, t: nat)
    requires Start(c)
    ensures Inv(c, t)
  {
  }

  lemma {:induction false} RunInv(tr: seq<Cluster>, acts: seq<Action>, t: nat, i: nat)
    requires Run(tr, acts) && i < |tr| && NoSecondVote(tr, acts, t)
    ensures Inv(tr[i], t)
  {
    hide Inv, Next, Start, VotesAgain;
    if i == 0 {
      StartInv(tr[0], t);
    } else {
      RunInv(tr, acts, t, i - 1);
      NextKeeps(tr[i - 1], acts[i - 1].voter, acts[i - 1].event, t);
    }
  }

  /**
   * Vote-round uniqueness: over every run of the cluster, whoever leads by whatever right, two
   * candidates gather a majority in the same term only if some node votes in that term again after
   * losing its vote there.
   */
  lemma OneWinnerPerTerm(tr: seq<Cluster>, acts: seq<Action>, i: nat, t: nat, x: nat, y: nat)
    requires Run(tr, acts) && i < |tr| && NoSecondVote(tr, acts, t)
    requires HasMajority(tr[i], Round(x, t)) && HasMajority(tr[i], Round(y, t))
    ensures x == y
  {
    hide Run, NoSecondVote, Voted;
    RunInv(tr, acts, t, i);
    var c := tr[i];
    var a, b := GrantedBy(c, Round(x, t)), GrantedBy(c, Round(y, t));
    forall u | u in a ensures u in Voters(c) { assert Has(c, t, x, u); }
    forall u | u in b ensures u in Voters(c) { assert Has(c, t, y, u); }
    MajoritiesMeet(a, b, Voters(c));
    var u :| u in a * b;
    assert Has(c, t, x, u) && Has(c, t, y, u);
  }

  // ---- Leading and winning -----------------------------------------------------------------------------------

  lemma MajorityStays(c: Cluster, v: nat, e: Event, r: Round)
    requires v in c.members && HasMajority(c, r)
    ensures HasMajority(Next(c, v, e), r)
  {
    hide Step, Vote, Mark, Leads;
    var d := Next(c, v, e);
    assert Voters(d) == Voters(c);
    SubsetSize(GrantedBy(c, r), GrantedBy(d, r));
  }

  /** Whoever starts to lead term `t` has a majority there. */
  ghost predicate LeadersWin(tr: seq<Cluster>, acts: seq<Action>, t: nat)
    requires Run(tr, acts)
  {
    forall i, x :: 0 <= i < |acts| && Round(x, t) in Leads(tr[i].members[acts[i].voter].node, acts[i].event) ==>
      HasMajority(tr[i], Round(x, t))
  }

  lemma {:induction false} LeadersWon(tr: seq<Cluster>, acts: seq<Action>, t: nat, i: nat, x: nat)
    requires Run(tr, acts) && i < |tr| && LeadersWin(tr, acts, t) && Round(x, t) in tr[i].led
    ensures HasMajority(tr[i], Round(x, t))
  {
    hide HasMajority, Leads, Step, Mark, Vote;
    if i > 0 {
      if Round(x, t) in tr[i - 1].led { LeadersWon(tr, acts, t, i - 1, x); }
      MajorityStays(tr[i - 1], acts[i - 1].voter, acts[i - 1].event, Round(x, t));
    }
  }

  /** So a term has one leader, if in addition the role change is always handled in a term that was won. */
  lemma OneLeaderPerTerm(tr: seq<Cluster>, acts: seq<Action>, i: nat, t: nat, x: nat, y: nat)
    requires Run(tr, acts) && i < |tr| && NoSecondVote(tr, acts, t) && LeadersWin(tr, acts, t)
    requires Round(x, t) in tr[i].led && Round(y, t) in tr[i].led
    ensures x == y
  {
    hide Run, NoSecondVote, LeadersWin, HasMajority;
    LeadersWon(tr, acts, t, i, x);
    LeadersWon(tr, acts, t, i, y);
    OneWinnerPerTerm(tr, acts, i, t, x, y);
  }

  // ---- When a node loses its vote --------------------------------------------------------------------------

  /** Only a step-down loses a vote: of a candidate, leader or learner that holds a vote of its current term. */
  lemma LosesVote(m: Member, e: Event)
    requires !m.cleared
    ensures Mark(m, e) <==> e == Become(Follower) && m.node.role != Follower && HoldsOwnTerm(m.node)
  {
  }

  function Through(m: Member, es: seq<Event>): Member
    decreases |es|
  {
    if es == [] then m else Through(Member(Step(m.node, es[0]), Mark(m, es[0])), es[1..])
  }

  lemma ThroughTwo(m: Member, a: Event, b: Event)
    ensures var n := Member(Step(m.node, a), Mark(m, a)); Through(m, [a, b]) == Member(Step(n.node, b), Mark(n, b))
  {
    hide Step, Mark;
    var n := Member(Step(m.node, a), Mark(m, a));
    assert [a, b][1..] == [b];
    assert Through(m, [a, b]) == Through(n, [b]);
    assert [b][1..] == [];
    assert Through(n, [b]) == Through(Member(Step(n.node, b), Mark(n, b)), []);
  }

  /**
   * Stepping down for a vote request loses no vote of the current term when the request has a higher
   * term, which it always has for a leader; a candidate asked in its own term has no vote of that term
   * to lose, unless that vote is for node 0.
   */
  lemma VoteStepDown(m: Member, r: VoteRequest, log: LogId)
    requires !m.cleared && VoteCurrent(m.node) && StepsDownFor(m.node, r, log)
    ensures var w := Through(m, [VoteRequested(r, log), Become(Follower)]);
      && w.node.role == Follower && w.node.term == r.term && w.node.vote.None?
      && (w.cleared <==> m.node.role == Candidate && r.term == m.node.term && HoldsOwnTerm(m.node))
      && (w.cleared ==> m.node.vote.value.id == 0)
  {
    ThroughTwo(m, VoteRequested(r, log), Become(Follower));
  }

  lemma ThroughThree(m: Member, a: Event, b: Event, d: Event)
    ensures var n := Through(m, [a, b]); Through(m, [a, b, d]) == Member(Step(n.node, d), Mark(n, d))
  {
    hide Step, Mark;
    assert [a, b, d][1..] == [b, d];
    ThroughTwo(m, a, b);
    ThroughTwo(Member(Step(m.node, a), Mark(m, a)), b, d);
  }

  /**
   * A candidate that hears a leader of its term or a later one, and a leader that hears one of a later
   * term, lose their vote when they step down, but have that leader's vote once the request is replayed.
   */
  lemma AppendStepDown(m: Member, leader: nat, term: nat)
    requires (m.node.role == Candidate && m.node.term <= term) || (m.node.role == Leader && m.node.term < term)
    ensures var e := AppendReceived(leader, term);
      && Through(m, [e, Become(Follower)]).node.vote.None?
      && (var w := Through(m, [e, Become(Follower), e]);
          w.node.role == Follower && w.node.term == term && w.node.vote == Some(VotedFor(leader, term)) && !w.cleared)
  {
    var e := AppendReceived(leader, term);
    ThroughTwo(m, e, Become(Follower));
    ThroughThree(m, e, Become(Follower), e);
  }

  // ---- Voting again ------------------------------------------------------------------------------------------

  function Ask(x: nat, t: nat): Event { VoteRequested(VoteRequest(t, x, LogId(0, 0)), LogId(0, 0)) }

  function Plain(id: nat, role: Role, term: nat, vote: Option<VotedFor>): State { State(id, role, term, vote, None, None) }

  function Of(x: nat, t: nat): Option<VotedFor> { Some(VotedFor(x, t)) }

  /**
   * Voting again breaks uniqueness: node 1 wins term 1 with the vote of node 2, cannot start its no-op
   * and steps down in term 1, which clears its vote for itself; it then grants node 3's round of term 1.
   */
  lemma SameTermClearBreaksUniqueness() returns (tr: seq<Cluster>, acts: seq<Action>)
    ensures Run(tr, acts)
    ensures HasMajority(tr[|acts|], Round(1, 1)) && HasMajority(tr[|acts|], Round(3, 1))
    ensures |acts| == 6 && acts[3] == Action(1, Become(Follower)) && 1 in tr[3].members && tr[3].members[1].node.role == Leader
  {
    hide Next, Scene, Act, Start, HasMajority;
    tr, acts := seq(7, i requires 0 <= i < 7 => Scene(i)), seq(6, i requires 0 <= i < 6 => Act(i));
    forall i | 0 <= i < 6
      ensures Enabled(Scene(i), Act(i).voter, Act(i).event) && Next(Scene(i), Act(i).voter, Act(i).event) == Scene(i + 1)
    {
      SceneStep(i);
    }
    FirstScene();
    LastScene();
    StepDownScene();
  }

  function Act(i: nat): Action
    requires i < 6
  {
    if i == 0 then Action(1, ElectionTick(None)) else if i == 1 then Action(2, Ask(1, 1))
    else if i == 2 then Action(1, Become(Leader)) else if i == 3 then Action(1, Become(Follower))
    else if i == 4 then Action(3, ElectionTick(None)) else Action(1, Ask(3, 1))
  }

  /** The three nodes of that run at scene `i`. */
  function First(i: nat): Member
  {
    if i == 0 then Member(Plain(1, Candidate, 0, None), false)
    else if i <= 2 then Member(Plain(1, Candidate, 1, Of(1, 1)), false)
    else if i == 3 then Member(Plain(1, Leader, 1, Of(1, 1)), false)
    else if i <= 5 then Member(Plain(1, Follower, 1, None), true)
    else Member(Plain(1, Follower, 1, Of(3, 1)), true)
  }

  function Second(i: nat): Member { Member(Plain(2, Follower, if i <= 1 then 0 else 1, if i <= 1 then None else Of(1, 1)), false) }

  function Third(i: nat): Member { Member(Plain(3, Candidate, if i <= 4 then 0 else 1, if i <= 4 then None else Of(3, 1)), false) }

  function Votes(i: nat): map<Round, set<nat>>
  {
    if i == 0 then map[] else if i == 1 then map[Round(1, 1) := {1}] else if i <= 4 then map[Round(1, 1) := {1, 2}]
    else if i == 5 then map[Round(1, 1) := {1, 2}, Round(3, 1) := {3}] else map[Round(1, 1) := {1, 2}, Round(3, 1) := {3, 1}]
  }

  function Scene(i: nat): Cluster
  {
    Cluster(map[1 := First(i), 2 := Second(i), 3 := Third(i)], Votes(i), if i <= 2 then {} else {Round(1, 1)})
  }

  lemma ThreeVoters(c: Cluster)
    requires c.members.Keys == {1, 2, 3}
    ensures |Voters(c)| == 3
  {
  }

  lemma FirstScene()
    ensures Start(Scene(0))
  {
    assert Scene(0).members.Keys == {1, 2, 3};
    ThreeVoters(Scene(0));
  }

  lemma StepDownScene()
    ensures 1 in Scene(3).members && Scene(3).members[1].node.role == Leader && Act(3) == Action(1, Become(Follower))
  {
  }

  lemma LastScene()
    ensures HasMajority(Scene(6), Round(1, 1)) && HasMajority(Scene(6), Round(3, 1))
  {
    assert Scene(6).members.Keys == {1, 2, 3};
    ThreeVoters(Scene(6));
    assert GrantedBy(Scene(6), Round(1, 1)) == {1, 2} && GrantedBy(Scene(6), Round(3, 1)) == {3, 1};
  }

  lemma SceneStep(i: nat)
    requires i < 6
    ensures Enabled(Scene(i), Act(i).voter, Act(i).event) && Next(Scene(i), Act(i).voter, Act(i).event) == Scene(i + 1)
  {
    hide Scene;
    SceneNodes(i);
    SceneVotes(i);
  }

  lemma SceneNodes(i: nat)
    requires i < 6
    ensures Enabled(Scene(i), Act(i).voter, Act(i).event)
    ensures var v := Act(i).voter;
      Scene(i + 1).members == Scene(i).members[v := Member(Step(Scene(i).members[v].node, Act(i).event), Mark(Scene(i).members[v], Act(i).event))]
  {
  }

  lemma SceneVotes(i: nat)
    requires i < 6
    ensures Act(i).voter in Scene(i).members
    ensures Scene(i + 1).granted == Count(Scene(i), Act(i).voter, Vote(Scene(i).members[Act(i).voter].node, Act(i).event))
    ensures Scene(i + 1).led == Scene(i).led + Leads(Scene(i).members[Act(i).voter].node, Act(i).event)
  {
    var counted := Count(Scene(i), Act(i).voter, Vote(Scene(i).members[Act(i).voter].node, Act(i).event));
    var none: set<nat> := {};
    assert none + {1} == {1} && none + {3} == {3} && {1} + {2} == {1, 2} && {3} + {1} == {3, 1};
    assert counted == Votes(i + 1);
  }

  // ---- Leading without having won ------------------------------------------------------------------------------

  /**
   * The role change carries no term: node 3 wins term 1, starts and loses a round of term 2 before the
   * change is handled, and so leads term 2, which node 1 then wins and leads as well.
   */
  lemma StaleLeader() returns (tr: seq<Cluster>, acts: seq<Action>)
    ensures Run(tr, acts) && |acts| == 7
    ensures HasMajority(tr[2], Round(3, 1)) && acts[3] == Action(3, Become(Leader))
    ensures Round(3, 2) in tr[7].led && Round(1, 2) in tr[7].led
    ensures HasMajority(tr[7], Round(1, 2)) && !HasMajority(tr[7], Round(3, 2))
  {
    hide Next, Stale, StaleAct, Start, HasMajority;
    tr, acts := seq(8, i requires 0 <= i < 8 => Stale(i)), seq(7, i requires 0 <= i < 7 => StaleAct(i));
    forall i | 0 <= i < 7
      ensures Enabled(Stale(i), StaleAct(i).voter, StaleAct(i).event)
              && Next(Stale(i), StaleAct(i).voter, StaleAct(i).event) == Stale(i + 1)
    {
      StaleStep(i);
    }
    StaleStart();
    StaleEnd();
  }

  function StaleAct(i: nat): Action
    requires i < 7
  {
    if i == 0 then Action(3, ElectionTick(None)) else if i == 1 then Action(2, Ask(3, 1))
    else if i == 2 then Action(3, ElectionTick(None)) else if i == 3 then Action(3, Become(Leader))
    else if i == 4 then Action(1, ElectionTick(None)) else if i == 5 then Action(2, Ask(1, 2)) else Action(1, Become(Leader))
  }

  function Rival(i: nat): Member
  {
    Member(Plain(1, if i <= 6 then Candidate else Leader, if i <= 4 then 1 else 2, if i <= 4 then None else Of(1, 2)), false)
  }

  function Voting(i: nat): Member
  {
    if i <= 1 then Member(Plain(2, Follower, 0, None), false)
    else if i <= 5 then Member(Plain(2, Follower, 1, Of(3, 1)), false)
    else Member(Plain(2, Follower, 2, Of(1, 2)), false)
  }

  function Late(i: nat): Member
  {
    if i == 0 then Member(Plain(3, Candidate, 0, None), false)
    else if i <= 2 then Member(Plain(3, Candidate, 1, Of(3, 1)), false)
    else Member(Plain(3, if i == 3 then Candidate else Leader, 2, Of(3, 2)), false)
  }

  function StaleVotes(i: nat): map<Round, set<nat>>
  {
    if i == 0 then map[] else if i == 1 then map[Round(3, 1) := {3}] else if i == 2 then map[Round(3, 1) := {3, 2}]
    else if i <= 4 then map[Round(3, 1) := {3, 2}, Round(3, 2) := {3}]
    else map[Round(3, 1) := {3, 2}, Round(3, 2) := {3}, Round(1, 2) := if i == 5 then {1} else {1, 2}]
  }

  function Stale(i: nat): Cluster
  {
    Cluster(map[1 := Rival(i), 2 := Voting(i), 3 := Late(i)], StaleVotes(i),
            if i <= 3 then {} else if i <= 6 then {Round(3, 2)} else {Round(3, 2), Round(1, 2)})
  }

  lemma StaleStart()
    ensures Start(Stale(0))
  {
    assert Stale(0).members.Keys == {1, 2, 3};
    ThreeVoters(Stale(0));
  }

  lemma StaleEnd()
    ensures HasMajority(Stale(2), Round(3, 1)) && StaleAct(3) == Action(3, Become(Leader))
    ensures Round(3, 2) in Stale(7).led && Round(1, 2) in Stale(7).led
    ensures HasMajority(Stale(7), Round(1, 2)) && !HasMajority(Stale(7), Round(3, 2))
  {
    assert Stale(2).members.Keys == {1, 2, 3} && Stale(7).members.Keys == {1, 2, 3};
    ThreeVoters(Stale(2));
    ThreeVoters(Stale(7));
    assert GrantedBy(Stale(2), Round(3, 1)) == {3, 2};
    assert GrantedBy(Stale(7), Round(1, 2)) == {1, 2} && GrantedBy(Stale(7), Round(3, 2)) == {3};
  }

  lemma StaleStep(i: nat)
    requires i < 7
    ensures Enabled(Stale(i), StaleAct(i).voter, StaleAct(i).event)
    ensures Next(Stale(i), StaleAct(i).voter, StaleAct(i).event) == Stale(i + 1)
  {
    hide Stale;
    StaleNodes(i);
    StaleCounted(i);
  }

  lemma StaleNodes(i: nat)
    requires i < 7
    ensures Enabled(Stale(i), StaleAct(i).voter, StaleAct(i).event)
    ensures var v, e := StaleAct(i).voter, StaleAct(i).event;
      Stale(i + 1).members == Stale(i).members[v := Member(Step(Stale(i).members[v].node, e), Mark(Stale(i).members[v], e))]
  {
  }

  lemma StaleCounted(i: nat)
    requires i < 7
    ensures StaleAct(i).voter in Stale(i).members
    ensures Stale(i + 1).granted == Count(Stale(i), StaleAct(i).voter, Vote(Stale(i).members[StaleAct(i).voter].node, StaleAct(i).event))
    ensures Stale(i + 1).led == Stale(i).led + Leads(Stale(i).members[StaleAct(i).voter].node, StaleAct(i).event)
  {
    var counted := Count(Stale(i), StaleAct(i).voter, Vote(Stale(i).members[StaleAct(i).voter].node, StaleAct(i).event));
    var none: set<nat> := {};
    assert none + {1} == {1} && none + {3} == {3} && {1} + {2} == {1, 2} && {3} + {2} == {3, 2};
    assert counted == StaleVotes(i + 1);
  }
}
