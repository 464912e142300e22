/** One node through its four roles: its term and its purge boundary only move forward. */
module Roles {
  import opened Types
  import opened Election

  /** The state that survives role changes, and the scheduled purge, which only some roles carry. */
  datatype State = State(id: nat, role: Role, term: nat, vote: Option<VotedFor>, lastPurged: Option<LogId>, scheduled: Option<LogId>)

  datatype Event =
    | VoteRequested(r: VoteRequest, log: LogId)
    | AppendReceived(leader: nat, term: nat)
    | ElectionTick(higher: Option<nat>)       // a candidate's round, and a higher term it met
    | AppendResult(term: nat)                 // a follower's answer to the leader
    | PurgeScheduled(upto: LogId)
    | PurgeCompleted(upto: LogId)
    | Become(role: Role)

  // ---- Steps -----------------------------------------------------------------------------------------

  /** `commit_hard_state`: only what is given changes. */
  function Commit(s: State, term: Option<nat>, vote: Option<VotedFor>): State
  {
    s.(term := if term.Some? then term.value else s.term, vote := if vote.Some? then vote else s.vote)
  }

  function OnVote(s: State, r: VoteRequest, log: LogId): State
  {
    match s.role
    case Follower =>
      var u := HandleVoteRequest(r, s.term, s.vote, log);
      Commit(s, u.termUpdate, u.newVote)
    case Candidate => if IsLegal(r, s.term, s.vote, log) then Commit(s, Some(r.term), None) else s
    case Leader => if s.term < r.term then Commit(s, Some(r.term), None) else s
    case Learner => if s.term < r.term then Commit(s, Some(r.term), None) else s
  }

  function OnAppend(s: State, leader: nat, term: nat): State
  {
    match s.role
    case Leader => s
    case Candidate => if s.term < term then Commit(s, Some(term), None) else s
    case _ => if term < s.term then s else Commit(s, Some(term), Some(VotedFor(leader, term)))
  }

  function OnTick(s: State, higher: Option<nat>): State
  {
    if s.role != Candidate then s else
    var s1 := Commit(s, Some(s.term + 1), Some(VotedFor(s.id, s.term + 1)));
    if higher.Some? && s1.term < higher.value then Commit(s1, higher, None) else s1
  }

  function OnAppendResult(s: State, term: nat): State
  {
    if s.role == Leader && s.term < term then Commit(s, Some(term), None) else s
  }

  predicate Newer(upto: LogId, last: Option<LogId>) { last.None? || last.value.index < upto.index }

  /** A candidate answers with an error and keeps its boundary. */
  function OnPurged(s: State, upto: LogId): State
  {
    if s.role != Candidate && Newer(upto, s.lastPurged) then s.(lastPurged := Some(upto), scheduled := None) else s
  }

  /** The transitions that exist; any other request is an error that changes nothing. */
  predicate Allowed(from: Role, to: Role)
  {
    || (from == Follower && (to == Candidate || to == Learner))
    || (from == Candidate && to != Candidate)
    || (from == Leader && to == Follower)
    || (from == Learner && to == Follower)
  }

  /** A candidate carries no scheduled purge; becoming follower clears the vote, becoming leader commits it. */
  function OnBecome(s: State, to: Role): State
  {
    if !Allowed(s.role, to) then s else
    s.(role := to,
       scheduled := if s.role == Candidate || to == Candidate then None else s.scheduled,
       vote := match to case Follower => None case Leader => Some(VotedFor(s.id, s.term)) case _ => s.vote)
  }

  function Step(s: State, e: Event): State
  {
    match e
    case VoteRequested(r, log) => OnVote(s, r, log)
    case AppendReceived(leader, term) => OnAppend(s, leader, term)
    case ElectionTick(higher) => OnTick(s, higher)
    case AppendResult(term) => OnAppendResult(s, term)
    case PurgeScheduled(upto) => if s.role == Candidate then s else s.(scheduled := Some(upto))
    case PurgeCompleted(upto) => OnPurged(s, upto)
    case Become(to) => OnBecome(s, to)
  }

  function After(s: State, es: seq<Event>): State
  {
    if es == [] then s else Step(After(s, es[..|es| - 1]), es[|es| - 1])
  }

  // ---- The node as an object ------------------------------------------------------------------------------

  class RaftNode {
    const id: nat
    var role: Role
    var term: nat
    var vote: Option<VotedFor>
    var lastPurged: Option<LogId>
    var scheduled: Option<LogId>

    function Model(): State
      reads this
    {
      State(id, role, term, vote, lastPurged, scheduled)
    }

    constructor (me: nat, learner: bool)
      ensures Model() == State(me, if learner then Learner else Follower, 0, None, None, None)
    {
      id, role, term, vote, lastPurged, scheduled := me, if learner then Learner else Follower, 0, None, None, None;
    }

    method CommitHardState(t: Option<nat>, v: Option<VotedFor>)
      modifies `term, `vote
      ensures Model() == Commit(old(Model()), t, v)
    {
      if t.Some? { term := t.value; }
      if v.Some? { vote := v; }
    }

    method HandleVote(r: VoteRequest, log: LogId)
      modifies `term, `vote
      ensures Model() == OnVote(old(Model()), r, log)
    {
      if role == Follower {
        var u := HandleVoteRequest(r, term, vote, log);
        CommitHardState(u.termUpdate, u.newVote);
      } else if (role == Candidate && IsLegal(r, term, vote, log)) || (role != Candidate && term < r.term) {
        CommitHardState(Some(r.term), None);
      }
    }

    method HandleAppend(leader: nat, t: nat)
      modifies `term, `vote
      ensures Model() == OnAppend(old(Model()), leader, t)
    {
      if role == Candidate && term < t {
        CommitHardState(Some(t), None);
      } else if (role == Follower || role == Learner) && term <= t {
        CommitHardState(Some(t), Some(VotedFor(leader, t)));
      }
    }

    method Tick(higher: Option<nat>)
      modifies `term, `vote
      ensures Model() == OnTick(old(Model()), higher)
    {
      if role != Candidate { return; }
      CommitHardState(Some(term + 1), Some(VotedFor(id, term + 1)));
      if higher.Some? && term < higher.value { CommitHardState(higher, None); }
    }

    method HandleAppendResult(t: nat)
      modifies `term, `vote
      ensures Model() == OnAppendResult(old(Model()), t)
    {
      if role == Leader && term < t { CommitHardState(Some(t), None); }
    }

    method HandleLogPurgeCompleted(upto: LogId) returns (ok: bool)
      modifies `lastPurged, `scheduled
      ensures Model() == OnPurged(old(Model()), upto) && ok == (role != Candidate)
    {
      ok := role != Candidate;
      if ok && (lastPurged.None? || upto.index > lastPurged.value.index) {
        lastPurged := Some(upto);
        scheduled := None;
      }
    }

    method BecomeRole(to: Role) returns (ok: bool)
      modifies `role, `scheduled, `vote
      ensures Model() == OnBecome(old(Model()), to) && ok == Allowed(old(role), to)
    {
      ok := Allowed(role, to);
      if !ok { return; }
      if role == Candidate || to == Candidate { scheduled := None; }
      role := to;
      match to
      case Follower => vote := None;
      case Leader => vote := Some(VotedFor(id, term));
      case _ =>
    }
  }

  // ---- Forward only ------------------------------------------------------------------------------------------

  /** A recorded purge boundary stays recorded and does not move back. */
  predicate PurgeKept(a: Option<LogId>, b: Option<LogId>) { a.Some? ==> b.Some? && a.value.index <= b.value.index }

  predicate VoteCurrent(s: State) { s.vote.Some? ==> s.vote.value.term <= s.term }

  lemma StepForward(s: State, e: Event)
    ensures s.term <= Step(s, e).term && PurgeKept(s.lastPurged, Step(s, e).lastPurged)
    ensures VoteCurrent(s) ==> VoteCurrent(Step(s, e))
    ensures Step(s, e).id == s.id
  {
  }

  /**
   * Over every run through all four roles the term never decreases, the purge boundary is never
   * lost and never moves back, and a vote is never for a later term than the current one.
   */
  lemma {:induction false} RunForward(s: State, es: seq<Event>, i: nat, j: nat)
    requires i <= j <= |es|
    ensures After(s, es[..i]).term <= After(s, es[..j]).term
    ensures PurgeKept(After(s, es[..i]).lastPurged, After(s, es[..j]).lastPurged)
    ensures VoteCurrent(After(s, es[..i])) ==> VoteCurrent(After(s, es[..j]))
    decreases j - i
  {
    hide Step;
    if i < j {
      RunForward(s, es, i, j - 1);
      assert es[..j][..j - 1] == es[..j - 1];
      StepForward(After(s, es[..j - 1]), es[j - 1]);
    }
  }

  /** A role change alone keeps term and boundary exactly; through a candidate a scheduled purge is dropped. */
  lemma BecomeKeeps(s: State, to: Role)
    ensures Step(s, Become(to)).term == s.term && Step(s, Become(to)).lastPurged == s.lastPurged
    ensures s.scheduled.Some? ==>
      (Step(s, Become(to)).scheduled == s.scheduled <==> !(Allowed(s.role, to) && (s.role == Candidate || to == Candidate)))
  {
  }

  /** Exactly a newer completion outside candidacy is recorded. */
  lemma PurgeRecorded(s: State, upto: LogId)
    requires s.lastPurged != Some(upto)
    ensures Step(s, PurgeCompleted(upto)).lastPurged == Some(upto) <==> s.role != Candidate && Newer(upto, s.lastPurged)
  {
  }

  // ---- Stepping down for a vote request -----------------------------------------------------------------------

  /** A candidate steps down for a legal request, a leader for any request with a higher term. */
  predicate StepsDownFor(s: State, r: VoteRequest, log: LogId)
  {
    (s.role == Candidate && IsLegal(r, s.term, s.vote, log)) || (s.role == Leader && s.term < r.term)
  }

  /** The node that the request is replayed on. */
  function SteppedDown(s: State, r: VoteRequest, log: LogId): State
  {
    if StepsDownFor(s, r, log) then Step(Step(s, VoteRequested(r, log)), Become(Follower)) else s
  }

  /** Step-down replay: a request for which a candidate stepped down is granted when replayed. */
  lemma ReplayGranted(s: State, r: VoteRequest, log: LogId)
    requires s.role == Candidate
    ensures var f := SteppedDown(s, r, log);
      IsLegal(r, s.term, s.vote, log) <==> f.role == Follower && Step(f, VoteRequested(r, log)).vote == Some(VotedFor(r.candidate, r.term))
  {
  }

  /** A leader's step-down is replayed with the verdict of the up-to-dateness check alone. */
  lemma LeaderReplay(s: State, r: VoteRequest, log: LogId)
    requires s.role == Leader && s.term < r.term
    ensures var f := SteppedDown(s, r, log);
      Step(f, VoteRequested(r, log)).vote == Some(VotedFor(r.candidate, r.term)) <==> AtLeast(log, r.last)
  {
  }

  // ---- Terms and votes, event by event --------------------------------------------------------------------------

  /** Nothing but term and vote differs. */
  predicate SameButBallot(s: State, t: State) { t == s.(term := t.term, vote := t.vote) }

  /**
   * A vote request: a follower, leader or learner takes over any higher term, whether or not it grants
   * the vote; a candidate takes over the term exactly when it steps down. Only a follower's vote changes,
   * exactly if the paper's rule grants it and no vote of an earlier term is in the way.
   */
  lemma VoteRequestBallot(s: State, r: VoteRequest, log: LogId)
    requires VoteCurrent(s)
    ensures var t := Step(s, VoteRequested(r, log));
      && SameButBallot(s, t)
      && (s.role != Candidate ==> t.term == Max(s.term, r.term))
      && (s.role == Candidate ==>
            t.term == if s.term <= r.term && AtLeast(log, r.last)
                         && (s.vote.None? || s.vote.value.id == 0 || s.vote.value.term < r.term) then r.term else s.term)
      && t.vote == (if && s.role == Follower && PaperGrants(r, s.term, s.vote, log)
                       && !(r.term == s.term && s.vote.Some? && s.vote.value.term < s.term)
                    then Some(VotedFor(r.candidate, r.term)) else s.vote)
  {
    GrantsAgainstPaper(r, s.term, s.vote, log);
  }

  /**
   * An append request: a follower or learner that is not ahead follows the leader into its term and
   * votes for it; a candidate only takes over a higher term; a leader changes nothing.
   */
  lemma AppendBallot(s: State, leader: nat, term: nat)
    ensures var t := Step(s, AppendReceived(leader, term));
      && SameButBallot(s, t)
      && t.term == (if s.role == Leader then s.term else Max(s.term, term))
      && t.vote == (if (s.role == Follower || s.role == Learner) && s.term <= term then Some(VotedFor(leader, term)) else s.vote)
  {
  }

  /** A candidate's round: the next term with a vote for itself, then any higher term it met. */
  lemma TickBallot(s: State, higher: Option<nat>)
    ensures var t := Step(s, ElectionTick(higher));
      && SameButBallot(s, t)
      && (s.role != Candidate ==> t == s)
      && (s.role == Candidate ==>
            t.vote == Some(VotedFor(s.id, s.term + 1)) && t.term == if higher.Some? then Max(s.term + 1, higher.value) else s.term + 1)
  {
  }

  /** A follower's answer: only a leader takes over its higher term. */
  lemma ResultBallot(s: State, term: nat)
    ensures var t := Step(s, AppendResult(term));
      SameButBallot(s, t) && t.vote == s.vote && t.term == if s.role == Leader then Max(s.term, term) else s.term
  {
  }

  /**
   * Role changes: a candidate may become anything else, a leader or a learner only a follower, a follower
   * a candidate or a learner. Only stepping down loses the vote, and only leading sets it.
   */
  lemma RoleChange(s: State, to: Role)
    requires s.role != to
    ensures var t := Step(s, Become(to));
      && (t.role == to || t == s)
      && (t.role == to <==> s.role == Candidate || (to == Follower && s.role != Follower) || (s.role == Follower && to != Leader))
      && (t.role == to ==> t.vote == if to == Follower then None else if to == Leader then Some(VotedFor(s.id, s.term)) else s.vote)
  {
  }

  /** A newer completion clears the schedule; only a candidate schedules nothing. */
  lemma PurgeSchedule(s: State, upto: LogId)
    ensures Step(s, PurgeScheduled(upto)) == if s.role == Candidate then s else s.(scheduled := Some(upto))
    ensures s.role != Candidate && Newer(upto, s.lastPurged) ==> Step(s, PurgeCompleted(upto)).scheduled.None?
  {
  }
}
