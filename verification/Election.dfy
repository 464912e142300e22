/** Vote requests: the two vote checks and the tally of a vote round. */
module Election {
  import opened Types
  import opened Bags

  datatype LogId = LogId(index: nat, term: nat)
  datatype VotedFor = VotedFor(id: nat, term: nat)
  datatype VoteRequest = VoteRequest(term: nat, candidate: nat, last: LogId)

  // ---- Which log is more recent ---------------------------------------------------------------------

  /** `is_target_log_more_recent`: the target log is at least as up to date as mine. */
  predicate AtLeast(mine: LogId, target: LogId)
  {
    target.term > mine.term || (target.term == mine.term && target.index >= mine.index)
  }

  /** The comparison is a total preorder that identifies only equal ids; a later term wins, within a term the longer log. */
  lemma UpToDatePreorder(a: LogId, b: LogId, c: LogId)
    ensures AtLeast(a, a)
    ensures AtLeast(a, b) || AtLeast(b, a)
    ensures AtLeast(a, b) && AtLeast(b, c) ==> AtLeast(a, c)
    ensures AtLeast(a, b) && AtLeast(b, a) <==> a == b
    ensures a.term < b.term ==> !AtLeast(b, a)
    ensures a.term == b.term && a.index < b.index ==> !AtLeast(b, a)
  {
  }

  // ---- The follower's check ---------------------------------------------------------------------------

  datatype StateUpdate = StateUpdate(newVote: Option<VotedFor>, termUpdate: Option<nat>)

  /** `handle_vote_request` */
  function HandleVoteRequest(r: VoteRequest, term: nat, vote: Option<VotedFor>, log: LogId): StateUpdate
  {
    var standing := if r.term > term then None else vote;
    var grant :=
      r.term >= term && AtLeast(log, r.last)
      && (standing.Some? ==> standing.value.term == r.term && standing.value.id == r.candidate);
    StateUpdate(if grant then Some(VotedFor(r.candidate, r.term)) else None, if r.term > term then Some(r.term) else None)
  }

  predicate Grants(r: VoteRequest, term: nat, vote: Option<VotedFor>, log: LogId)
  {
    HandleVoteRequest(r, term, vote, log).newVote.Some?
  }

  /** Sections 5.2 and 5.4.1 of the Raft paper: a vote counts for the term it was cast in. */
  predicate PaperGrants(r: VoteRequest, term: nat, vote: Option<VotedFor>, log: LogId)
  {
    && r.term >= term && AtLeast(log, r.last)
    && (r.term == term && vote.Some? && vote.value.term == term ==> vote.value.id == r.candidate)
  }

  /**
   * Against the paper's rule: the follower also refuses when it still holds a vote from an earlier
   * term, although it has not voted in the term of the request.
   */
  lemma GrantsAgainstPaper(r: VoteRequest, term: nat, vote: Option<VotedFor>, log: LogId)
    requires vote.Some? ==> vote.value.term <= term
    ensures Grants(r, term, vote, log)
            <==> PaperGrants(r, term, vote, log) && !(r.term == term && vote.Some? && vote.value.term < term)
  {
  }

  /** A node that moved to term 2 without voting there, with a vote from term 1, refuses an up-to-date candidate. */
  lemma OldVoteRefuses()
    ensures var r, vote, log := VoteRequest(2, 7, LogId(4, 1)), Some(VotedFor(3, 1)), LogId(4, 1);
      PaperGrants(r, 2, vote, log) && !Grants(r, 2, vote, log)
  {
  }

  // ---- The candidate's check --------------------------------------------------------------------------

  /** `if_node_could_grant_the_vote_request` */
  predicate CouldGrant(r: VoteRequest, vote: Option<VotedFor>)
  {
    vote.None? || vote.value.id == 0 || vote.value.term < r.term
  }

  /** `check_vote_request_is_legal` */
  predicate IsLegal(r: VoteRequest, term: nat, vote: Option<VotedFor>, log: LogId)
  {
    term <= r.term && AtLeast(log, r.last) && (vote.Some? ==> CouldGrant(r, vote))
  }

  /** The two checks differ only within one term: on a repeated request, an old vote, or a vote for node 0. */
  lemma ChecksAgree(r: VoteRequest, term: nat, vote: Option<VotedFor>, log: LogId)
    requires vote.Some? ==> vote.value.term <= term
    ensures (IsLegal(r, term, vote, log) <==> Grants(r, term, vote, log))
            <==> !(term == r.term && AtLeast(log, r.last) && vote.Some?
                   && (vote.value == VotedFor(r.candidate, r.term)) != CouldGrant(r, vote))
  {
  }

  datatype Role = Follower | Candidate | Leader | Learner

  // ---- The tally -------------------------------------------------------------------------------------

  /** A peer's answer, or a failed call. */
  datatype VoteResponse = Answered(term: nat, granted: bool, last: LogId) | Failed

  datatype RoundResult =
    | Won
    | HigherTerm(term: nat)
    | LogConflict(index: nat, expected: nat, actual: nat)
    | QuorumFailure(required: nat, succeed: nat)

  predicate IsMajority(num: nat, total: nat) { num > total / 2 }

  predicate Granted(r: VoteResponse) { r.Answered? && r.granted }

  /** A refusal that ends the round at once. */
  predicate Fatal(r: VoteResponse, term: nat, mine: LogId)
  {
    r.Answered? && !r.granted && (term < r.term || AtLeast(mine, r.last))
  }

  function FatalResult(r: VoteResponse, term: nat, mine: LogId): RoundResult
    requires Fatal(r, term, mine)
  {
    if term < r.term then HigherTerm(r.term) else LogConflict(mine.index, mine.term, r.last.term)
  }

  function CountGranted(rs: seq<VoteResponse>): nat
  {
    if rs == [] then 0 else CountGranted(rs[..|rs| - 1]) + (if Granted(rs[|rs| - 1]) then 1 else 0)
  }

  predicate AnyFatal(rs: seq<VoteResponse>, term: nat, mine: LogId) { exists i :: 0 <= i < |rs| && Fatal(rs[i], term, mine) }

  /** The outcome of the remaining responses `rs` with `succeed` votes so far. */
  function TallyFrom(term: nat, mine: LogId, peers: nat, rs: seq<VoteResponse>, succeed: nat): RoundResult
    decreases |rs|
  {
    if rs == [] then (if peers > 0 && IsMajority(succeed, peers + 1) then Won else QuorumFailure(peers + 1, succeed))
    else if Fatal(rs[0], term, mine) then FatalResult(rs[0], term, mine)
    else TallyFrom(term, mine, peers, rs[1..], if Granted(rs[0]) then succeed + 1 else succeed)
  }

  /** The peers asked: the voters without the candidate, each once. */
  method DistinctPeers(members: seq<nat>, me: nat) returns (peers: set<nat>, asked: seq<nat>)
    ensures peers == (set p | p in members && p != me)
    ensures |asked| == |peers| && (forall p :: p in asked <==> p in peers)
  {
    peers, asked := {}, [];
    var i := 0;
    while i < |members|
      invariant i <= |members|
      invariant peers == (set p | p in members[..i] && p != me)
      invariant |asked| == |peers| && (forall p :: p in asked <==> p in peers)
    {
      var p := members[i];
      assert members[..i + 1] == members[..i] + [p];
      if p != me && p !in peers {
        peers, asked := peers + {p}, asked + [p];
      }
      i := i + 1;
    }
    assert members[..i] == members;
  }

  /** The tally over the responses in the order in which they came in. */
  method Tally(term: nat, mine: LogId, peers: nat, rs: seq<VoteResponse>) returns (result: RoundResult)
    ensures result == TallyFrom(term, mine, peers, rs, 1)
    ensures result.Won? <==> !AnyFatal(rs, term, mine) && peers > 0 && IsMajority(1 + CountGranted(rs), peers + 1)
    ensures result.QuorumFailure? ==> result == QuorumFailure(peers + 1, 1 + CountGranted(rs)) && !AnyFatal(rs, term, mine)
    ensures result.HigherTerm? || result.LogConflict? ==>
      exists i :: 0 <= i < |rs| && Fatal(rs[i], term, mine) && !AnyFatal(rs[..i], term, mine)
                  && result == if term < rs[i].term then HigherTerm(rs[i].term) else LogConflict(mine.index, mine.term, rs[i].last.term)
  {
    var succeed := 1;
    var i := 0;
    assert rs[0..] == rs;
    while i < |rs|
      invariant i <= |rs| && succeed == 1 + CountGranted(rs[..i])
      invariant TallyFrom(term, mine, peers, rs[i..], succeed) == TallyFrom(term, mine, peers, rs, 1)
      invariant !AnyFatal(rs[..i], term, mine)
    {
      assert rs[..i + 1][..i] == rs[..i] && rs[..i + 1][i] == rs[i];
      assert rs[i..][0] == rs[i] && rs[i..][1..] == rs[i + 1..];
      var r := rs[i];
      if r.Answered? {
        if r.granted {
          succeed := succeed + 1;
        } else if term < r.term {
          assert Fatal(rs[i], term, mine);
          return HigherTerm(r.term);
        } else if AtLeast(mine, r.last) {
          assert Fatal(rs[i], term, mine);
          return LogConflict(mine.index, mine.term, r.last.term);
        }
      }
      i := i + 1;
    }
    assert rs[..i] == rs;
    if peers > 0 && succeed > (peers + 1) / 2 {
      return Won;
    }
    return QuorumFailure(peers + 1, succeed);
  }

  /** A refusal ends the round exactly if it shows a higher term or a log at least as up to date as the candidate's. */
  lemma EndsRound(r: VoteResponse, term: nat, mine: LogId)
    ensures Fatal(r, term, mine)
            <==> r.Answered? && !r.granted
                 && (term < r.term || mine.term < r.last.term || (mine.term == r.last.term && mine.index <= r.last.index))
  {
  }

  /** Whether the round is won, said of the responses as a bag. */
  ghost predicate WonBy(rs: seq<VoteResponse>, term: nat, mine: LogId, peers: nat)
  {
    !AnyFatal(rs, term, mine) && peers > 0 && IsMajority(1 + CountGranted(rs), peers + 1)
  }

  lemma CountLast(rs: seq<VoteResponse>)
    requires rs != []
    ensures CountGranted(rs) == CountGranted(rs[..|rs| - 1]) + (if Granted(rs[|rs| - 1]) then 1 else 0)
  {
  }

  lemma {:induction false} CountRemove(rs: seq<VoteResponse>, k: nat)
    requires k < |rs|
    ensures CountGranted(rs) == CountGranted(rs[..k] + rs[k + 1..]) + (if Granted(rs[k]) then 1 else 0)
    decreases |rs|
  {
    hide CountGranted, Granted;
    var n := |rs| - 1;
    CountLast(rs);
    if k == n {
      assert rs[..k] + rs[k + 1..] == rs[..n];
    } else {
      CountRemove(rs[..n], k);
      WithoutLast(rs, k);
      CountLast(rs[..k] + rs[k + 1..]);
    }
  }

  lemma {:induction false} CountPermuted(a: seq<VoteResponse>, b: seq<VoteResponse>)
    requires multiset(a) == multiset(b)
    ensures CountGranted(a) == CountGranted(b)
    decreases |a|
  {
    if a == [] {
      assert |b| == |multiset(b)| == |multiset(a)| == 0;
    } else {
      var n := |a| - 1;
      var x := a[n];
      assert x in multiset(b);
      var k :| 0 <= k < |b| && b[k] == x;
      WithoutOne(a, n);
      WithoutOne(b, k);
      assert a[..n] + a[n + 1..] == a[..n];
      CountPermuted(a[..n], b[..k] + b[k + 1..]);
      CountRemove(b, k);
    }
  }

  lemma AnyFatalPermuted(a: seq<VoteResponse>, b: seq<VoteResponse>, term: nat, mine: LogId)
    requires multiset(a) == multiset(b) && AnyFatal(a, term, mine)
    ensures AnyFatal(b, term, mine)
  {
    var i :| 0 <= i < |a| && Fatal(a[i], term, mine);
    assert a[i] in multiset(b);
    var j :| 0 <= j < |b| && b[j] == a[i];
  }

  /** Whether a round is won does not depend on the order of the responses. */
  lemma WonInAnyOrder(a: seq<VoteResponse>, b: seq<VoteResponse>, term: nat, mine: LogId, peers: nat)
    requires multiset(a) == multiset(b)
    ensures WonBy(a, term, mine, peers) <==> WonBy(b, term, mine, peers)
  {
    CountPermuted(a, b);
    if AnyFatal(a, term, mine) { AnyFatalPermuted(a, b, term, mine); }
    if AnyFatal(b, term, mine) { AnyFatalPermuted(b, a, term, mine); }
  }

  /** The error of a lost round does depend on the order: the first refusal that ends the round names it. */
  lemma ErrorDependsOnOrder() returns (a: VoteResponse, b: VoteResponse)
    ensures TallyFrom(2, LogId(1, 1), 2, [a, b], 1) == HigherTerm(3)
    ensures TallyFrom(2, LogId(1, 1), 2, [b, a], 1) == LogConflict(1, 1, 1)
  {
    a, b := Answered(3, false, LogId(0, 0)), Answered(2, false, LogId(1, 1));
  }

  /** A refusal by a peer with an equal log loses a round in which all the others granted their vote. */
  lemma MajorityNotEnough() returns (rs: seq<VoteResponse>)
    ensures IsMajority(1 + CountGranted(rs), |rs| + 1) && !WonBy(rs, 2, LogId(5, 1), |rs|)
  {
    rs := [Answered(1, true, LogId(5, 1)), Answered(2, false, LogId(5, 1))];
    assert rs[..1] == [rs[0]];
    assert Fatal(rs[1], 2, LogId(5, 1));
  }

  // ---- What a won round says about the logs ------------------------------------------------------------

  datatype Voter = Voter(term: nat, vote: Option<VotedFor>, log: LogId)

  function Answer(v: Voter, r: VoteRequest): VoteResponse { Answered(v.term, Grants(r, v.term, v.vote, v.log), v.log) }

  /** Each asked peer answered by its own check, or the call failed. */
  ghost predicate RoundOf(r: VoteRequest, voters: map<nat, Voter>, asked: seq<nat>, rs: seq<VoteResponse>)
  {
    && |rs| == |asked|
    && (forall i, j :: 0 <= i < j < |asked| ==> asked[i] != asked[j])
    && (forall i :: 0 <= i < |asked| ==> asked[i] in voters && (rs[i].Failed? || rs[i] == Answer(voters[asked[i]], r)))
  }

  function Granters(asked: seq<nat>, rs: seq<VoteResponse>): set<nat>
    requires |rs| == |asked|
  {
    set i | 0 <= i < |asked| && Granted(rs[i]) :: asked[i]
  }

  lemma {:induction false} GrantersCounted(asked: seq<nat>, rs: seq<VoteResponse>)
    requires |rs| == |asked| && forall i, j :: 0 <= i < j < |asked| ==> asked[i] != asked[j]
    ensures |Granters(asked, rs)| == CountGranted(rs)
    decreases |rs|
  {
    if rs != [] {
      var n := |rs| - 1;
      GrantersCounted(asked[..n], rs[..n]);
      GrantersLast(asked, rs);
      assert asked[n] !in Granters(asked[..n], rs[..n]);
    }
  }

  lemma GrantersLast(asked: seq<nat>, rs: seq<VoteResponse>)
    requires |rs| == |asked| && rs != []
    ensures var n := |rs| - 1;
      Granters(asked, rs) == Granters(asked[..n], rs[..n]) + (if Granted(rs[n]) then {asked[n]} else {})
  {
    var n := |rs| - 1;
    forall p | p in Granters(asked[..n], rs[..n]) ensures p in Granters(asked, rs) {
      var i :| 0 <= i < n && Granted(rs[..n][i]) && asked[..n][i] == p;
      assert Granted(rs[i]) && asked[i] == p;
    }
    forall p | p in Granters(asked, rs) && !(Granted(rs[n]) && p == asked[n]) ensures p in Granters(asked[..n], rs[..n]) {
      var i :| 0 <= i < |asked| && Granted(rs[i]) && asked[i] == p;
      assert i < n && Granted(rs[..n][i]) && asked[..n][i] == p;
    }
  }

  /** A won round names a majority of nodes whose logs are no more up to date than the candidate's. */
  lemma WonUpToDate(r: VoteRequest, voters: map<nat, Voter>, asked: seq<nat>, rs: seq<VoteResponse>)
    requires RoundOf(r, voters, asked, rs) && WonBy(rs, r.term, r.last, |asked|)
    ensures var q := Granters(asked, rs);
      && IsMajority(|q| + 1, |asked| + 1)
      && (forall p :: p in q ==> p in asked && p in voters && AtLeast(voters[p].log, r.last))
  {
    GrantersCounted(asked, rs);
  }
}
