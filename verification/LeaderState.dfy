/** The leader's buffers as an object updated in place, proved against the pipeline's steps. */
module LeaderState {
  import opened Types
  import opened Bags
  import opened RaftLogs
  import opened LeaderPipeline
  import opened PipelineConservation
  import opened PipelineInvariants

  // ---- What has been sent ------------------------------------------------------------------------

  /** The channels used by a list of responses. */
  function Used(sent: seq<Answer>): multiset<Sender>
  {
    if sent == [] then multiset{} else Used(sent[..|sent| - 1]) + multiset{sent[|sent| - 1].sender}
  }

  ghost function Sent(sent: seq<Answer>, ran: seq<nat>): Outbox
  {
    Outbox(Used(sent), set a | a in sent, multiset(ran))
  }

  lemma SentOne(sent: seq<Answer>, ran: seq<nat>, a: Answer)
    ensures Sent(sent + [a], ran) == Send(Sent(sent, ran), a.sender, a.response, a.index)
  {
    assert (sent + [a])[..|sent|] == sent;
    assert a == Answer(a.sender, a.response, a.index);
  }

  lemma SentRun(sent: seq<Answer>, ran: seq<nat>, k: nat)
    ensures Sent(sent, ran + [k]) == Fire(Sent(sent, ran), {k})
  {
  }

  lemma ReplyFirst(o: Outbox, xs: seq<Sender>, r: Response)
    requires xs != []
    ensures Reply(o, xs, r) == Reply(Send(o, xs[0], r, 0), xs[1..], r)
  {
    assert xs == [xs[0]] + xs[1..];
    assert ToAll(xs, r) == {Answer(xs[0], r, 0)} + ToAll(xs[1..], r);
  }

  lemma ReplyNone(o: Outbox, r: Response)
    ensures Reply(o, [], r) == o && ReplyBatches(o, map[], r) == o
  {
    forall x: Sender ensures Bag<Sender>(map[])[x] == 0 { BagEmpty(x); }
    hide Bag;
  }

  /** Answering one batch first changes nothing. */
  lemma ReplyBatchFirst(o: Outbox, m: map<nat, seq<Sender>>, k: nat, r: Response)
    requires k in m
    ensures ReplyBatches(o, m, r) == ReplyBatches(Reply(o, m[k], r), m - {k}, r)
  {
    hide Bag, ToBatches, ToAll;
    BagTake(m, k);
    ToBatchesFirst(m, k, r);
  }

  lemma ToBatchesFirst(m: map<nat, seq<Sender>>, k: nat, r: Response)
    requires k in m
    ensures ToBatches(m, r) == ToAll(m[k], r) + ToBatches(m - {k}, r)
  {
    var rest := m - {k};
    forall a | a in ToBatches(m, r) ensures a in ToAll(m[k], r) + ToBatches(rest, r) {
      var j, x :| j in m && x in m[j] && a == Answer(x, r, 0);
      if j != k { assert j in rest && x in rest[j]; }
    }
    forall a | a in ToBatches(rest, r) ensures a in ToBatches(m, r) {
      var j, x :| j in rest && x in rest[j] && a == Answer(x, r, 0);
      assert j in m && x in m[j];
    }
  }

  lemma ReplyPlus(o: Outbox, a: seq<Sender>, b: seq<Sender>, r: Response)
    ensures Reply(Reply(o, a, r), b, r) == Reply(o, a + b, r)
  {
    assert ToAll(a + b, r) == ToAll(a, r) + ToAll(b, r);
  }

  // ---- Draining committed batches ------------------------------------------------------------------

  /** The writes answered as soon as they commit. */
  function Prompt(c: map<nat, WriteMetadata>): map<nat, seq<Sender>> { WriteSenders(Immediate(c)) }

  lemma PromptFirst(o: Outbox, c: map<nat, WriteMetadata>, k: nat)
    requires k in c
    ensures ReplyBatches(o, Prompt(c), WriteSuccess)
            == ReplyBatches(if c[k].waitForApply then o else Reply(o, c[k].senders, WriteSuccess), Prompt(c - {k}), WriteSuccess)
  {
    hide ReplyBatches, Reply;
    if c[k].waitForApply {
      assert Prompt(c) == Prompt(c - {k});
    } else {
      ReplyBatchFirst(o, Prompt(c), k, WriteSuccess);
      assert Prompt(c) - {k} == Prompt(c - {k});
    }
  }

  lemma SpreadFirst(m: map<nat, Sender>, c: map<nat, WriteMetadata>, k: nat)
    requires DisjointRanges(c) && k in c
    ensures m + Spread(c) == (m + Entries(c[k])) + Spread(c - {k})
  {
    hide Spread, Entries, DisjointRanges;
    SpreadStep(c, k);
  }

  lemma SpreadNone(m: map<nat, Sender>, c: map<nat, WriteMetadata>)
    requires c == map[]
    ensures m + Spread(c) == m && Prompt(c) == map[]
  {
    assert Indexes(c) == {};
  }

  lemma LaidNext(m: map<nat, Sender>, xs: seq<Sender>, first: nat, i: nat)
    requires i < |xs|
    ensures (m + Laid(xs[..i], first))[first + i := xs[i]] == m + Laid(xs[..i + 1], first)
  {
  }

  // ---- Running committed actions -------------------------------------------------------------------

  /** Everything the actions of `c` emit. */
  ghost function RunAll(o: Outbox, c: map<nat, PostCommit>): Outbox
  {
    Fire(ReplyBatches(o, JoinSenders(c), JoinSuccess), c.Keys)
  }

  lemma RunFirst(o: Outbox, c: map<nat, PostCommit>, k: nat)
    requires k in c
    ensures RunAll(o, c)
            == RunAll(Fire(if c[k].action.NodeJoin? then Send(o, c[k].action.sender, JoinSuccess, 0) else o, {k}), c - {k})
  {
    var xs := JoinSenders(c)[k];
    hide Bag, ToBatches;
    JoinSendersWithout(c, k);
    ReplyBatchFirst(o, JoinSenders(c), k, JoinSuccess);
    ReplyAtMostOne(o, c[k].action);
    assert multiset(c.Keys) == multiset{k} + multiset((c - {k}).Keys);
  }

  lemma JoinSendersWithout(c: map<nat, PostCommit>, k: nat)
    requires k in c
    ensures JoinSenders(c) - {k} == JoinSenders(c - {k})
  {
  }

  lemma ReplyAtMostOne(o: Outbox, a: Action)
    ensures Reply(o, if a.NodeJoin? then [a.sender] else [], JoinSuccess)
            == if a.NodeJoin? then Send(o, a.sender, JoinSuccess, 0) else o
  {
    ReplyNone(o, JoinSuccess);
    if a.NodeJoin? {
      assert ToAll([a.sender], JoinSuccess) == {Answer(a.sender, JoinSuccess, 0)};
    }
  }

  lemma RunNone(o: Outbox)
    ensures RunAll(o, map[]) == o
  {
    hide ReplyBatches;
    assert JoinSenders(map[]) == map[];
    ReplyNone(o, JoinSuccess);
  }

  // ---- Matching apply results -----------------------------------------------------------------------

  datatype Matched = Matched(result: ApplyResult, sender: Sender)

  function Verdict(r: ApplyResult): Response { if r.succeeded then WriteSuccess else CasFailure }

  function AnswerAll(o: Outbox, ms: seq<Matched>): Outbox
    decreases |ms|
  {
    if ms == [] then o else AnswerAll(Send(o, ms[0].sender, Verdict(ms[0].result), ms[0].result.index), ms[1..])
  }

  lemma {:induction false} AnswerLast(o: Outbox, ms: seq<Matched>, m: Matched)
    ensures AnswerAll(o, ms + [m]) == Send(AnswerAll(o, ms), m.sender, Verdict(m.result), m.result.index)
    decreases |ms|
  {
    hide Send;
    if ms == [] {
      assert AnswerAll(o, [m]) == Send(o, m.sender, Verdict(m.result), m.result.index);
      assert ms + [m] == [m];
    } else {
      AnswerLast(Send(o, ms[0].sender, Verdict(ms[0].result), ms[0].result.index), ms[1..], m);
      assert (ms + [m])[1..] == ms[1..] + [m];
    }
  }

  /** One apply result, matched or ignored. */
  lemma RespondStep(s: State, results: seq<ApplyResult>)
    requires results != []
    ensures Respond(s, results)
            == Respond(if results[0].index !in s.pendingWriteApply then s else
                       s.(pendingWriteApply := s.pendingWriteApply - {results[0].index},
                          outbox := Send(s.outbox, s.pendingWriteApply[results[0].index], Verdict(results[0]), results[0].index)),
                       results[1..])
  {
  }

  class Leader {
    const limits: Limits
    var term: nat
    var log: Log
    var commitIndex: nat
    var lastApplied: nat
    var noopLogId: Option<nat>
    var proposePayloads: seq<Payload>
    var proposeSenders: seq<Sender>
    var linearReads: seq<Sender>
    var leaseQueue: seq<Sender>
    var eventualQueue: seq<Sender>
    var pendingWrites: map<nat, WriteMetadata>
    var pendingWriteApply: map<nat, Sender>
    var pendingReads: map<nat, ReadBatch>
    var pendingLease: seq<LeaseRead>
    var commitActions: map<nat, PostCommit>
    var sent: seq<Answer>
    var ran: seq<nat>
    ghost var h: History

    /** A candidate that won its election starts with every buffer empty. */
    constructor (max: Limits, t: nat, l: Log, commit: nat, applied: nat)
      ensures Model() == State(max, t, l, commit, applied, None, [], [], [], [], [], map[], map[], map[], [], map[],
                               Outbox(multiset{}, {}, multiset{}), History({}, map[], map[], 0, {}, t, commit))
    {
      limits, term, log, commitIndex, lastApplied, noopLogId := max, t, l, commit, applied, None;
      proposePayloads, proposeSenders, linearReads, leaseQueue, eventualQueue := [], [], [], [], [];
      pendingWrites, pendingWriteApply, pendingReads, pendingLease, commitActions := map[], map[], map[], [], map[];
      sent, ran, h := [], [], History({}, map[], map[], 0, {}, t, commit);
    }

    ghost function Out(): Outbox
      reads `sent, `ran
    {
      Sent(sent, ran)
    }

    ghost function Model(): State
      reads this
    {
      State(limits, term, log, commitIndex, lastApplied, noopLogId, proposePayloads, proposeSenders, linearReads,
            leaseQueue, eventualQueue, pendingWrites, pendingWriteApply, pendingReads, pendingLease, commitActions,
            Out(), h)
    }

    // ---- Sending ---------------------------------------------------------------------------------

    method SendOne(x: Sender, r: Response, index: nat)
      modifies `sent
      ensures Out() == Send(old(Out()), x, r, index)
    {
      SentOne(sent, ran, Answer(x, r, index));
      sent := sent + [Answer(x, r, index)];
    }

    method SendAll(xs: seq<Sender>, r: Response)
      modifies `sent
      ensures Out() == Reply(old(Out()), xs, r)
    {
      hide Send, Reply, Sent;
      var i := 0;
      while i < |xs|
        invariant i <= |xs|
        invariant Reply(Out(), xs[i..], r) == Reply(old(Out()), xs, r)
      {
        ReplyFirst(Out(), xs[i..], r);
        SendOne(xs[i], r, 0);
        assert xs[i..][1..] == xs[i + 1..];
        i := i + 1;
      }
      assert xs[i..] == [];
      ReplyNone(Out(), r);
    }

    method SendBatches(m: map<nat, seq<Sender>>, r: Response)
      modifies `sent
      ensures Out() == ReplyBatches(old(Out()), m, r)
    {
      hide Reply, ReplyBatches, Sent;
      var rest := m;
      while rest != map[]
        invariant ReplyBatches(Out(), rest, r) == ReplyBatches(old(Out()), m, r)
        decreases |rest|
      {
        var k :| k in rest;
        ReplyBatchFirst(Out(), rest, k, r);
        SendAll(rest[k], r);
        rest := rest - {k};
      }
      ReplyNone(Out(), r);
    }

    // ---- Accepting client commands ------------------------------------------------------------------

    ghost method Register(x: Sender)
      modifies `h
      ensures Model() == old(Model()).(h := old(h).(seen := old(h).seen + {x}))
    {
      h := h.(seen := h.seen + {x});
    }

    method PushPropose(x: Sender, cmd: Option<string>)
      modifies this
      ensures Model() == LeaderPipeline.PushPropose(old(Model()), x, cmd)
    {
      hide Reply, Sent;
      Register(x);
      if limits.maxWrites > 0 && |proposeSenders| >= limits.maxWrites {
        SendAll([x], Refused(ResourceExhausted));
      } else if cmd.None? {
        SendAll([x], Refused(InvalidArgument));
      } else {
        QueueWrite(x, Command(cmd.value));
      }
    }

    method QueueWrite(x: Sender, p: Payload)
      modifies `proposePayloads, `proposeSenders, `h
      ensures var s := old(Model());
        Model() == s.(proposePayloads := s.proposePayloads + [p], proposeSenders := s.proposeSenders + [x],
                      h := s.h.(tickets := s.h.tickets[x := Ticket(|s.h.tickets|, p)]))
    {
      hide Sent;
      proposePayloads, proposeSenders := proposePayloads + [p], proposeSenders + [x];
      h := h.(tickets := h.tickets[x := Ticket(|h.tickets|, p)]);
    }

    method PushRead(x: Sender, policy: ReadPolicy)
      modifies this
      ensures Model() == LeaderPipeline.PushRead(old(Model()), x, policy)
    {
      hide Reply, Sent;
      Register(x);
      var queued := match policy case Linearizable => |linearReads| case Lease => |leaseQueue| case Eventual => |eventualQueue|;
      if limits.maxReads > 0 && queued >= limits.maxReads {
        SendAll([x], Refused(ResourceExhausted));
      } else {
        match policy
        case Linearizable => linearReads := linearReads + [x];
        case Lease => leaseQueue := leaseQueue + [x];
        case Eventual => eventualQueue := eventualQueue + [x];
      }
    }

    method PushScan(x: Sender)
      modifies this
      ensures Model() == LeaderPipeline.PushScan(old(Model()), x)
    {
      hide Reply, Sent;
      h := h.(seen := h.seen + {x});
      SendAll([x], ReadResults(lastApplied));
    }

    // ---- Commit ------------------------------------------------------------------------------------------

    method DrainPendingClientWrites(n: nat)
      requires DisjointRanges(pendingWrites)
      modifies `pendingWrites, `pendingWriteApply, `sent
      ensures Model() == DrainWrites(old(Model()), n)
    {
      hide Spread, ReplyBatches, Sent, DisjointRanges, Upto, Above, WriteSenders, Immediate;
      var committed := Upto(pendingWrites, n);
      RangesUpto(pendingWrites, n);
      pendingWrites := Above(pendingWrites, n);
      PassAllOn(committed);
    }

    method PassAllOn(committed: map<nat, WriteMetadata>)
      requires DisjointRanges(committed)
      modifies `pendingWriteApply, `sent
      ensures pendingWriteApply == old(pendingWriteApply) + Spread(committed)
      ensures Out() == ReplyBatches(old(Out()), Prompt(committed), WriteSuccess)
    {
      hide Spread, Prompt, ReplyBatches, Reply, Sent, DisjointRanges, Laid, Entries;
      var rest := committed;
      while rest != map[]
        invariant DisjointRanges(rest)
        invariant pendingWriteApply + Spread(rest) == old(pendingWriteApply) + Spread(committed)
        invariant ReplyBatches(Out(), Prompt(rest), WriteSuccess) == ReplyBatches(old(Out()), Prompt(committed), WriteSuccess)
        decreases |rest|
      {
        var k :| k in rest;
        SpreadFirst(pendingWriteApply, rest, k);
        PromptFirst(Out(), rest, k);
        DisjointWithout(rest, k);
        PassOn(rest[k]);
        rest := rest - {k};
      }
      SpreadNone(pendingWriteApply, rest);
      ReplyNone(Out(), WriteSuccess);
    }

    /** One committed batch: its channels wait per index, or are answered at once. */
    method PassOn(meta: WriteMetadata)
      modifies `pendingWriteApply, `sent
      ensures pendingWriteApply == old(pendingWriteApply) + Entries(meta)
      ensures Out() == if meta.waitForApply then old(Out()) else Reply(old(Out()), meta.senders, WriteSuccess)
    {
      hide Laid, Reply, Sent;
      if meta.waitForApply {
        LaidNothing(pendingWriteApply, meta.start);
        var i := 0;
        while i < |meta.senders|
          invariant i <= |meta.senders|
          invariant pendingWriteApply == old(pendingWriteApply) + Laid(meta.senders[..i], meta.start)
          invariant Out() == old(Out())
        {
          LaidNext(old(pendingWriteApply), meta.senders, meta.start, i);
          pendingWriteApply := pendingWriteApply[meta.start + i := meta.senders[i]];
          i := i + 1;
        }
        assert meta.senders[..i] == meta.senders;
      } else {
        SendAll(meta.senders, WriteSuccess);
        assert pendingWriteApply + map[] == pendingWriteApply;
      }
    }

    method DrainCommitActions(n: nat)
      modifies `commitActions, `noopLogId, `sent, `ran
      ensures Model() == DrainActions(old(Model()), n)
    {
      hide Fire, ReplyBatches, JoinSenders, Sent, Upto, Above;
      var committed := Upto(commitActions, n);
      commitActions := Above(commitActions, n);
      RunActions(committed);
    }

    method RunActions(committed: map<nat, PostCommit>)
      modifies `noopLogId, `sent, `ran
      ensures Out() == RunAll(old(Out()), committed)
      ensures noopLogId == if HasNoop(committed) then Some(log.maxIndex) else old(noopLogId)
    {
      hide RunAll, Fire, Send, Sent;
      var rest := committed;
      while rest != map[]
        invariant RunAll(Out(), rest) == RunAll(old(Out()), committed)
        invariant (if HasNoop(rest) then Some(log.maxIndex) else noopLogId)
               == (if HasNoop(committed) then Some(log.maxIndex) else old(noopLogId))
        decreases |rest|
      {
        var k :| k in rest;
        RunFirst(Out(), rest, k);
        NoopFirst(rest, k);
        hide HasNoop;
        match rest[k].action {
          case LeaderNoop(_) => noopLogId := Some(log.maxIndex);
          case NodeJoin(x) => SendOne(x, JoinSuccess, 0);
        }
        SentRun(sent, ran, k);
        ran := ran + [k];
        rest := rest - {k};
      }
      RunNone(Out());
    }

    method Commit(n: nat)
      requires DisjointRanges(pendingWrites)
      modifies `commitIndex, `pendingWrites, `pendingWriteApply, `commitActions, `noopLogId, `sent, `ran
      ensures Model() == CommitTo(old(Model()), n)
    {
      hide DrainWrites, DrainActions, Sent;
      commitIndex := n;
      DrainPendingClientWrites(n);
      DrainCommitActions(n);
    }

    // ---- Apply ---------------------------------------------------------------------------------------------

    method HandleApplyCompleted(last: nat, results: seq<ApplyResult>)
      modifies `pendingWriteApply, `pendingReads, `sent, `h
      ensures Model() == ApplyCompleted(old(Model()), last, results)
    {
      hide Respond, ServeReads, AnswerAll, Sent, ResultSet;
      Report(results);
      var matched := MatchResults(results);
      SendMatched(matched);
      ServePendingReads(last);
    }

    ghost method Report(results: seq<ApplyResult>)
      modifies `h
      ensures Model() == old(Model()).(h := old(h).(reported := old(h).reported + ResultSet(results)))
    {
      hide Sent, ResultSet;
      h := h.(reported := h.reported + ResultSet(results));
    }

    /** The results of waiting writes, taken out of the buffer in the order reported. */
    method MatchResults(results: seq<ApplyResult>) returns (matched: seq<Matched>)
      modifies `pendingWriteApply
      ensures Respond(old(Model()), results)
              == old(Model()).(pendingWriteApply := pendingWriteApply, outbox := AnswerAll(Out(), matched))
    {
      hide Respond, AnswerAll, Send, Sent;
      ghost var s0 := Model();
      matched := [];
      AnswerNone(Out());
      var i := 0;
      while i < |results|
        invariant i <= |results|
        invariant Respond(s0, results)
               == Respond(s0.(pendingWriteApply := pendingWriteApply, outbox := AnswerAll(s0.outbox, matched)), results[i..])
      {
        var r := results[i];
        RespondStep(s0.(pendingWriteApply := pendingWriteApply, outbox := AnswerAll(s0.outbox, matched)), results[i..]);
        assert results[i..][1..] == results[i + 1..];
        if r.index in pendingWriteApply {
          AnswerLast(s0.outbox, matched, Matched(r, pendingWriteApply[r.index]));
          matched := matched + [Matched(r, pendingWriteApply[r.index])];
          pendingWriteApply := pendingWriteApply - {r.index};
        }
        i := i + 1;
      }
      RespondNone(s0.(pendingWriteApply := pendingWriteApply, outbox := AnswerAll(s0.outbox, matched)), results[i..]);
    }

    method ServePendingReads(n: nat)
      modifies `pendingReads, `sent
      ensures Model() == ServeReads(old(Model()), n)
    {
      hide ReplyBatches, Sent, Upto, Above, ReadSenders;
      SendBatches(ReadSenders(Upto(pendingReads, n)), ReadResults(lastApplied));
      pendingReads := Above(pendingReads, n);
    }

    method SendMatched(matched: seq<Matched>)
      modifies `sent
      ensures Out() == AnswerAll(old(Out()), matched)
    {
      hide AnswerAll, Send, Sent;
      var j := 0;
      while j < |matched|
        invariant j <= |matched|
        invariant AnswerAll(Out(), matched[j..]) == AnswerAll(old(Out()), matched)
      {
        AnswerFirst(Out(), matched[j..]);
        assert matched[j..][1..] == matched[j + 1..];
        SendOne(matched[j].sender, Verdict(matched[j].result), matched[j].result.index);
        j := j + 1;
      }
      assert matched[j..] == [];
      AnswerNone(Out());
    }

    method HandleQuorumAck()
      modifies `pendingLease, `pendingReads, `sent
      ensures Model() == AckQuorum(old(Model()))
    {
      hide ServeLease, ServeReads, Sent;
      DrainLeaseReads();
      ServePendingReads(lastApplied);
    }

    method DrainLeaseReads()
      modifies `pendingLease, `sent
      ensures Model() == ServeLease(old(Model()))
    {
      hide Reply, Sent, LeaseSenders;
      var xs := LeaseSenders(pendingLease);
      pendingLease := [];
      SendAll(xs, ReadResults(lastApplied));
    }

    // ---- Expiry and giving up --------------------------------------------------------------------------------

    method ExpirePending(now: nat)
      modifies `pendingWrites, `pendingReads, `pendingLease, `commitActions, `sent
      ensures Model() == Expire(old(Model()), now)
    {
      hide Sent, LateWrites, LateReads, LateLease, LateActions, Expire;
      ExpireInTurn(Model(), now);
      ExpireWrites(now);
      ExpireReads(now);
      ExpireLeaseReads(now);
      ExpireActions(now);
    }

    method ExpireWrites(now: nat)
      modifies `pendingWrites, `sent
      ensures Model() == LateWrites(old(Model()), now)
    {
      hide Sent, ReplyBatches, WriteSenders, LiveWrites, ExpiredWrites;
      SendBatches(WriteSenders(ExpiredWrites(pendingWrites, now)), Refused(DeadlineExceeded));
      pendingWrites := LiveWrites(pendingWrites, now);
    }

    method ExpireReads(now: nat)
      modifies `pendingReads, `sent
      ensures Model() == LateReads(old(Model()), now)
    {
      hide Sent, ReplyBatches, ReadSenders, LiveReads, ExpiredReads;
      SendBatches(ReadSenders(ExpiredReads(pendingReads, now)), Refused(DeadlineExceeded));
      pendingReads := LiveReads(pendingReads, now);
    }

    method ExpireActions(now: nat)
      modifies `commitActions, `sent
      ensures Model() == LateActions(old(Model()), now)
    {
      hide Sent, ReplyBatches, JoinSenders, LiveActions, ExpiredActions;
      SendBatches(JoinSenders(ExpiredActions(commitActions, now)), Refused(DeadlineExceeded));
      commitActions := LiveActions(commitActions, now);
    }

    method ExpireLeaseReads(now: nat)
      modifies `pendingLease, `sent
      ensures Model() == LateLease(old(Model()), now)
    {
      hide Reply, Sent, LiveLease, ExpiredLease;
      SplitLeaseReads(now);
    }

    method SplitLeaseReads(now: nat)
      modifies `pendingLease, `sent
      ensures pendingLease == LiveLease(old(pendingLease), now)
      ensures Out() == Reply(old(Out()), ExpiredLease(old(pendingLease), now), Refused(DeadlineExceeded))
    {
      hide Reply, Send, Sent;
      var q := pendingLease;
      var unexpired: seq<LeaseRead> := [];
      var i := 0;
      while i < |q|
        invariant i <= |q|
        invariant unexpired + LiveLease(q[i..], now) == LiveLease(q, now)
        invariant Reply(Out(), ExpiredLease(q[i..], now), Refused(DeadlineExceeded))
               == Reply(old(Out()), ExpiredLease(q, now), Refused(DeadlineExceeded))
        modifies `sent
      {
        var entry := q[i];
        assert q[i..][1..] == q[i + 1..];
        if entry.deadline <= now {
          var late := ExpiredLease(q[i..], now);
          assert late[1..] == ExpiredLease(q[i + 1..], now);
          ReplyFirst(Out(), late, Refused(DeadlineExceeded));
          SendOne(entry.sender, Refused(DeadlineExceeded), 0);
        } else {
          unexpired := unexpired + [entry];
        }
        i := i + 1;
      }
      assert q[i..] == [];
      ReplyNone(Out(), Refused(DeadlineExceeded));
      pendingLease := unexpired;
    }

    method FailPendingWrites(code: ErrorCode)
      modifies `pendingWrites, `sent
      ensures Model() == FailWrites(old(Model()), code)
    {
      hide ReplyBatches, Sent, WriteSenders;
      SendBatches(WriteSenders(pendingWrites), ClientError(code));
      pendingWrites := map[];
    }

    /** A higher term in a peer's answer is taken over at once; the step-down follows as an event of its own. */
    method AdoptTerm(t: nat)
      modifies `term, `pendingWrites, `sent
      ensures Model() == FailWrites(old(Model()).(term := t), TermOutdated)
    {
      hide FailWrites, Sent;
      term := t;
      FailPendingWrites(TermOutdated);
    }

    /** The three read queues, each answered in turn. */
    method FailQueues(r: Response)
      modifies `linearReads, `leaseQueue, `eventualQueue, `sent
      ensures linearReads == leaseQueue == eventualQueue == []
      ensures Out() == Reply(old(Out()), old(linearReads + leaseQueue + eventualQueue), r)
    {
      hide Reply, Sent;
      ReplyPlus(Out(), linearReads, leaseQueue, r);
      ReplyPlus(Out(), linearReads + leaseQueue, eventualQueue, r);
      SendAll(linearReads, r);
      linearReads := [];
      SendAll(leaseQueue, r);
      leaseQueue := [];
      SendAll(eventualQueue, r);
      eventualQueue := [];
    }

    method DrainReadBuffer()
      modifies `linearReads, `leaseQueue, `eventualQueue, `pendingReads, `pendingLease, `proposePayloads, `proposeSenders,
               `pendingWrites, `sent
      ensures Model() == StepDown(old(Model()))
    {
      hide Sent, NoQueues, NoReads, NoLease, NoProposals, FailWrites, StepDown;
      StepDownInTurn(Model());
      DrainQueues(Refused(Unavailable));
      DrainPendingReads(Refused(Unavailable));
      DrainPendingLease();
      DrainProposals();
      FailPendingWrites(ProposeFailed);
    }

    method DrainQueues(r: Response)
      modifies `linearReads, `leaseQueue, `eventualQueue, `sent
      ensures Model() == NoQueues(old(Model()), r)
    {
      hide Reply, Sent;
      FailQueues(r);
    }

    method DrainPendingReads(r: Response)
      modifies `pendingReads, `sent
      ensures Model() == NoReads(old(Model()), r)
    {
      hide ReplyBatches, Sent, ReadSenders;
      SendBatches(ReadSenders(pendingReads), r);
      pendingReads := map[];
    }

    method DrainPendingLease()
      modifies `pendingLease, `sent
      ensures Model() == NoLease(old(Model()))
    {
      hide Reply, Sent, LeaseSenders;
      SendAll(LeaseSenders(pendingLease), Refused(Unavailable));
      pendingLease := [];
    }

    method DrainProposals()
      modifies `proposePayloads, `proposeSenders, `sent
      ensures Model() == NoProposals(old(Model()))
    {
      hide Reply, Sent;
      SendAll(proposeSenders, Refused(FailedPrecondition));
      proposePayloads, proposeSenders := [], [];
    }

    method HandleFatalError()
      modifies `pendingWriteApply, `linearReads, `leaseQueue, `eventualQueue, `pendingReads, `sent
      ensures Model() == Fatal(old(Model()))
    {
      hide Sent, NoApply, NoQueues, NoReads, Fatal;
      FatalInTurn(Model());
      FailApply();
      DrainQueues(Refused(Internal));
      DrainPendingReads(Refused(Internal));
    }

    method FailApply()
      modifies `pendingWriteApply, `sent
      ensures Model() == NoApply(old(Model()))
    {
      hide ReplyBatches, Sent, ApplySenders;
      SendBatches(ApplySenders(pendingWriteApply), Refused(Internal));
      pendingWriteApply := map[];
    }

    // ---- Executing a batch --------------------------------------------------------------------------------------

    method RouteReads(readers: seq<Sender>, env: Env)
      modifies `pendingReads, `sent
      ensures Model() == LeaderPipeline.RouteReads(old(Model()), readers, env)
    {
      hide Reply, Sent, Await;
      if readers == [] {
        return;
      }
      if noopLogId.None? {
        SendAll(readers, Refused(Unavailable));
        return;
      }
      var readIndex := if commitIndex < noopLogId.value then noopLogId.value else commitIndex;
      if env.confirmed && lastApplied >= readIndex {
        SendAll(readers, ReadResults(lastApplied));
      } else {
        pendingReads := Await(pendingReads, readIndex, readers, env.now + env.timeout);
      }
    }

    /** `execute_and_process_raft_rpc`, phases 0 to 3; false if the log refused the batch. */
    method ExecuteBatch(payloads: seq<Payload>, senders: seq<Sender>, readers: seq<Sender>, env: Env) returns (ok: bool)
      modifies `log, `pendingWrites, `pendingReads, `sent, `h
      ensures ok == Accepts(old(log), payloads)
      ensures Model() == Execute(old(Model()), payloads, senders, readers, env)
    {
      hide Sent, PrepareFailed, StoreWrites, LeaderPipeline.RouteReads;
      ok := payloads == [] || !log.poisoned;
      if ok {
        StoreBatch(payloads, senders, env);
        RouteReads(readers, env);
      } else {
        RefuseBatch(payloads, senders, readers);
      }
    }

    method RefuseBatch(payloads: seq<Payload>, senders: seq<Sender>, readers: seq<Sender>)
      modifies `log, `sent
      ensures Model() == PrepareFailed(old(Model()), payloads, senders, readers)
    {
      hide Reply, Sent, Append;
      log := Append(log, term, payloads);
      SendAll(senders, ClientError(ProposeFailed));
      SendAll(readers, Refused(FailedPrecondition));
    }

    method StoreBatch(payloads: seq<Payload>, senders: seq<Sender>, env: Env)
      modifies `log, `pendingWrites, `h
      ensures Model() == StoreWrites(old(Model()), payloads, senders, env)
    {
      hide Sent, Append, Laid;
      var start := log.maxIndex + 1;
      h := h.(origin := h.origin + Laid(senders, log.nextId));
      log := Append(log, term, payloads);
      if senders != [] {
        pendingWrites := pendingWrites[start + |senders| - 1 := WriteMetadata(start, senders, true, env.now + env.timeout)];
      }
    }

    method ServeLeaseReads(env: Env)
      modifies `leaseQueue, `pendingLease, `sent
      ensures leaseQueue == []
      ensures pendingLease == old(pendingLease) + Stamp(Without(old(leaseQueue), env.leaseServed), env.now + env.timeout)
      ensures Out() == Reply(old(Out()), Filter(old(leaseQueue), env.leaseServed), ReadResults(lastApplied))
    {
      hide Reply, Send, Sent;
      ghost var q := leaseQueue;
      while leaseQueue != []
        invariant pendingLease + Stamp(Without(leaseQueue, env.leaseServed), env.now + env.timeout)
               == old(pendingLease) + Stamp(Without(q, env.leaseServed), env.now + env.timeout)
        invariant Reply(Out(), Filter(leaseQueue, env.leaseServed), ReadResults(lastApplied))
               == Reply(old(Out()), Filter(q, env.leaseServed), ReadResults(lastApplied))
        decreases |leaseQueue|
      {
        var x := leaseQueue[0];
        if x in env.leaseServed {
          var served := Filter(leaseQueue, env.leaseServed);
          ReplyFirst(Out(), served, ReadResults(lastApplied));
          assert served[1..] == Filter(leaseQueue[1..], env.leaseServed);
          SendOne(x, ReadResults(lastApplied), 0);
        } else {
          StampFirst(pendingLease, leaseQueue, env);
          pendingLease := pendingLease + [LeaseRead(x, env.now + env.timeout)];
        }
        leaseQueue := leaseQueue[1..];
      }
      ReplyNone(Out(), ReadResults(lastApplied));
    }

    method ServeQueues(env: Env)
      modifies `leaseQueue, `eventualQueue, `pendingLease, `sent
      ensures Model() == LeaderPipeline.ServeQueues(old(Model()), env)
    {
      hide Reply, Sent, Filter, Without, Stamp;
      ServeLeaseReads(env);
      SendAll(eventualQueue, ReadResults(lastApplied));
      eventualQueue := [];
    }

    method TakeBuffers() returns (payloads: seq<Payload>, senders: seq<Sender>, readers: seq<Sender>)
      modifies `proposePayloads, `proposeSenders, `linearReads
      ensures Model() == FlushPropose(old(Model())).(linearReads := [])
      ensures payloads == old(proposePayloads) && senders == old(proposeSenders) && readers == old(linearReads)
    {
      hide Sent;
      payloads, senders, readers := proposePayloads, proposeSenders, linearReads;
      proposePayloads, proposeSenders, linearReads := [], [], [];
    }

    method FlushCmdBuffers(env: Env)
      modifies this
      ensures Model() == Flush(old(Model()), env)
    {
      hide Execute, LeaderPipeline.ServeQueues, Accepts, Sent;
      var payloads, senders, readers := TakeBuffers();
      var ok := ExecuteBatch(payloads, senders, readers, env);
      if ok { ServeQueues(env); }
    }

    method Tick(heartbeat: bool, env: Env)
      modifies this
      ensures Model() == LeaderPipeline.Tick(old(Model()), heartbeat, env)
    {
      hide Execute, Expire, Accepts, Sent;
      if heartbeat {
        var payloads, senders := proposePayloads, proposeSenders;
        proposePayloads, proposeSenders := [], [];
        var ok := ExecuteBatch(payloads, senders, [], env);
        if !ok { return; }
      }
      ExpirePending(env.now);
    }

    // ---- The leader's own entries ----------------------------------------------------------------------------------

    method InitiateNoop(deadline: nat)
      modifies `log, `commitActions, `h
      ensures Model() == LeaderPipeline.InitiateNoop(old(Model()), deadline)
    {
      hide Append, Sent;
      var predicted := log.maxIndex + 1;
      ghost var stored := log.nextId;
      var failed := log.poisoned;
      log := Append(log, term, [Noop]);
      if failed { return; }
      commitActions := commitActions[predicted := PostCommit(deadline, LeaderNoop(term))];
      h := h.(noopIndex := stored);
    }

    method HandleJoin(x: Sender, admitted: bool, change: nat, deadline: nat)
      modifies `log, `commitActions, `sent, `h
      ensures Model() == Join(old(Model()), x, admitted, change, deadline)
    {
      hide Append, Reply, Sent;
      Register(x);
      if !admitted {
        SendAll([x], Refused(FailedPrecondition));
        return;
      }
      var failed := log.poisoned;
      log := Append(log, term, [Config(change)]);
      if failed {
        SendAll([x], Refused(FailedPrecondition));
      } else {
        commitActions := commitActions[log.maxIndex := PostCommit(deadline, NodeJoin(x))];
      }
    }

    /** One event of the loop.  The object follows the state machine on every reachable state. */
    method Handle(e: Event)
      requires Inv(Model()) && Enabled(Model(), e)
      modifies this
      ensures Model() == Next(old(Model()), e)
      ensures Inv(Model())
    {
      hide Inv, Flush, LeaderPipeline.Tick, CommitTo, ServeLease, AckQuorum, ApplyCompleted, FailWrites, StepDown, Fatal, Join, Append;
      hide LeaderPipeline.PushPropose, LeaderPipeline.PushRead, LeaderPipeline.PushScan, Sent, DisjointRanges;
      WritesFacts(Model());
      NextInv(Model(), e);
      match e
      case Propose(x, cmd) => PushPropose(x, cmd);
      case Read(x, policy) => PushRead(x, policy);
      case Scan(x) => PushScan(x);
      case FlushBuffers(env) => FlushCmdBuffers(env);
      case TickAt(heartbeat, env) => Tick(heartbeat, env);
      case Committed(n) => Commit(n);
      case LeaseRenewed => DrainLeaseReads();
      case QuorumAcked => HandleQuorumAck();
      case StateMachineApplied(n) => lastApplied := n;
      case ApplyReported(last, results) => HandleApplyCompleted(last, results);
      case HigherTermSeen(t) => AdoptTerm(t);
      case VoteSeen(t) => term := t;
      case SteppedDown => DrainReadBuffer();
      case FatalError => HandleFatalError();
      case JoinRequested(x, admitted, change, deadline) => HandleJoin(x, admitted, change, deadline);
      case ConfigProposed(change) => log := Append(log, term, [Config(change)]);
      case DiskPoisoned => log := log.(poisoned := true);
    }
  }

  // ---- Expiry and step-down, one buffer at a time ---------------------------------------------------------

  ghost function LateWrites(s: State, now: nat): State
  {
    s.(pendingWrites := LiveWrites(s.pendingWrites, now),
       outbox := ReplyBatches(s.outbox, WriteSenders(ExpiredWrites(s.pendingWrites, now)), Refused(DeadlineExceeded)))
  }

  ghost function LateReads(s: State, now: nat): State
  {
    s.(pendingReads := LiveReads(s.pendingReads, now),
       outbox := ReplyBatches(s.outbox, ReadSenders(ExpiredReads(s.pendingReads, now)), Refused(DeadlineExceeded)))
  }

  ghost function LateLease(s: State, now: nat): State
  {
    s.(pendingLease := LiveLease(s.pendingLease, now),
       outbox := Reply(s.outbox, ExpiredLease(s.pendingLease, now), Refused(DeadlineExceeded)))
  }

  ghost function LateActions(s: State, now: nat): State
  {
    s.(commitActions := LiveActions(s.commitActions, now),
       outbox := ReplyBatches(s.outbox, JoinSenders(ExpiredActions(s.commitActions, now)), Refused(DeadlineExceeded)))
  }

  lemma ExpireInTurn(s: State, now: nat)
    ensures LateActions(LateLease(LateReads(LateWrites(s, now), now), now), now) == Expire(s, now)
  {
    hide Reply, ReplyBatches, WriteSenders, ReadSenders, JoinSenders, LiveLease, ExpiredLease;
    hide LiveWrites, LiveReads, LiveActions, ExpiredWrites, ExpiredReads, ExpiredActions;
  }

  ghost function NoQueues(s: State, r: Response): State
  {
    s.(linearReads := [], leaseQueue := [], eventualQueue := [],
       outbox := Reply(s.outbox, s.linearReads + s.leaseQueue + s.eventualQueue, r))
  }

  ghost function NoReads(s: State, r: Response): State
  {
    s.(pendingReads := map[], outbox := ReplyBatches(s.outbox, ReadSenders(s.pendingReads), r))
  }

  ghost function NoApply(s: State): State
  {
    s.(pendingWriteApply := map[], outbox := ReplyBatches(s.outbox, ApplySenders(s.pendingWriteApply), Refused(Internal)))
  }

  lemma FatalInTurn(s: State)
    ensures NoReads(NoQueues(NoApply(s), Refused(Internal)), Refused(Internal)) == Fatal(s)
  {
    hide Reply, ReplyBatches, ReadSenders, ApplySenders;
  }

  ghost function NoLease(s: State): State
  {
    s.(pendingLease := [], outbox := Reply(s.outbox, LeaseSenders(s.pendingLease), Refused(Unavailable)))
  }

  ghost function NoProposals(s: State): State
  {
    s.(proposePayloads := [], proposeSenders := [], outbox := Reply(s.outbox, s.proposeSenders, Refused(FailedPrecondition)))
  }

  lemma StepDownInTurn(s: State)
    ensures FailWrites(NoProposals(NoLease(NoReads(NoQueues(s, Refused(Unavailable)), Refused(Unavailable)))), ProposeFailed)
            == StepDown(s)
  {
    hide Reply, ReplyBatches, ReadSenders, WriteSenders, LeaseSenders;
  }

  lemma StampFirst(p: seq<LeaseRead>, q: seq<Sender>, env: Env)
    requires q != [] && q[0] !in env.leaseServed
    ensures p + Stamp(Without(q, env.leaseServed), env.now + env.timeout)
            == (p + [LeaseRead(q[0], env.now + env.timeout)]) + Stamp(Without(q[1..], env.leaseServed), env.now + env.timeout)
  {
    var w := Without(q, env.leaseServed);
    assert w[1..] == Without(q[1..], env.leaseServed);
  }

  lemma RangesUpto(c: map<nat, WriteMetadata>, n: nat)
    requires DisjointRanges(c)
    ensures DisjointRanges(Upto(c, n))
  {
  }

  lemma NoopFirst(c: map<nat, PostCommit>, k: nat)
    requires k in c
    ensures HasNoop(c) == (HasNoop(c - {k}) || c[k].action.LeaderNoop?)
  {
    if HasNoop(c) {
      var j :| j in c && c[j].action.LeaderNoop?;
      if j != k { assert (c - {k})[j].action.LeaderNoop?; }
    }
  }

  lemma AnswerNone(o: Outbox)
    ensures AnswerAll(o, []) == o
  {
  }

  lemma AnswerFirst(o: Outbox, ms: seq<Matched>)
    requires ms != []
    ensures AnswerAll(o, ms) == AnswerAll(Send(o, ms[0].sender, Verdict(ms[0].result), ms[0].result.index), ms[1..])
  {
  }

  lemma RespondNone(s: State, results: seq<ApplyResult>)
    requires results == []
    ensures Respond(s, results) == s
  {
  }
}
