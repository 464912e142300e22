/** What every reachable state of the leader's pipeline satisfies. */
module PipelineInvariants {
  import opened Types
  import opened Bags
  import opened RaftLogs
  import opened LeaderPipeline
  import opened PipelineConservation

  // ---- The invariant ----------------------------------------------------------------------
  // Each part names exactly the fields it constrains.

  /** Entries of the term the leader was elected in, or of a later one, start at its no-op. */
  ghost predicate LogOk(l: Log, since: nat, commit: nat, floor: nat, applied: nat, noop: nat)
  {
    && Bounded(l)
    && (!l.poisoned ==> Aligned(l))
    && applied <= commit && floor <= l.maxIndex
    && noop <= l.maxIndex
    && (noop == 0 ==> l.poisoned)
    && (0 < noop ==> noop in l.entries && l.entries[noop] == Entry(since, Noop))
    && (forall i :: i in l.entries && since <= l.entries[i].term ==> 0 < noop <= i)
  }

  /** Joins wait above the floor, the no-op under its predicted index; all run once; a confirmed no-op is committed. */
  ghost predicate ActionsOk(m: map<nat, PostCommit>, fired: multiset<nat>, commit: nat, floor: nat, max: nat,
                            noop: nat, noopLogId: Option<nat>)
  {
    && (forall k :: k in m ==> k <= max && k !in fired && (if m[k].action.LeaderNoop? then 0 < noop else floor < k))
    && (noopLogId.Some? ==> 0 < noop <= commit && noop <= noopLogId.value)
    && (forall k :: k in fired ==> fired[k] == 1 && k <= commit && k <= max)
  }

  /** Write batches wait above the floor, over disjoint ranges of their own entries. */
  ghost predicate WritesOk(c: map<nat, WriteMetadata>, origin: map<nat, Sender>, floor: nat, max: nat)
  {
    && DisjointBatches(c)
    && (forall k :: k in c ==> floor < k <= max)
    && (forall k, i :: Held(c, origin, k, i))
  }

  /** If batch `k` covers index `i`, it holds the channel of the write stored there. */
  ghost predicate Held(c: map<nat, WriteMetadata>, origin: map<nat, Sender>, k: nat, i: nat)
  {
    Covers(c, k, i) ==> i in origin && origin[i] == Laid(c[k].senders, c[k].start)[i]
  }

  /** Committed writes wait for the result of their own entry. */
  ghost predicate ApplyOk(m: map<nat, Sender>, c: map<nat, WriteMetadata>, origin: map<nat, Sender>, commit: nat)
  {
    && (forall i :: i in m ==> i <= commit && i in origin && origin[i] == m[i])
    && Before(m, c)
  }

  /** Accepted writes reach the log with their payload, in the order they were accepted. */
  ghost predicate OriginOk(origin: map<nat, Sender>, tickets: map<Sender, Ticket>, entries: map<nat, Entry>, since: nat)
  {
    && (forall i :: i in origin ==> i in entries && origin[i] in tickets)
    && (forall i :: i in origin ==> since <= entries[i].term && entries[i].payload == tickets[origin[i]].payload)
    && (forall i, j :: i in origin && j in origin && i < j ==> tickets[origin[i]].order < tickets[origin[j]].order)
  }

  /** `senders` were accepted with `payloads`, one after the other, after every stored write. */
  ghost predicate Ready(origin: map<nat, Sender>, tickets: map<Sender, Ticket>, payloads: seq<Payload>, senders: seq<Sender>)
  {
    && |payloads| == |senders|
    && (forall p :: 0 <= p < |senders| ==> senders[p] in tickets && tickets[senders[p]].payload == payloads[p])
    && (forall p, q :: 0 <= p < q < |senders| ==> tickets[senders[p]].order < tickets[senders[q]].order)
    && (forall i, p :: i in origin && origin[i] in tickets && 0 <= p < |senders| ==>
          tickets[origin[i]].order < tickets[senders[p]].order)
  }

  ghost predicate TicketsOk(tickets: map<Sender, Ticket>, seen: set<Sender>)
  {
    && tickets.Keys <= seen
    && (forall x :: x in tickets ==> tickets[x].order < |tickets|)
  }

  /** The outcome of an apply, as opposed to an error. */
  predicate Outcome(r: Response) { r.WriteSuccess? || r.CasFailure? }

  /** An apply outcome goes to the channel of the write stored at the reported index. */
  ghost predicate AnswerOk(a: Answer, origin: map<nat, Sender>, applied: nat, reported: set<ApplyResult>)
  {
    && (Outcome(a.response) ==> 
          && a.index in origin && origin[a.index] == a.sender && a.index <= applied
          && ApplyResult(a.index, a.response.WriteSuccess?) in reported)
    && (a.response.ReadResults? ==> a.response.applied <= applied)
  }

  ghost predicate AnswersOk(o: Outbox, origin: map<nat, Sender>, applied: nat, reported: set<ApplyResult>)
  {
    forall a :: a in o.answers ==> a.sender in o.answered && AnswerOk(a, origin, applied, reported)
  }

  /** What waits lies above the commit index, unless the leader was elected with a commit index beyond its no-op. */
  function Floor(s: State): nat { if s.h.base < s.h.noopIndex then s.commitIndex else 0 }

  ghost predicate Inv(s: State)
  {
    && s.h.since <= s.term
    && LogOk(s.log, s.h.since, s.commitIndex, Floor(s), s.lastApplied, s.h.noopIndex)
    && ActionsOk(s.commitActions, s.outbox.fired, s.commitIndex, Floor(s), s.log.maxIndex, s.h.noopIndex, s.noopLogId)
    && WritesOk(s.pendingWrites, s.h.origin, Floor(s), s.log.maxIndex)
    && ApplyOk(s.pendingWriteApply, s.pendingWrites, s.h.origin, s.commitIndex)
    && OriginOk(s.h.origin, s.h.tickets, s.log.entries, s.h.since)
    && Ready(s.h.origin, s.h.tickets, s.proposePayloads, s.proposeSenders)
    && TicketsOk(s.h.tickets, s.h.seen)
    && AnswersOk(s.outbox, s.h.origin, s.lastApplied, s.h.reported)
  }

  // ---- The log ------------------------------------------------------------------------------

  /** An aligned log is only ever extended, at the predicted indexes. */
  lemma Appended(l: Log, term: nat, ps: seq<Payload>)
    requires Bounded(l) && (!l.poisoned ==> Aligned(l))
    ensures var m := Append(l, term, ps);
      && Bounded(m) && (!m.poisoned ==> Aligned(m)) && m.poisoned == l.poisoned
      && m.maxIndex == l.maxIndex + (if l.poisoned then 0 else |ps|)
      && (forall i :: i in l.entries ==> i in m.entries && m.entries[i] == l.entries[i])
      && (!l.poisoned ==> forall i :: l.maxIndex < i <= m.maxIndex ==>
            i in m.entries && m.entries[i] == Entry(term, Nth(ps, l.maxIndex + 1, i)))
      && (forall i :: i in m.entries && i !in l.entries ==> l.maxIndex < i <= m.maxIndex)
  {
  }

  lemma LogAppended(l: Log, since: nat, term: nat, commit: nat, floor: nat, applied: nat, noop: nat, ps: seq<Payload>)
    requires LogOk(l, since, commit, floor, applied, noop) && since <= term
    ensures LogOk(Append(l, term, ps), since, commit, floor, applied, noop)
  {
    hide Append;
    Appended(l, term, ps);
  }

  lemma OriginAppended(origin: map<nat, Sender>, tickets: map<Sender, Ticket>, l: Log, since: nat, term: nat, ps: seq<Payload>)
    requires Bounded(l) && (!l.poisoned ==> Aligned(l))
    requires OriginOk(origin, tickets, l.entries, since)
    ensures OriginOk(origin, tickets, Append(l, term, ps).entries, since)
  {
    hide Append;
    Appended(l, term, ps);
  }

  lemma MaxRaised(m: map<nat, PostCommit>, fired: multiset<nat>, commit: nat, floor: nat, noop: nat, noopLogId: Option<nat>,
                  c: map<nat, WriteMetadata>, origin: map<nat, Sender>, max: nat, max': nat)
    requires ActionsOk(m, fired, commit, floor, max, noop, noopLogId) && WritesOk(c, origin, floor, max) && max <= max'
    ensures ActionsOk(m, fired, commit, floor, max', noop, noopLogId) && WritesOk(c, origin, floor, max')
  {
  }

  /** Writes that carry no client channel keep everything that waits. */
  lemma AppendKeeps(s: State, ps: seq<Payload>)
    requires Inv(s)
    ensures Inv(s.(log := Append(s.log, s.term, ps)))
  {
    hide Append, ActionsOk, WritesOk, ApplyOk, OriginOk, Ready, TicketsOk, AnswersOk;
    LogAppended(s.log, s.h.since, s.term, s.commitIndex, Floor(s), s.lastApplied, s.h.noopIndex, ps);
    OriginAppended(s.h.origin, s.h.tickets, s.log, s.h.since, s.term, ps);
    Appended(s.log, s.term, ps);
    MaxRaised(s.commitActions, s.outbox.fired, s.commitIndex, Floor(s), s.h.noopIndex, s.noopLogId, s.pendingWrites, s.h.origin,
              s.log.maxIndex, Append(s.log, s.term, ps).maxIndex);
  }

  // ---- Storing a batch ----------------------------------------------------------------------

  /** The channels after `senders` have been laid out from `first`. */
  lemma OriginAt(origin: map<nat, Sender>, senders: seq<Sender>, first: nat, i: nat)
    ensures i in origin + Laid(senders, first) <==> i in origin || first <= i < first + |senders|
    ensures first <= i < first + |senders| ==> (origin + Laid(senders, first))[i] == senders[i - first]
    ensures i in origin && i < first ==> (origin + Laid(senders, first))[i] == origin[i]
  {
  }

  lemma StoredOrigin(origin: map<nat, Sender>, tickets: map<Sender, Ticket>, l: Log, since: nat, term: nat,
                     payloads: seq<Payload>, senders: seq<Sender>)
    requires Bounded(l) && !l.poisoned && Aligned(l) && since <= term
    requires OriginOk(origin, tickets, l.entries, since) && Ready(origin, tickets, payloads, senders)
    ensures OriginOk(origin + Laid(senders, l.nextId), tickets, Append(l, term, payloads).entries, since)
  {
    var m := Append(l, term, payloads);
    var after := origin + Laid(senders, l.nextId);
    hide Append, Laid;
    Appended(l, term, payloads);
    forall i | i in after
      ensures i in m.entries && after[i] in tickets
      ensures since <= m.entries[i].term && m.entries[i].payload == tickets[after[i]].payload
      ensures i < l.nextId ==> i in origin && after[i] == origin[i]
      ensures l.nextId <= i ==> i < l.nextId + |senders| && after[i] == senders[i - l.nextId]
    {
      OriginAt(origin, senders, l.nextId, i);
    }
  }

  /** Adding a batch above all others keeps the ranges disjoint. */
  lemma DisjointInsert(c: map<nat, WriteMetadata>, k: nat, v: WriteMetadata)
    requires DisjointBatches(c) && v.waitForApply && v.start + |v.senders| == k + 1
    requires forall j :: j in c ==> j < v.start
    requires v.senders != []
    ensures DisjointBatches(c[k := v])
  {
  }

  lemma StoredHeld(c: map<nat, WriteMetadata>, origin: map<nat, Sender>, last: nat, v: WriteMetadata, k: nat, i: nat)
    requires Held(c, origin, k, i) && (k in c ==> c[k].start + |c[k].senders| <= v.start)
    ensures Held(c[last := v], origin + Laid(v.senders, v.start), k, i)
  {
    OriginAt(origin, v.senders, v.start, i);
  }

  lemma StoredWrites(c: map<nat, WriteMetadata>, origin: map<nat, Sender>, floor: nat, max: nat, v: WriteMetadata)
    requires WritesOk(c, origin, floor, max) && v.waitForApply && v.start == max + 1 && v.senders != []
    requires floor <= max
    ensures WritesOk(c[max + |v.senders| := v], origin + Laid(v.senders, max + 1), floor, max + |v.senders|)
  {
    var last := max + |v.senders|;
    DisjointInsert(c, last, v);
    var c', after := c[last := v], origin + Laid(v.senders, max + 1);
    forall k, i ensures Held(c', after, k, i) {
      assert Held(c, origin, k, i);
      StoredHeld(c, origin, last, v, k, i);
    }
    hide Held;
  }

  lemma StoredApply(m: map<nat, Sender>, c: map<nat, WriteMetadata>, origin: map<nat, Sender>, commit: nat,
                    max: nat, v: WriteMetadata)
    requires ApplyOk(m, c, origin, commit) && (forall i :: i in origin ==> i <= max) && v.start == max + 1
    ensures ApplyOk(m, c[max + |v.senders| := v], origin + Laid(v.senders, max + 1), commit)
  {
    forall i | i in m ensures i in origin + Laid(v.senders, max + 1) && (origin + Laid(v.senders, max + 1))[i] == origin[i] {
      OriginAt(origin, v.senders, max + 1, i);
    }
  }

  lemma StoredAnswers(o: Outbox, origin: map<nat, Sender>, applied: nat, reported: set<ApplyResult>, senders: seq<Sender>, first: nat)
    requires AnswersOk(o, origin, applied, reported) && forall i :: i in origin ==> i < first
    ensures AnswersOk(o, origin + Laid(senders, first), applied, reported)
  {
    forall a | a in o.answers ensures AnswerOk(a, origin + Laid(senders, first), applied, reported) {
      assert AnswerOk(a, origin, applied, reported);
      OriginAt(origin, senders, first, a.index);
    }
  }

  lemma LaidNothing(origin: map<nat, Sender>, first: nat)
    ensures origin + Laid([], first) == origin
  {
  }

  lemma LogFacts(s: State)
    requires Inv(s)
    ensures s.lastApplied <= s.commitIndex && Floor(s) <= s.log.maxIndex && Bounded(s.log) && (!s.log.poisoned ==> Aligned(s.log))
    ensures forall i :: i in s.h.origin ==> i <= s.log.maxIndex
  {
    hide WritesOk, ApplyOk, AnswersOk, ActionsOk, TicketsOk, Ready;
  }

  lemma StoredInv(s: State, payloads: seq<Payload>, senders: seq<Sender>, env: Env)
    requires Inv(s) && Ready(s.h.origin, s.h.tickets, payloads, senders) && Accepts(s.log, payloads)
    requires s.proposeSenders == []
    ensures Inv(StoreWrites(s, payloads, senders, env))
  {
    hide WritesOk, ApplyOk, OriginOk, AnswersOk, ActionsOk, TicketsOk, LogOk, Append, Laid;
    var s' := StoreWrites(s, payloads, senders, env);
    AppendKeeps(s, payloads);
    if senders == [] {
      LaidNothing(s.h.origin, s.log.nextId);
    } else {
      var v := s'.pendingWrites[s.log.maxIndex + |senders|];
      LogFacts(s);
      StoredWrites(s.pendingWrites, s.h.origin, Floor(s), s.log.maxIndex, v);
      StoredApply(s.pendingWriteApply, s.pendingWrites, s.h.origin, s.commitIndex, s.log.maxIndex, v);
      StoredOrigin(s.h.origin, s.h.tickets, s.log, s.h.since, s.term, payloads, senders);
      StoredAnswers(s.outbox, s.h.origin, s.lastApplied, s.h.reported, senders, s.log.nextId);
      Appended(s.log, s.term, payloads);
    }
  }

  // ---- Sending ------------------------------------------------------------------------------

  /** A response that reports no apply outcome and reads no further than the applied index. */
  predicate Plain(r: Response, applied: nat) { !Outcome(r) && (r.ReadResults? ==> r.applied <= applied) }

  lemma ReplyOk(o: Outbox, xs: seq<Sender>, r: Response, origin: map<nat, Sender>, applied: nat, reported: set<ApplyResult>)
    requires AnswersOk(o, origin, applied, reported) && Plain(r, applied)
    ensures AnswersOk(Reply(o, xs, r), origin, applied, reported) && Reply(o, xs, r).fired == o.fired
  {
  }

  lemma ReplyBatchesOk(o: Outbox, m: map<nat, seq<Sender>>, r: Response, origin: map<nat, Sender>, applied: nat, reported: set<ApplyResult>)
    requires AnswersOk(o, origin, applied, reported) && (m == map[] || Plain(r, applied))
    ensures AnswersOk(ReplyBatches(o, m, r), origin, applied, reported) && ReplyBatches(o, m, r).fired == o.fired
  {
    hide Bag;
    forall k, x | k in m && x in m[k] ensures x in Bag(m) { BagMember(m, x); }
  }

  lemma FireOk(o: Outbox, ks: set<nat>, origin: map<nat, Sender>, applied: nat, reported: set<ApplyResult>)
    requires AnswersOk(o, origin, applied, reported)
    ensures AnswersOk(Fire(o, ks), origin, applied, reported)
  {
  }

  lemma RepliedInv(s: State, xs: seq<Sender>, r: Response)
    requires Inv(s) && Plain(r, s.lastApplied)
    ensures Inv(s.(outbox := Reply(s.outbox, xs, r)))
  {
    hide LogOk, WritesOk, ApplyOk, OriginOk, AnswersOk, ActionsOk, TicketsOk, Ready, Reply;
    ReplyOk(s.outbox, xs, r, s.h.origin, s.lastApplied, s.h.reported);
  }

  // ---- Accepting commands -------------------------------------------------------------------

  lemma SeenInv(s: State, x: Sender)
    requires Inv(s)
    ensures Inv(s.(h := s.h.(seen := s.h.seen + {x})))
  {
    hide LogOk, WritesOk, ApplyOk, OriginOk, AnswersOk, ActionsOk, Ready;
  }

  lemma TicketAdded(origin: map<nat, Sender>, tickets: map<Sender, Ticket>, seen: set<Sender>, entries: map<nat, Entry>,
                    since: nat, payloads: seq<Payload>, senders: seq<Sender>, x: Sender, p: Payload)
    requires OriginOk(origin, tickets, entries, since) && Ready(origin, tickets, payloads, senders)
    requires TicketsOk(tickets, seen) && x !in seen
    ensures var t := tickets[x := Ticket(|tickets|, p)];
      && OriginOk(origin, t, entries, since) && Ready(origin, t, payloads + [p], senders + [x])
      && TicketsOk(t, seen + {x})
  {
    var t := tickets[x := Ticket(|tickets|, p)];
    assert |t| == |tickets| + 1;
    assert x !in senders;
  }

  lemma ProposedInv(s: State, x: Sender, cmd: Option<string>)
    requires Inv(s) && x !in s.h.seen
    ensures Inv(PushPropose(s, x, cmd))
  {
    hide LogOk, WritesOk, ApplyOk, OriginOk, AnswersOk, ActionsOk, TicketsOk, Ready, Reply;
    SeenInv(s, x);
    var t := s.(h := s.h.(seen := s.h.seen + {x}));
    RepliedInv(t, [x], Refused(ResourceExhausted));
    RepliedInv(t, [x], Refused(InvalidArgument));
    if cmd.Some? {
      TicketAdded(s.h.origin, s.h.tickets, s.h.seen, s.log.entries, s.h.since, s.proposePayloads, s.proposeSenders,
                  x, Command(cmd.value));
    }
  }

  lemma ReadInv(s: State, x: Sender, policy: ReadPolicy)
    requires Inv(s)
    ensures Inv(PushRead(s, x, policy)) && Inv(PushScan(s, x))
  {
    hide LogOk, WritesOk, ApplyOk, OriginOk, AnswersOk, ActionsOk, TicketsOk, Ready, Reply;
    SeenInv(s, x);
    RepliedInv(s.(h := s.h.(seen := s.h.seen + {x})), [x], Refused(ResourceExhausted));
    RepliedInv(s.(h := s.h.(seen := s.h.seen + {x})), [x], ReadResults(s.lastApplied));
  }

  // ---- Executing a batch --------------------------------------------------------------------

  lemma RoutedInv(s: State, readers: seq<Sender>, env: Env)
    requires Inv(s)
    ensures Inv(RouteReads(s, readers, env))
  {
    hide LogOk, WritesOk, ApplyOk, OriginOk, AnswersOk, ActionsOk, TicketsOk, Ready, Reply, Await;
    RepliedInv(s, readers, Refused(Unavailable));
    RepliedInv(s, readers, ReadResults(s.lastApplied));
  }

  lemma FailedInv(s: State, payloads: seq<Payload>, senders: seq<Sender>, readers: seq<Sender>)
    requires Inv(s)
    ensures Inv(PrepareFailed(s, payloads, senders, readers))
  {
    hide Inv, Append, Reply;
    var t := s.(log := Append(s.log, s.term, payloads));
    AppendKeeps(s, payloads);
    RepliedInv(t, senders, ClientError(ProposeFailed));
    RepliedInv(t.(outbox := Reply(s.outbox, senders, ClientError(ProposeFailed))), readers, Refused(FailedPrecondition));
  }

  lemma ExecutedInv(s: State, payloads: seq<Payload>, senders: seq<Sender>, readers: seq<Sender>, env: Env)
    requires Inv(s) && Ready(s.h.origin, s.h.tickets, payloads, senders) && s.proposeSenders == []
    ensures Inv(Execute(s, payloads, senders, readers, env))
  {
    hide Inv, StoreWrites, RouteReads, PrepareFailed, Ready;
    FailedInv(s, payloads, senders, readers);
    if Accepts(s.log, payloads) {
      StoredInv(s, payloads, senders, env);
      RoutedInv(StoreWrites(s, payloads, senders, env), readers, env);
    }
  }

  lemma ServedInv(s: State, env: Env)
    requires Inv(s)
    ensures Inv(ServeQueues(s, env))
  {
    hide LogOk, WritesOk, ApplyOk, OriginOk, AnswersOk, ActionsOk, TicketsOk, Ready, Reply, Filter, Without, Stamp;
    var o := Reply(s.outbox, Filter(s.leaseQueue, env.leaseServed), ReadResults(s.lastApplied));
    ReplyOk(s.outbox, Filter(s.leaseQueue, env.leaseServed), ReadResults(s.lastApplied), s.h.origin, s.lastApplied, s.h.reported);
    ReplyOk(o, s.eventualQueue, ReadResults(s.lastApplied), s.h.origin, s.lastApplied, s.h.reported);
  }

  lemma TakenInv(s: State)
    requires Inv(s)
    ensures Inv(FlushPropose(s)) && Inv(FlushPropose(s).(linearReads := []))
    ensures Ready(s.h.origin, s.h.tickets, s.proposePayloads, s.proposeSenders)
  {
    hide LogOk, WritesOk, ApplyOk, OriginOk, AnswersOk, ActionsOk, TicketsOk;
  }

  lemma FlushedInv(s: State, env: Env)
    requires Inv(s)
    ensures Inv(Flush(s, env))
  {
    hide Inv, Execute, ServeQueues, Ready;
    TakenInv(s);
    var t := FlushPropose(s).(linearReads := []);
    ExecutedInv(t, s.proposePayloads, s.proposeSenders, s.linearReads, env);
    ServedInv(Execute(t, s.proposePayloads, s.proposeSenders, s.linearReads, env), env);
  }

  // ---- Committing ---------------------------------------------------------------------------

  ghost predicate PartOf<K(!new), V>(d: map<K, V>, c: map<K, V>) { forall k :: k in d ==> k in c && d[k] == c[k] }

  lemma DisjointPart(d: map<nat, WriteMetadata>, c: map<nat, WriteMetadata>)
    requires DisjointBatches(c) && PartOf(d, c)
    ensures DisjointBatches(d)
  {
  }

  lemma WritesPart(d: map<nat, WriteMetadata>, c: map<nat, WriteMetadata>, m: map<nat, Sender>,
                   origin: map<nat, Sender>, commit: nat, floor: nat, max: nat)
    requires WritesOk(c, origin, floor, max) && ApplyOk(m, c, origin, commit) && PartOf(d, c)
    ensures WritesOk(d, origin, floor, max) && ApplyOk(m, d, origin, commit)
  {
    DisjointPart(d, c);
    forall k, i ensures Held(d, origin, k, i) { assert Held(c, origin, k, i); }
  }

  /** A committed index of a drained batch carries the channel of the write stored there. */
  lemma SpreadHeld(c: map<nat, WriteMetadata>, origin: map<nat, Sender>, i: nat)
    requires DisjointBatches(c) && (forall k, i :: Held(c, origin, k, i)) && i in Spread(c)
    ensures i in origin && Spread(c)[i] == origin[i]
    ensures exists k :: k in c && c[k].start <= i <= k
  {
    var k :| Covers(c, k, i);
    SpreadAt(c, k, i);
    assert Held(c, origin, k, i);
    assert k in c && c[k].start <= i <= k;
  }

  lemma DrainedBefore(c: map<nat, WriteMetadata>, n: nat, j: nat, k: nat)
    requires DisjointBatches(c) && j in Upto(c, n) && k in Above(c, n)
    ensures j < c[k].start
  {
  }

  lemma DrainedIndex(c: map<nat, WriteMetadata>, origin: map<nat, Sender>, n: nat, i: nat)
    requires DisjointBatches(c) && (forall k, i :: Held(c, origin, k, i)) && i in Spread(Upto(c, n))
    ensures i <= n && i in origin && Spread(Upto(c, n))[i] == origin[i]
    ensures forall k :: k in Above(c, n) ==> i < c[k].start
  {
    hide Spread, Held, DisjointBatches;
    var d := Upto(c, n);
    DisjointPart(d, c);
    forall k, i ensures Held(d, origin, k, i) { HeldPart(d, c, origin, k, i); }
    SpreadHeld(d, origin, i);
    var j :| j in d && d[j].start <= i <= j;
    forall k | k in Above(c, n) ensures i < c[k].start { DrainedBefore(c, n, j, k); }
  }

  lemma HeldPart(d: map<nat, WriteMetadata>, c: map<nat, WriteMetadata>, origin: map<nat, Sender>, k: nat, i: nat)
    requires Held(c, origin, k, i) && PartOf(d, c)
    ensures Held(d, origin, k, i)
  {
  }

  lemma DrainedApply(m: map<nat, Sender>, c: map<nat, WriteMetadata>, origin: map<nat, Sender>, commit: nat, floor: nat, max: nat, n: nat)
    requires WritesOk(c, origin, floor, max) && ApplyOk(m, c, origin, commit) && commit <= n
    ensures ApplyOk(m + Spread(Upto(c, n)), Above(c, n), origin, n)
  {
    hide Spread, Held, DisjointBatches;
    forall i | i in Spread(Upto(c, n))
      ensures i <= n && i in origin && Spread(Upto(c, n))[i] == origin[i]
      ensures forall k :: k in Above(c, n) ==> i < c[k].start
    {
      DrainedIndex(c, origin, n, i);
    }
  }

  lemma DrainedWrites(m: map<nat, Sender>, c: map<nat, WriteMetadata>, origin: map<nat, Sender>, commit: nat, floor: nat, max: nat, n: nat, floor': nat)
    requires WritesOk(c, origin, floor, max) && ApplyOk(m, c, origin, commit) && floor' <= n
    ensures WritesOk(Above(c, n), origin, floor', max)
  {
    WritesPart(Above(c, n), c, m, origin, commit, floor, max);
    hide Held, DisjointBatches;
  }

  lemma NoImmediate(c: map<nat, WriteMetadata>, n: nat)
    requires DisjointBatches(c)
    ensures WriteSenders(Immediate(Upto(c, n))) == map[]
  {
    assert Immediate(Upto(c, n)) == map[];
  }

  lemma DrainedActions(m: map<nat, PostCommit>, fired: multiset<nat>, commit: nat, floor: nat, max: nat, noop: nat,
                       noopLogId: Option<nat>, n: nat, floor': nat)
    requires ActionsOk(m, fired, commit, floor, max, noop, noopLogId) && commit <= n <= max && noop <= n && floor' <= n
    ensures ActionsOk(Above(m, n), fired + multiset(Upto(m, n).Keys), n, floor', max, noop,
                      if HasNoop(Upto(m, n)) then Some(max) else noopLogId)
  {
    forall k | k in fired + multiset(Upto(m, n).Keys)
      ensures (fired + multiset(Upto(m, n).Keys))[k] == 1 && k <= n
    {
      assert k in fired ==> k !in Upto(m, n);
    }
  }

  /** Nothing commits under this leader before its no-op does. */
  lemma CommitCoversNoop(s: State, n: nat)
    requires Inv(s) && s.commitIndex < n && Committable(s, n)
    ensures s.h.noopIndex <= n <= s.log.maxIndex
  {
  }

  lemma CommittedInv(s: State, n: nat)
    requires Inv(s) && s.commitIndex < n && Committable(s, n)
    ensures Inv(CommitTo(s, n))
  {
    hide LogOk, WritesOk, ApplyOk, OriginOk, AnswersOk, ActionsOk, TicketsOk, Ready;
    hide ReplyBatches, Spread, Immediate, DisjointBatches, WriteSenders, JoinSenders, Above, Upto, Committable;
    CommitCoversNoop(s, n);
    var low := Floor(s.(commitIndex := n));
    LogCommitted(s.log, s.h.since, s.commitIndex, Floor(s), s.lastApplied, s.h.noopIndex, n, low);
    WritesFacts(s);
    DrainedWrites(s.pendingWriteApply, s.pendingWrites, s.h.origin, s.commitIndex, Floor(s), s.log.maxIndex, n, low);
    DrainedApply(s.pendingWriteApply, s.pendingWrites, s.h.origin, s.commitIndex, Floor(s), s.log.maxIndex, n);
    DrainedActions(s.commitActions, s.outbox.fired, s.commitIndex, Floor(s), s.log.maxIndex, s.h.noopIndex, s.noopLogId, n, low);
    NoImmediate(s.pendingWrites, n);
    var o := ReplyBatches(s.outbox, WriteSenders(Immediate(Upto(s.pendingWrites, n))), WriteSuccess);
    ReplyBatchesOk(s.outbox, WriteSenders(Immediate(Upto(s.pendingWrites, n))), WriteSuccess, s.h.origin, s.lastApplied, s.h.reported);
    ReplyBatchesOk(o, JoinSenders(Upto(s.commitActions, n)), JoinSuccess, s.h.origin, s.lastApplied, s.h.reported);
    FireOk(ReplyBatches(o, JoinSenders(Upto(s.commitActions, n)), JoinSuccess), Upto(s.commitActions, n).Keys,
           s.h.origin, s.lastApplied, s.h.reported);
  }

  lemma LogCommitted(l: Log, since: nat, commit: nat, floor: nat, applied: nat, noop: nat, n: nat, floor': nat)
    requires LogOk(l, since, commit, floor, applied, noop) && commit <= n <= l.maxIndex && floor' <= n
    ensures LogOk(l, since, n, floor', applied, noop)
  {
  }

  lemma WritesFacts(s: State)
    requires Inv(s)
    ensures DisjointBatches(s.pendingWrites)
  {
    hide DisjointBatches, LogOk, ApplyOk, OriginOk, AnswersOk, ActionsOk, TicketsOk, Ready;
  }

  // ---- Applying -----------------------------------------------------------------------------

  lemma ServedReadsInv(s: State, n: nat)
    requires Inv(s)
    ensures Inv(ServeReads(s, n))
  {
    hide LogOk, WritesOk, ApplyOk, OriginOk, AnswersOk, ActionsOk, TicketsOk, Ready, ReplyBatches;
    ReplyBatchesOk(s.outbox, ReadSenders(Upto(s.pendingReads, n)), ReadResults(s.lastApplied), s.h.origin, s.lastApplied, s.h.reported);
  }

  lemma AckedInv(s: State)
    requires Inv(s)
    ensures Inv(ServeLease(s)) && Inv(AckQuorum(s))
  {
    hide LogOk, WritesOk, ApplyOk, OriginOk, AnswersOk, ActionsOk, TicketsOk, Ready, Reply, ReplyBatches, ServeReads, LeaseSenders;
    ReplyOk(s.outbox, LeaseSenders(s.pendingLease), ReadResults(s.lastApplied), s.h.origin, s.lastApplied, s.h.reported);
    ServedReadsInv(ServeLease(s), s.lastApplied);
  }

  lemma AppliedInv(s: State, n: nat)
    requires Inv(s) && s.lastApplied <= n <= s.commitIndex
    ensures Inv(s.(lastApplied := n))
  {
    AnswersApplied(s.outbox, s.h.origin, s.lastApplied, s.h.reported, n);
    hide WritesOk, ApplyOk, OriginOk, AnswersOk, ActionsOk, TicketsOk, Ready;
  }

  lemma AnswersApplied(o: Outbox, origin: map<nat, Sender>, applied: nat, reported: set<ApplyResult>, n: nat)
    requires AnswersOk(o, origin, applied, reported) && applied <= n
    ensures AnswersOk(o, origin, n, reported)
  {
  }

  lemma SendOk(o: Outbox, m: map<nat, Sender>, c: map<nat, WriteMetadata>, origin: map<nat, Sender>, commit: nat,
               applied: nat, reported: set<ApplyResult>, r: ApplyResult)
    requires AnswersOk(o, origin, applied, reported) && ApplyOk(m, c, origin, commit)
    requires r.index in m && r.index <= applied && r in reported
    ensures AnswersOk(Send(o, m[r.index], if r.succeeded then WriteSuccess else CasFailure, r.index), origin, applied, reported)
    ensures ApplyOk(m - {r.index}, c, origin, commit)
    ensures Send(o, m[r.index], if r.succeeded then WriteSuccess else CasFailure, r.index).fired == o.fired
  {
  }

  lemma {:induction false} RespondedInv(s: State, results: seq<ApplyResult>)
    requires Inv(s)
    requires forall i :: 0 <= i < |results| ==> results[i].index <= s.lastApplied && results[i] in s.h.reported
    ensures Inv(Respond(s, results)) && Respond(s, results).lastApplied == s.lastApplied
    decreases |results|
  {
    if results != [] {
      hide LogOk, WritesOk, ApplyOk, OriginOk, AnswersOk, ActionsOk, TicketsOk, Ready, Send;
      var r := results[0];
      var m := s.pendingWriteApply;
      if r.index in m {
        SendOk(s.outbox, m, s.pendingWrites, s.h.origin, s.commitIndex, s.lastApplied, s.h.reported, r);
        RespondedInv(s.(pendingWriteApply := m - {r.index},
                        outbox := Send(s.outbox, m[r.index], if r.succeeded then WriteSuccess else CasFailure, r.index)),
                     results[1..]);
      } else {
        RespondedInv(s, results[1..]);
      }
    }
  }

  lemma ApplyReportedInv(s: State, last: nat, results: seq<ApplyResult>)
    requires Inv(s) && Enabled(s, ApplyReported(last, results))
    ensures Inv(ApplyCompleted(s, last, results))
  {
    hide Inv, Respond, ServeReads;
    var t := s.(h := s.h.(reported := s.h.reported + ResultSet(results)));
    ReportedInv(s, ResultSet(results));
    RespondedInv(t, results);
    ServedReadsInv(Respond(t, results), last);
  }

  lemma ReportedInv(s: State, rs: set<ApplyResult>)
    requires Inv(s)
    ensures Inv(s.(h := s.h.(reported := s.h.reported + rs)))
  {
    AnswersReported(s.outbox, s.h.origin, s.lastApplied, s.h.reported, rs);
    hide LogOk, WritesOk, ApplyOk, OriginOk, AnswersOk, ActionsOk, TicketsOk, Ready;
  }

  lemma AnswersReported(o: Outbox, origin: map<nat, Sender>, applied: nat, reported: set<ApplyResult>, rs: set<ApplyResult>)
    requires AnswersOk(o, origin, applied, reported)
    ensures AnswersOk(o, origin, applied, reported + rs)
  {
  }

  // ---- Expiry and giving up -----------------------------------------------------------------

  lemma ActionsPart(d: map<nat, PostCommit>, m: map<nat, PostCommit>, fired: multiset<nat>, commit: nat, floor: nat, max: nat,
                    noop: nat, noopLogId: Option<nat>)
    requires ActionsOk(m, fired, commit, floor, max, noop, noopLogId) && PartOf(d, m)
    ensures ActionsOk(d, fired, commit, floor, max, noop, noopLogId)
  {
  }

  lemma LiveParts(w: map<nat, WriteMetadata>, a: map<nat, PostCommit>, now: nat)
    ensures PartOf(LiveWrites(w, now), w) && PartOf(LiveActions(a, now), a)
  {
  }

  lemma ExpiryOk(s: State, now: nat)
    requires AnswersOk(s.outbox, s.h.origin, s.lastApplied, s.h.reported)
    ensures AnswersOk(Expire(s, now).outbox, s.h.origin, s.lastApplied, s.h.reported)
    ensures Expire(s, now).outbox.fired == s.outbox.fired
  {
    hide AnswersOk, Reply, ReplyBatches, WriteSenders, ReadSenders, JoinSenders, ExpiredLease, LiveLease;
    var o1 := ReplyBatches(s.outbox, WriteSenders(ExpiredWrites(s.pendingWrites, now)), Refused(DeadlineExceeded));
    ReplyBatchesOk(s.outbox, WriteSenders(ExpiredWrites(s.pendingWrites, now)), Refused(DeadlineExceeded), s.h.origin, s.lastApplied, s.h.reported);
    var o2 := ReplyBatches(o1, ReadSenders(ExpiredReads(s.pendingReads, now)), Refused(DeadlineExceeded));
    ReplyBatchesOk(o1, ReadSenders(ExpiredReads(s.pendingReads, now)), Refused(DeadlineExceeded), s.h.origin, s.lastApplied, s.h.reported);
    var o3 := Reply(o2, ExpiredLease(s.pendingLease, now), Refused(DeadlineExceeded));
    ReplyOk(o2, ExpiredLease(s.pendingLease, now), Refused(DeadlineExceeded), s.h.origin, s.lastApplied, s.h.reported);
    ReplyBatchesOk(o3, JoinSenders(ExpiredActions(s.commitActions, now)), Refused(DeadlineExceeded), s.h.origin, s.lastApplied, s.h.reported);
  }

  lemma ExpiredInv(s: State, now: nat)
    requires Inv(s)
    ensures Inv(Expire(s, now))
  {
    hide LogOk, WritesOk, ApplyOk, OriginOk, AnswersOk, ActionsOk, TicketsOk, Ready;
    hide ReplyBatches, Reply, LiveWrites, LiveActions, LiveReads, LiveLease, WriteSenders, ReadSenders, JoinSenders;
    ExpiryOk(s, now);
    LiveParts(s.pendingWrites, s.commitActions, now);
    WritesPart(LiveWrites(s.pendingWrites, now), s.pendingWrites, s.pendingWriteApply, s.h.origin, s.commitIndex, Floor(s), s.log.maxIndex);
    ActionsPart(LiveActions(s.commitActions, now), s.commitActions, s.outbox.fired, s.commitIndex, Floor(s), s.log.maxIndex,
                s.h.noopIndex, s.noopLogId);
  }

  lemma TickedInv(s: State, heartbeat: bool, env: Env)
    requires Inv(s)
    ensures Inv(Tick(s, heartbeat, env))
  {
    hide Inv, Execute, Expire, Ready;
    TakenInv(s);
    ExecutedInv(FlushPropose(s), s.proposePayloads, s.proposeSenders, [], env);
    ExpiredInv(s, env.now);
    ExpiredInv(Execute(FlushPropose(s), s.proposePayloads, s.proposeSenders, [], env), env.now);
  }

  lemma FailedWritesInv(s: State, code: ErrorCode)
    requires Inv(s)
    ensures Inv(FailWrites(s, code))
  {
    hide LogOk, WritesOk, ApplyOk, OriginOk, AnswersOk, ActionsOk, TicketsOk, Ready, ReplyBatches, WriteSenders;
    ReplyBatchesOk(s.outbox, WriteSenders(s.pendingWrites), ClientError(code), s.h.origin, s.lastApplied, s.h.reported);
    WritesPart(map[], s.pendingWrites, s.pendingWriteApply, s.h.origin, s.commitIndex, Floor(s), s.log.maxIndex);
  }

  lemma HigherTermInv(s: State, term: nat)
    requires Inv(s) && s.term < term
    ensures Inv(FailWrites(s.(term := term), TermOutdated))
  {
    hide Inv, FailWrites;
    TermInv(s, term);
    FailedWritesInv(s.(term := term), TermOutdated);
  }

  lemma TermInv(s: State, term: nat)
    requires Inv(s) && s.term < term
    ensures Inv(s.(term := term))
  {
    hide LogOk, WritesOk, ApplyOk, OriginOk, AnswersOk, ActionsOk, TicketsOk, Ready;
  }

  lemma SteppedDownInv(s: State)
    requires Inv(s)
    ensures Inv(StepDown(s))
  {
    hide LogOk, WritesOk, ApplyOk, OriginOk, AnswersOk, ActionsOk, TicketsOk;
    hide ReplyBatches, Reply, FailWrites, ReadSenders, LeaseSenders;
    var q := s.linearReads + s.leaseQueue + s.eventualQueue;
    ReplyOk(s.outbox, q, Refused(Unavailable), s.h.origin, s.lastApplied, s.h.reported);
    var o := Reply(s.outbox, q, Refused(Unavailable));
    ReplyBatchesOk(o, ReadSenders(s.pendingReads), Refused(Unavailable), s.h.origin, s.lastApplied, s.h.reported);
    o := ReplyBatches(o, ReadSenders(s.pendingReads), Refused(Unavailable));
    ReplyOk(o, LeaseSenders(s.pendingLease), Refused(Unavailable), s.h.origin, s.lastApplied, s.h.reported);
    o := Reply(o, LeaseSenders(s.pendingLease), Refused(Unavailable));
    ReplyOk(o, s.proposeSenders, Refused(FailedPrecondition), s.h.origin, s.lastApplied, s.h.reported);
    o := Reply(o, s.proposeSenders, Refused(FailedPrecondition));
    FailedWritesInv(FlushPropose(s).(linearReads := [], leaseQueue := [], eventualQueue := [],
                                     pendingReads := map[], pendingLease := [], outbox := o), ProposeFailed);
  }

  lemma ApplyNothing(c: map<nat, WriteMetadata>, origin: map<nat, Sender>, commit: nat)
    ensures ApplyOk(map[], c, origin, commit)
  {
  }

  lemma FatalInv(s: State)
    requires Inv(s)
    ensures Inv(Fatal(s))
  {
    hide LogOk, WritesOk, ApplyOk, OriginOk, AnswersOk, ActionsOk, TicketsOk, Ready;
    hide ReplyBatches, Reply, ReadSenders, ApplySenders;
    var q := s.linearReads + s.leaseQueue + s.eventualQueue;
    var o := ReplyBatches(s.outbox, ApplySenders(s.pendingWriteApply), Refused(Internal));
    ReplyBatchesOk(s.outbox, ApplySenders(s.pendingWriteApply), Refused(Internal), s.h.origin, s.lastApplied, s.h.reported);
    ReplyOk(o, q, Refused(Internal), s.h.origin, s.lastApplied, s.h.reported);
    ReplyBatchesOk(Reply(o, q, Refused(Internal)), ReadSenders(s.pendingReads), Refused(Internal), s.h.origin, s.lastApplied, s.h.reported);
    ApplyNothing(s.pendingWrites, s.h.origin, s.commitIndex);
  }

  // ---- Joins, poison, runs --------------------------------------------------------------------

  lemma ActionAdded(m: map<nat, PostCommit>, fired: multiset<nat>, commit: nat, floor: nat, max: nat, noop: nat,
                    noopLogId: Option<nat>, k: nat, v: PostCommit)
    requires ActionsOk(m, fired, commit, floor, max, noop, noopLogId) && floor < k <= max && k !in fired && v.action.NodeJoin?
    ensures ActionsOk(m[k := v], fired, commit, floor, max, noop, noopLogId)
  {
  }

  lemma NotFired(s: State, k: nat)
    requires Inv(s) && s.log.maxIndex < k
    ensures k !in s.outbox.fired
  {
    hide LogOk, WritesOk, ApplyOk, OriginOk, AnswersOk, TicketsOk, Ready;
  }

  lemma JoinedInv(s: State, x: Sender, admitted: bool, change: nat, deadline: nat)
    requires Inv(s)
    ensures Inv(Join(s, x, admitted, change, deadline))
  {
    hide LogOk, WritesOk, ApplyOk, OriginOk, AnswersOk, ActionsOk, TicketsOk, Ready, Append, Reply;
    SeenInv(s, x);
    var t := s.(h := s.h.(seen := s.h.seen + {x}));
    RepliedInv(t, [x], Refused(FailedPrecondition));
    AppendKeeps(t, [Config(change)]);
    var u := AppendOwn(t, Config(change));
    RepliedInv(u, [x], Refused(FailedPrecondition));
    LogFacts(s);
    Appended(s.log, s.term, [Config(change)]);
    if admitted && !s.log.poisoned {
      NotFired(s, u.log.maxIndex);
      ActionAdded(u.commitActions, u.outbox.fired, u.commitIndex, Floor(u), u.log.maxIndex, u.h.noopIndex, u.noopLogId,
                  u.log.maxIndex, PostCommit(deadline, NodeJoin(x)));
    }
  }

  lemma PoisonedInv(s: State)
    requires Inv(s)
    ensures Inv(s.(log := s.log.(poisoned := true)))
  {
    hide WritesOk, ApplyOk, OriginOk, AnswersOk, ActionsOk, TicketsOk, Ready;
  }

  /** Storing the no-op aligns the log, whatever was elected. */
  lemma InitialInv(s: State, deadline: nat)
    requires Elected(s)
    ensures Inv(InitiateNoop(s, deadline))
  {
  }

  lemma NextInv(s: State, e: Event)
    requires Inv(s) && Enabled(s, e)
    ensures Inv(Next(s, e))
  {
    hide Inv, Flush, Tick, CommitTo, ServeLease, AckQuorum, ApplyCompleted, FailWrites, StepDown, Fatal, Join, AppendOwn;
    hide PushPropose, PushRead, PushScan;
    match e
    case Propose(x, cmd) => ProposedInv(s, x, cmd);
    case Read(x, policy) => ReadInv(s, x, policy);
    case Scan(x) => ReadInv(s, x, Eventual);
    case FlushBuffers(env) => FlushedInv(s, env);
    case TickAt(heartbeat, env) => TickedInv(s, heartbeat, env);
    case Committed(n) => CommittedInv(s, n);
    case LeaseRenewed => AckedInv(s);
    case QuorumAcked => AckedInv(s);
    case StateMachineApplied(n) => AppliedInv(s, n);
    case ApplyReported(last, results) => ApplyReportedInv(s, last, results);
    case HigherTermSeen(term) => HigherTermInv(s, term);
    case VoteSeen(term) => TermInv(s, term);
    case SteppedDown => SteppedDownInv(s);
    case FatalError => FatalInv(s);
    case JoinRequested(x, admitted, change, deadline) => JoinedInv(s, x, admitted, change, deadline);
    case ConfigProposed(change) => OwnInv(s, Config(change));
    case DiskPoisoned => PoisonedInv(s);
  }

  lemma OwnInv(s: State, p: Payload)
    requires Inv(s)
    ensures Inv(AppendOwn(s, p))
  {
    hide Inv, Append;
    AppendKeeps(s, [p]);
  }

  /** The invariant holds in every state of every run. */
  lemma {:induction false} RunInv(tr: seq<State>, es: seq<Event>, i: nat)
    requires Run(tr, es) && i < |tr|
    ensures Inv(tr[i])
  {
    hide Inv, Next;
    if i == 0 {
      var s, deadline :| Elected(s) && tr[0] == InitiateNoop(s, deadline);
      InitialInv(s, deadline);
    } else {
      RunInv(tr, es, i - 1);
      NextInv(tr[i - 1], es[i - 1]);
    }
  }
}
