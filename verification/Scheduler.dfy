/**
 One scheduling pass of pkg/scheduler/scheduler.go run without interleaving: schedule visits
 the sorted queues, and each popped unit is admitted, sent to backoff, or let go. Dequeue
 goroutines are started but not run.
 */
module Schedulers {
  import opened Units
  import opened QueueSpec
  import opened QuotaLedger
  import opened SchedulingQueues
  import opened MultiSchedulingQueues
  import KeyedHeap
  import Priority
  import Backoff

  /** What the API server would return, and the clock show, if the visit of one queue failed. */
  datatype Moment = Moment(lookup: map<string, QueueUnit>, now: int)

  function MomentAt(moments: nat -> Moment, i: nat): Moment
  {
    moments(i)
  }

  /** How the visit of one queue ends. */
  datatype Outcome =
    | Skipped
    | Admitted(info: QueueUnitInfo)
    | BackedOff(info: QueueUnitInfo, again: QueueUnitInfo)
    | LetGo(info: QueueUnitInfo)

  /** info may be popped from s: it is stored there and nothing stored is less. */
  ghost predicate Front(s: QueueState<QueueUnitInfo>, info: QueueUnitInfo)
  {
    && info.name in s.active && s.active[info.name] == info
    && KeyedHeap.Least(Priority.QueueLess, s.active, info)
  }

  /** Filter and Reserve both succeed. */
  predicate Admissible(l: Ledger, quotas: map<string, Quota>, u: QueueUnit)
  {
    FilterOk(l, QuotaOf(quotas, u.consumerNamespace), u) && Key(u) !in l.quRecord
  }

  /** ErrorFunc's change of an info whose unit was looked up as u. */
  function Retried(info: QueueUnitInfo, u: QueueUnit, now: int): QueueUnitInfo
  {
    info.(attempts := info.attempts + 1, timestamp := now, unit := u)
  }

  /**
   The visit of one queue: s and l before, t and m after. A lookup that fails, or a key that
   is backing off already, loses the unit.
   */
  ghost predicate Visit(s: QueueState<QueueUnitInfo>, l: Ledger, quotas: map<string, Quota>, at: Moment,
                        out: Outcome, t: QueueState<QueueUnitInfo>, m: Ledger)
  {
    match out
    case Skipped => s.active == map[] && t == s && m == l
    case Admitted(i) =>
      Front(s, i) && Admissible(l, quotas, i.unit) && t == Popped(s, i.name) && m == AfterReserve(l, i.unit)
    case BackedOff(i, again) =>
      && Front(s, i) && !Admissible(l, quotas, i.unit) && Key(i.unit) in at.lookup && i.name !in s.backoff
      && again == Retried(i, at.lookup[Key(i.unit)], at.now)
      && t == QueueState(s.active - {i.name}, s.backoff[i.name := again]) && m == l
    case LetGo(i) =>
      && Front(s, i) && !Admissible(l, quotas, i.unit) && (Key(i.unit) !in at.lookup || i.name in s.backoff)
      && t == Popped(s, i.name) && m == l
  }

  class Scheduler {
    const mq: MultiSchedulingQueue
    const quota: ResourceQuota
    /** Units handed to a dequeue goroutine, in order. */
    var flights: seq<QueueUnitInfo>

    constructor (mq: MultiSchedulingQueue, quota: ResourceQuota)
      ensures this.mq == mq && this.quota == quota && flights == []
    {
      this.mq, this.quota := mq, quota;
      flights := [];
    }

    /** ErrorFunc: one lookup and one clock reading. */
    method ErrorFunc(q: SchedulingQueue, info: QueueUnitInfo, at: Moment)
      requires q.Valid()
      modifies q.backoffQ
      ensures q.Valid()
      ensures q.View() == if Key(info.unit) in at.lookup
                          then AddedUnschedulable(old(q.View()), info.name,
                                                  Retried(info, at.lookup[Key(info.unit)], at.now))
                          else old(q.View())
    {
      if Key(info.unit) in at.lookup {
        q.AddUnschedulableIfNotPresent(Retried(info, at.lookup[Key(info.unit)], at.now));
      }
    }

    /** Filter, then Reserve, then the goroutine. */
    method Admit(info: QueueUnitInfo, quotas: map<string, Quota>) returns (ok: bool)
      modifies this`flights, quota
      ensures ok <==> Admissible(old(quota.View()), quotas, info.unit)
      ensures quota.View() == if ok then AfterReserve(old(quota.View()), info.unit) else old(quota.View())
      ensures flights == old(flights) + if ok then [info] else []
    {
      ok := quota.Filter(info.unit, QuotaOf(quotas, info.unit.consumerNamespace));
      if ok {
        ok := quota.Reserve(info.unit);
        if ok {
          flights := flights + [info];
        }
      }
    }

    /** The body of schedule's loop for one queue. */
    method VisitQueue(q: SchedulingQueue, quotas: map<string, Quota>, at: Moment)
      returns (ghost out: Outcome)
      requires q.Valid()
      modifies this`flights, quota, q.items, q.backoffQ
      ensures q.Valid()
      ensures Visit(old(q.View()), old(quota.View()), quotas, at, out, q.View(), quota.View())
      ensures flights == old(flights) + if out.Admitted? then [out.info] else []
    {
      var n := q.Length();
      if n == 0 {
        out := Skipped;
        return;
      }
      ghost var s, l := q.View(), quota.View();
      var info := q.Pop();
      var ok := Admit(info, quotas);
      if ok {
        out := Admitted(info);
      } else {
        ErrorFunc(q, info, at);
        out := Failure(s, info, at);
        FailureIsVisit(s, l, quotas, at, info, q.View());
      }
    }

    /** Visiting one of several queues leaves the others alone. */
    method VisitNth(qs: seq<SchedulingQueue>, n: nat, quotas: map<string, Quota>, at: Moment)
      returns (ghost out: Outcome)
      requires Separate(qs) && n < |qs| && AllValid(qs)
      modifies this`flights, quota, qs[n].items, qs[n].backoffQ
      ensures AllValid(qs) && Views(qs) == old(Views(qs))[n := Views(qs)[n]]
      ensures Visit(old(Views(qs))[n], old(quota.View()), quotas, at, out, Views(qs)[n], quota.View())
      ensures flights == old(flights) + if out.Admitted? then [out.info] else []
    {
      ghost var before := Views(qs);
      out := VisitQueue(qs[n], quotas, at);
      forall i | 0 <= i < |qs| && i != n ensures qs[i].Valid() && qs[i].View() == before[i] {
        assert Apart(qs[i], qs[n]);
        Kept(qs[i]);
      }
      OneView(qs, n, before);
    }

    /** schedule's loop over queues that share no heap. Each visit has a moment of its own. */
    method PassOver(qs: seq<SchedulingQueue>, quotas: map<string, Quota>, moments: nat -> Moment)
      returns (ghost outs: seq<Outcome>, ghost ledgers: seq<Ledger>)
      requires Separate(qs) && AllValid(qs)
      modifies this`flights, quota
      modifies set i | 0 <= i < |qs| :: qs[i].items
      modifies set i | 0 <= i < |qs| :: qs[i].backoffQ
      ensures AllValid(qs)
      ensures Pass(old(Views(qs)), old(quota.View()), quotas, moments, outs, ledgers, Views(qs), quota.View())
      ensures flights == old(flights) + AdmittedInfos(outs)
    {
      outs, ledgers := [], [quota.View()];
      ghost var start := Views(qs);
      for n := 0 to |qs|
        invariant AllValid(qs)
        invariant Partly(start, old(quota.View()), quotas, moments, outs, ledgers, Views(qs), quota.View(), n)
        invariant flights == old(flights) + AdmittedInfos(outs)
      {
        ghost var before, l := Views(qs), quota.View();
        ghost var out := VisitNth(qs, n, quotas, MomentAt(moments, n));
        AdmittedAppend(old(flights), outs, out);
        PassStep(start, old(quota.View()), quotas, moments, outs, ledgers, before, l, n, out, Views(qs), quota.View());
        outs, ledgers := outs + [out], ledgers + [quota.View()];
      }
    }

    /** The order of a pass. */
    method Plan() returns (qs: seq<SchedulingQueue>, ghost order: seq<string>)
      requires mq.Valid() && SeparateMap(mq.queueMap) && MapValid(mq.queueMap)
      ensures InOrder(mq.queueMap, order) && Named(mq.queueMap, order) == qs
      ensures Separate(qs) && AllValid(qs) && Views(qs) == old(Views(Named(mq.queueMap, order)))
    {
      qs := mq.SortedQueue();
      order := NamesInOrder(mq.queueMap, qs);
      NamedAreValid(mq.queueMap, order);
    }

    /** schedule: one pass over the queues in SortedQueue's order. */
    method Schedule(quotas: map<string, Quota>, moments: nat -> Moment)
      returns (ghost order: seq<string>, ghost outs: seq<Outcome>, ghost ledgers: seq<Ledger>)
      requires mq.Valid() && SeparateMap(mq.queueMap) && MapValid(mq.queueMap)
      modifies this`flights, quota
      modifies set n | n in mq.queueMap :: mq.queueMap[n].items
      modifies set n | n in mq.queueMap :: mq.queueMap[n].backoffQ
      ensures InOrder(old(mq.queueMap), order)
      ensures AllValid(Named(old(mq.queueMap), order))
      ensures Pass(old(Views(Named(mq.queueMap, order))), old(quota.View()), quotas, moments, outs, ledgers,
                   Views(Named(old(mq.queueMap), order)), quota.View())
      ensures flights == old(flights) + AdmittedInfos(outs)
    {
      var qs;
      qs, order := Plan();
      outs, ledgers := PassOver(qs, quotas, moments);
    }
  }

  ghost predicate AllValid(qs: seq<SchedulingQueue>)
    reads set i | 0 <= i < |qs| :: qs[i].items
    reads set i | 0 <= i < |qs| :: qs[i].backoffQ
  {
    forall i | 0 <= i < |qs| :: qs[i].Valid()
  }

  ghost predicate MapValid(queueMap: map<string, SchedulingQueue>)
    reads set n | n in queueMap :: queueMap[n].items
    reads set n | n in queueMap :: queueMap[n].backoffQ
  {
    forall n | n in queueMap :: queueMap[n].Valid()
  }

  ghost function Views(qs: seq<SchedulingQueue>): (v: seq<QueueState<QueueUnitInfo>>)
    reads set i | 0 <= i < |qs| :: qs[i].items
    reads set i | 0 <= i < |qs| :: qs[i].backoffQ
    ensures |v| == |qs|
    ensures forall i {:trigger v[i]} | 0 <= i < |qs| :: v[i] == qs[i].View()
  {
    if |qs| == 0 then [] else Views(qs[..|qs| - 1]) + [qs[|qs| - 1].View()]
  }

  lemma OneView(qs: seq<SchedulingQueue>, n: nat, before: seq<QueueState<QueueUnitInfo>>)
    requires n < |qs| == |before| && forall i | 0 <= i < |qs| && i != n :: qs[i].View() == before[i]
    ensures Views(qs) == before[n := qs[n].View()]
  {
  }

  /** A queue neither of whose heaps changed is as it was. */
  twostate lemma Kept(q: SchedulingQueue)
    requires old(q.Valid())
    requires q.items.items == old(q.items.items) && q.items.queue == old(q.items.queue)
    requires q.backoffQ.items == old(q.backoffQ.items) && q.backoffQ.queue == old(q.backoffQ.queue)
    ensures q.Valid() && q.View() == old(q.View())
  {
  }

  /** The first n visits of a pass that began with queues s and ledger l. */
  ghost predicate Partly(s: seq<QueueState<QueueUnitInfo>>, l: Ledger, quotas: map<string, Quota>,
                         moments: nat -> Moment, outs: seq<Outcome>, ledgers: seq<Ledger>,
                         t: seq<QueueState<QueueUnitInfo>>, m: Ledger, n: nat)
  {
    && |s| == |t| && n <= |s| && |outs| == n && |ledgers| == n + 1
    && ledgers[0] == l && ledgers[n] == m
    && (forall i | 0 <= i < n :: Visit(s[i], ledgers[i], quotas, MomentAt(moments, i), outs[i], t[i], ledgers[i + 1]))
    && (forall i | n <= i < |s| :: t[i] == s[i])
  }

  /** A whole pass: each queue is visited once, with the ledger the visits before it left. */
  ghost predicate Pass(s: seq<QueueState<QueueUnitInfo>>, l: Ledger, quotas: map<string, Quota>,
                       moments: nat -> Moment, outs: seq<Outcome>, ledgers: seq<Ledger>,
                       t: seq<QueueState<QueueUnitInfo>>, m: Ledger)
  {
    Partly(s, l, quotas, moments, outs, ledgers, t, m, |s|)
  }

  lemma PassStep(s: seq<QueueState<QueueUnitInfo>>, l: Ledger, quotas: map<string, Quota>,
                 moments: nat -> Moment, outs: seq<Outcome>, ledgers: seq<Ledger>,
                 t: seq<QueueState<QueueUnitInfo>>, m: Ledger, n: nat,
                 out: Outcome, t': seq<QueueState<QueueUnitInfo>>, m': Ledger)
    requires Partly(s, l, quotas, moments, outs, ledgers, t, m, n) && n < |s|
    requires |t'| == |t| && t' == t[n := t'[n]] && Visit(t[n], m, quotas, MomentAt(moments, n), out, t'[n], m')
    ensures Partly(s, l, quotas, moments, outs + [out], ledgers + [m'], t', m', n + 1)
  {
  }

  /** One visit of a well-formed queue keeps the quota. */
  lemma VisitKeepsQuota(s: QueueState<QueueUnitInfo>, l: Ledger, quotas: map<string, Quota>,
                        at: Moment, out: Outcome, t: QueueState<QueueUnitInfo>, m: Ledger)
    requires Visit(s, l, quotas, at, out, t, m) && Within(l, quotas)
    requires LimitsOk(quotas)
    requires forall k | k in s.active ::
               var u := s.active[k].unit; NonNegative(ClaimOf(u)) && u.namespace == u.consumerNamespace
    ensures Within(m, quotas)
  {
    if out.Admitted? {
      AdmissionSafe(l, quotas, out.info.unit);
    }
  }

  /** So does a whole pass, at every point of it. */
  lemma {:induction false} PassKeepsQuota(s: seq<QueueState<QueueUnitInfo>>, l: Ledger,
                                          quotas: map<string, Quota>, moments: nat -> Moment,
                                          outs: seq<Outcome>, ledgers: seq<Ledger>,
                                          t: seq<QueueState<QueueUnitInfo>>, m: Ledger, i: nat)
    requires Pass(s, l, quotas, moments, outs, ledgers, t, m) && Within(l, quotas) && i < |ledgers|
    requires LimitsOk(quotas)
    requires forall j | 0 <= j < |s| :: forall k | k in s[j].active ::
               var u := s[j].active[k].unit; NonNegative(ClaimOf(u)) && u.namespace == u.consumerNamespace
    ensures Within(ledgers[i], quotas)
  {
    if i > 0 {
      PassKeepsQuota(s, l, quotas, moments, outs, ledgers, t, m, i - 1);
      VisitKeepsQuota(s[i - 1], ledgers[i - 1], quotas, MomentAt(moments, i - 1), outs[i - 1], t[i - 1], ledgers[i]);
    }
  }

  /**
   Each visit takes exactly one unit from a non-empty active heap, and that unit ends as
   exactly one of admitted and recorded, backing off with one more attempt, or gone.
   */
  lemma VisitAccountsForUnit(s: QueueState<QueueUnitInfo>, l: Ledger, quotas: map<string, Quota>,
                             at: Moment, out: Outcome, t: QueueState<QueueUnitInfo>, m: Ledger)
    requires Visit(s, l, quotas, at, out, t, m)
    ensures out.Skipped? <==> s.active == map[]
    ensures !out.Skipped? ==>
              out.info.name in s.active && t.active == s.active - {out.info.name} && |t.active| == |s.active| - 1
    ensures out.Admitted? <==> m != l
    ensures out.BackedOff? <==> t.backoff != s.backoff
    ensures out.BackedOff? ==> out.info.name !in s.backoff && t.backoff[out.info.name].attempts == out.info.attempts + 1
    ensures out.BackedOff? ==> t.backoff[out.info.name].initialAttemptTimestamp == out.info.initialAttemptTimestamp
  {
  }

  ghost function Named(queueMap: map<string, SchedulingQueue>, order: seq<string>): seq<SchedulingQueue>
    requires forall i | 0 <= i < |order| :: order[i] in queueMap
  {
    seq(|order|, i requires 0 <= i < |order| => queueMap[order[i]])
  }

  lemma NamedAreValid(queueMap: map<string, SchedulingQueue>, order: seq<string>)
    requires (forall i | 0 <= i < |order| :: order[i] in queueMap) && MapValid(queueMap)
    ensures AllValid(Named(queueMap, order))
  {
  }

  /** Every queue once, in non-increasing priority. */
  ghost predicate InOrder(queueMap: map<string, SchedulingQueue>, order: seq<string>)
  {
    && (forall n :: n in order <==> n in queueMap)
    && forall i, j | 0 <= i < j < |order| ::
         && order[i] != order[j]
         && Rank(queueMap[order[i]]) >= Rank(queueMap[order[j]])
  }

  lemma NamesInOrder(queueMap: map<string, SchedulingQueue>, qs: seq<SchedulingQueue>) returns (order: seq<string>)
    requires forall n | n in queueMap :: queueMap[n].queue.namespace == n
    requires NoDuplicates(qs) && Descending(qs) && forall q :: q in qs <==> q in queueMap.Values
    ensures InOrder(queueMap, order) && Named(queueMap, order) == qs
    ensures SeparateMap(queueMap) ==> Separate(qs)
  {
    order := seq(|qs|, i requires 0 <= i < |qs| => qs[i].queue.namespace);
    forall i | 0 <= i < |qs| ensures order[i] in queueMap && queueMap[order[i]] == qs[i] {
      assert qs[i] in queueMap.Values;
    }
    forall n | n in queueMap ensures n in order {
      assert queueMap[n] in queueMap.Values;
      var i :| 0 <= i < |qs| && qs[i] == queueMap[n];
      assert order[i] == n;
    }
    forall i, j | 0 <= i < |qs| && 0 <= j < |qs| && i != j ensures order[i] != order[j] {
      assert qs[i] != qs[j];
    }
    assert Named(queueMap, order) == qs;
  }

  /** The two queues share no heap. */
  ghost predicate Apart(p: SchedulingQueue, q: SchedulingQueue)
  {
    p.items != q.items && p.items != q.backoffQ && p.backoffQ != q.items && p.backoffQ != q.backoffQ
  }

  ghost predicate Separate(qs: seq<SchedulingQueue>)
  {
    forall i, j | 0 <= i < |qs| && 0 <= j < |qs| && i != j :: Apart(qs[i], qs[j])
  }

  ghost predicate SeparateMap(queueMap: map<string, SchedulingQueue>)
  {
    forall m, n | m in queueMap && n in queueMap && m != n :: Apart(queueMap[m], queueMap[n])
  }

  lemma FailureIsVisit(s: QueueState<QueueUnitInfo>, l: Ledger, quotas: map<string, Quota>,
                       at: Moment, info: QueueUnitInfo, t: QueueState<QueueUnitInfo>)
    requires Front(s, info) && !Admissible(l, quotas, info.unit)
    requires t == if Key(info.unit) in at.lookup
                  then AddedUnschedulable(Popped(s, info.name), info.name,
                                          Retried(info, at.lookup[Key(info.unit)], at.now))
                  else Popped(s, info.name)
    ensures Visit(s, l, quotas, at, Failure(s, info, at), t, l)
  {
  }

  ghost function Failure(s: QueueState<QueueUnitInfo>, info: QueueUnitInfo, at: Moment): Outcome
  {
    if Key(info.unit) in at.lookup && info.name !in s.backoff
    then BackedOff(info, Retried(info, at.lookup[Key(info.unit)], at.now))
    else LetGo(info)
  }

  function AdmittedInfos(outs: seq<Outcome>): seq<QueueUnitInfo>
  {
    if |outs| == 0 then []
    else AdmittedInfos(outs[..|outs| - 1]) + if outs[|outs| - 1].Admitted? then [outs[|outs| - 1].info] else []
  }

  lemma AdmittedAppend(base: seq<QueueUnitInfo>, outs: seq<Outcome>, out: Outcome)
    ensures base + AdmittedInfos(outs + [out]) ==
            (base + AdmittedInfos(outs)) + if out.Admitted? then [out.info] else []
  {
  }

  // ---------- repeated failures ----------

  /** One failure of a unit: what the lookup returned, and when. */
  datatype Failed = Failed(unit: QueueUnit, at: int)

  /** An info after a sequence of failures. */
  function RetriedBy(info: QueueUnitInfo, failures: seq<Failed>): QueueUnitInfo
    decreases |failures|
  {
    if |failures| == 0 then info
    else
      var n := |failures| - 1;
      Retried(RetriedBy(info, failures[..n]), failures[n].unit, failures[n].at)
  }

  lemma {:induction false} RetriedFields(info: QueueUnitInfo, failures: seq<Failed>)
    ensures var i := RetriedBy(info, failures);
            && i.name == info.name && i.initialAttemptTimestamp == info.initialAttemptTimestamp
            && i.attempts == info.attempts + |failures|
            && (|failures| > 0 ==>
                  i.timestamp == failures[|failures| - 1].at && i.unit == failures[|failures| - 1].unit)
    decreases |failures|
  {
    if |failures| > 0 {
      RetriedFields(info, failures[..|failures| - 1]);
    }
  }

  /**
   The n-th failure in a row of a newly added unit keeps it backing off from that failure for
   the initial duration doubled n - 1 times, and at most for the maximum once doubled.
   */
  lemma NthFailureBackoff(initial: int, max: int, u: QueueUnit, added: int, failures: seq<Failed>)
    requires 0 <= initial < Backoff.TWO63 && 0 <= max < Backoff.TWO63 && Backoff.NeverOverflows(initial, max)
    requires |failures| > 0
    ensures Backoff.BackoffTime(initial, max, RetriedBy(NewQueueUnitInfo(u, added), failures)) ==
            failures[|failures| - 1].at +
              if |failures| == 1 then initial else Backoff.Min(max, initial * Backoff.Pow2(|failures| - 1))
  {
    RetriedFields(NewQueueUnitInfo(u, added), failures);
    Backoff.ClosedFormIff(initial, max);
  }
}
