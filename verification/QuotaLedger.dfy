/**
 The reservation ledger and admission filter of
 pkg/framework/plugins/resourcequota/resource_quota.go.
 */
module QuotaLedger {
  import opened Orders
  import opened Units

  /** reserved holds a running total per namespace; quRecord the keys that are reserved. */
  datatype Ledger = Ledger(reserved: map<string, ResourceList>, quRecord: set<string>)

  const EMPTY_LEDGER := Ledger(map[], {})

  function Quantity(m: ResourceList, r: string): int
  {
    if r in m then m[r] else 0
  }

  function InNamespace(l: Ledger, ns: string): ResourceList
  {
    if ns in l.reserved then l.reserved[ns] else map[]
  }

  /** What GetReservedByResourceName reads. */
  function Reserved(l: Ledger, ns: string, r: string): int
  {
    Quantity(InNamespace(l, ns), r)
  }

  /** Pointwise sum: what Reserve's loop computes in any iteration order. */
  function Sum(a: ResourceList, b: ResourceList): ResourceList
  {
    map r | r in a.Keys + b.Keys :: Quantity(a, r) + Quantity(b, r)
  }

  /** Pointwise difference, dropping what falls to zero or below and skipping what is absent. */
  function ClampedDiff(a: ResourceList, b: ResourceList): ResourceList
  {
    map r | r in a && !(r in b && a[r] - b[r] <= 0) :: a[r] - Quantity(b, r)
  }

  function AfterReserve(l: Ledger, u: QueueUnit): Ledger
  {
    if Key(u) in l.quRecord then l
    else Ledger(l.reserved[u.namespace := Sum(InNamespace(l, u.namespace), u.resource)], l.quRecord + {Key(u)})
  }

  function AfterUnreserve(l: Ledger, u: QueueUnit): Ledger
  {
    if Key(u) !in l.quRecord || u.namespace !in l.reserved then l
    else Ledger(l.reserved[u.namespace := ClampedDiff(l.reserved[u.namespace], u.resource)], l.quRecord - {Key(u)})
  }

  /** The quota Filter finds: none, one without a hard limit, or its limits. */
  datatype Quota = LookupFailed | NoHard | Hard(limits: ResourceList)

  predicate FilterOk(l: Ledger, quota: Quota, u: QueueUnit)
  {
    && quota.Hard?
    && forall r | r in u.resource && r in quota.limits ::
         Reserved(l, u.consumerNamespace, r) + u.resource[r] <= quota.limits[r]
  }

  class ResourceQuota {
    var reserved: map<string, ResourceList>
    var quRecord: set<string>

    ghost function View(): Ledger
      reads this
    {
      Ledger(reserved, quRecord)
    }

    constructor ()
      ensures View() == EMPTY_LEDGER
    {
      reserved, quRecord := map[], {};
    }

    method Reserve(u: QueueUnit) returns (ok: bool)
      modifies this
      ensures ok <==> Key(u) !in old(quRecord)
      ensures View() == AfterReserve(old(View()), u)
    {
      if Key(u) in quRecord {
        return false;
      }
      ghost var before := InNamespace(View(), u.namespace);
      var reservedNS := if u.namespace in reserved then reserved[u.namespace] else map[];
      var todo := u.resource.Keys;
      while todo != {}
        invariant todo <= u.resource.Keys
        invariant reservedNS.Keys == before.Keys + (u.resource.Keys - todo)
        invariant forall r | r in reservedNS ::
            reservedNS[r] == Quantity(before, r) + (if r in todo then 0 else Quantity(u.resource, r))
      {
        var r :| r in todo;
        reservedNS := reservedNS[r := if r in reservedNS then u.resource[r] + reservedNS[r] else u.resource[r]];
        todo := todo - {r};
      }
      assert reservedNS == Sum(before, u.resource);
      reserved := reserved[u.namespace := reservedNS];
      quRecord := quRecord + {Key(u)};
      ok := true;
    }

    method Unreserve(u: QueueUnit)
      modifies this
      ensures View() == AfterUnreserve(old(View()), u)
    {
      if Key(u) !in quRecord || u.namespace !in reserved {
        return;
      }
      ghost var before := reserved[u.namespace];
      var reservedNS := reserved[u.namespace];
      var todo := u.resource.Keys;
      while todo != {}
        invariant todo <= u.resource.Keys
        invariant forall r :: r in reservedNS <==>
            r in before && !(r in u.resource && r !in todo && before[r] - u.resource[r] <= 0)
        invariant forall r | r in reservedNS ::
            reservedNS[r] == before[r] - (if r in todo then 0 else Quantity(u.resource, r))
      {
        var r :| r in todo;
        if r in reservedNS {
          var val := reservedNS[r] - u.resource[r];
          reservedNS := if val <= 0 then reservedNS - {r} else reservedNS[r := val];
        }
        todo := todo - {r};
      }
      assert reservedNS == ClampedDiff(before, u.resource);
      reserved := reserved[u.namespace := reservedNS];
      quRecord := quRecord - {Key(u)};
    }

    method GetReservedByResourceName(ns: string, r: string) returns (q: int)
      ensures q == Reserved(View(), ns, r)
    {
      var reservedNS := if ns in reserved then reserved[ns] else map[];
      q := if r in reservedNS then reservedNS[r] else 0;
    }

    /** The check loop gives the same verdict whatever order it takes the resources in. */
    method Filter(u: QueueUnit, quota: Quota) returns (ok: bool)
      ensures ok <==> FilterOk(View(), quota, u)
      ensures ok ==> quota.Hard?
      ensures quota.Hard? ==>
                (ok <==> forall r | r in u.resource && r in quota.limits ::
                           (if u.consumerNamespace in reserved && r in reserved[u.consumerNamespace]
                            then reserved[u.consumerNamespace][r] else 0) + u.resource[r] <= quota.limits[r])
    {
      if !quota.Hard? {
        return false;
      }
      var todo := u.resource.Keys;
      while todo != {}
        invariant todo <= u.resource.Keys
        invariant forall r | r in u.resource.Keys - todo && r in quota.limits ::
            Reserved(View(), u.consumerNamespace, r) + u.resource[r] <= quota.limits[r]
      {
        var r :| r in todo;
        if r in quota.limits {
          var got := GetReservedByResourceName(u.consumerNamespace, r);
          if quota.limits[r] < got + u.resource[r] {
            return false;
          }
        }
        todo := todo - {r};
      }
      ok := true;
    }
  }

  // ---------- exactness: the running totals agree with the recorded units ----------

  /** What a recorded unit holds. */
  datatype Claim = Claim(namespace: string, resource: ResourceList)

  function ClaimOf(u: QueueUnit): Claim
  {
    Claim(u.namespace, u.resource)
  }

  /** A claim's part in the total of resource r in namespace ns. */
  function Share(c: Claim, ns: string, r: string): int
  {
    if c.namespace == ns then Quantity(c.resource, r) else 0
  }

  /** The true total: the sum over the recorded claims themselves. */
  ghost function Total(rec: map<string, Claim>, ns: string, r: string): int
    decreases |rec|
  {
    if rec == map[] then 0
    else
      var k :| k in rec;
      Share(rec[k], ns, r) + Total(rec - {k}, ns, r)
  }

  lemma {:induction false} TotalWithout(rec: map<string, Claim>, k: string, ns: string, r: string)
    requires k in rec
    ensures Total(rec, ns, r) == Share(rec[k], ns, r) + Total(rec - {k}, ns, r)
    decreases |rec|
  {
    var j :| j in rec && Total(rec, ns, r) == Share(rec[j], ns, r) + Total(rec - {j}, ns, r);
    if j != k {
      assert (rec - {j}) - {k} == (rec - {k}) - {j};
      TotalWithout(rec - {j}, k, ns, r);
      TotalWithout(rec - {k}, j, ns, r);
    }
  }

  predicate NonNegative(c: Claim)
  {
    forall r | r in c.resource :: c.resource[r] >= 0
  }

  lemma {:induction false} TotalNonNegative(rec: map<string, Claim>, ns: string, r: string)
    requires forall k | k in rec :: NonNegative(rec[k])
    ensures Total(rec, ns, r) >= 0
    decreases |rec|
  {
    if rec != map[] {
      var k :| k in rec;
      TotalWithout(rec, k, ns, r);
      assert NonNegative(rec[k]);
      TotalNonNegative(rec - {k}, ns, r);
    }
  }

  /** The ledger records exactly the keys of rec and reads exactly their totals. */
  ghost predicate Exact(l: Ledger, rec: map<string, Claim>)
  {
    && l.quRecord == rec.Keys
    && (forall k | k in rec :: rec[k].namespace in l.reserved)
    && forall ns, r :: Reserved(l, ns, r) == Total(rec, ns, r)
  }

  lemma ReserveReads(l: Ledger, u: QueueUnit, ns: string, r: string)
    requires Key(u) !in l.quRecord
    ensures Reserved(AfterReserve(l, u), ns, r) == Reserved(l, ns, r) + Share(ClaimOf(u), ns, r)
  {
  }

  lemma ReserveExact(l: Ledger, rec: map<string, Claim>, u: QueueUnit)
    requires Exact(l, rec) && Key(u) !in rec
    ensures Exact(AfterReserve(l, u), rec[Key(u) := ClaimOf(u)])
  {
    var rec' := rec[Key(u) := ClaimOf(u)];
    forall ns, r ensures Reserved(AfterReserve(l, u), ns, r) == Total(rec', ns, r) {
      TotalWithout(rec', Key(u), ns, r);
      assert rec' - {Key(u)} == rec;
      ReserveReads(l, u, ns, r);
    }
  }

  /** u carries the namespace and resources it was recorded with. */
  predicate Matches(rec: map<string, Claim>, u: QueueUnit)
  {
    Key(u) in rec ==> rec[Key(u)] == ClaimOf(u)
  }

  /**
   Quantities of any sign: one Unreserve keeps the ledger exact if and only if no requested
   resource takes the clamped branch with a deficit or the skipped branch with a non-zero
   request. Both can be read off the ledger before the call.
   */
  lemma UnreserveExactIff(l: Ledger, rec: map<string, Claim>, u: QueueUnit)
    requires Exact(l, rec) && Key(u) in rec && Matches(rec, u)
    ensures Exact(AfterUnreserve(l, u), rec - {Key(u)}) <==>
            forall r | r in u.resource ::
              if r in l.reserved[u.namespace] then l.reserved[u.namespace][r] >= u.resource[r] else u.resource[r] == 0
  {
    var l', rec' := AfterUnreserve(l, u), rec - {Key(u)};
    var ns := u.namespace;
    forall m, r ensures m != ns || r !in u.resource ==> Reserved(l', m, r) == Total(rec', m, r) {
      TotalWithout(rec, Key(u), m, r);
    }
    forall r | r in u.resource
      ensures Reserved(l', ns, r) == Total(rec', ns, r) <==>
              if r in l.reserved[ns] then l.reserved[ns][r] >= u.resource[r] else u.resource[r] == 0
    {
      TotalWithout(rec, Key(u), ns, r);
      assert Reserved(l, ns, r) == Total(rec, ns, r);
    }
  }

  /** With non-negative quantities that condition always holds. */
  lemma UnreserveExact(l: Ledger, rec: map<string, Claim>, u: QueueUnit)
    requires Exact(l, rec) && Key(u) in rec && Matches(rec, u)
    requires forall k | k in rec :: NonNegative(rec[k])
    ensures Exact(AfterUnreserve(l, u), rec - {Key(u)})
  {
    forall r | r in u.resource
      ensures if r in l.reserved[u.namespace] then l.reserved[u.namespace][r] >= u.resource[r] else u.resource[r] == 0
    {
      assert NonNegative(rec[Key(u)]);
      TotalWithout(rec, Key(u), u.namespace, r);
      TotalNonNegative(rec - {Key(u)}, u.namespace, r);
      assert Reserved(l, u.namespace, r) == Total(rec, u.namespace, r);
    }
    UnreserveExactIff(l, rec, u);
  }

  /** With a negative quantity it can fail: releasing 5 from 5 - 3 leaves 0, not -3. */
  lemma NegativeQuantityBreaksExactness() returns (a: QueueUnit, b: QueueUnit)
    ensures !NonNegative(ClaimOf(b))
    ensures var l := AfterReserve(AfterReserve(EMPTY_LEDGER, a), b);
            var rec := map[Key(a) := ClaimOf(a), Key(b) := ClaimOf(b)];
            Exact(l, rec) && !Exact(AfterUnreserve(l, a), rec - {Key(a)})
  {
    a := QueueUnit("n", "a", "n", None, map["cpu" := 5], Enqueued);
    b := QueueUnit("n", "b", "n", None, map["cpu" := -3], Enqueued);
    assert Key(a)[2] != Key(b)[2];
    assert ClaimOf(b).resource["cpu"] < 0;
    assert Exact(EMPTY_LEDGER, map[]);
    ReserveExact(EMPTY_LEDGER, map[], a);
    var l1 := AfterReserve(EMPTY_LEDGER, a);
    ReserveExact(l1, map[Key(a) := ClaimOf(a)], b);
    var l, rec := AfterReserve(l1, b), map[Key(a) := ClaimOf(a), Key(b) := ClaimOf(b)];
    assert rec == map[Key(a) := ClaimOf(a)][Key(b) := ClaimOf(b)];
    ReserveReads(EMPTY_LEDGER, a, "n", "cpu");
    ReserveReads(l1, b, "n", "cpu");
    assert Reserved(l, "n", "cpu") == 2;
    UnreserveExactIff(l, rec, a);
  }

  datatype LedgerOp = Reserve(u: QueueUnit) | Unreserve(u: QueueUnit)

  function Apply(l: Ledger, op: LedgerOp): Ledger
  {
    match op
    case Reserve(u) => AfterReserve(l, u)
    case Unreserve(u) => AfterUnreserve(l, u)
  }

  function Record(rec: map<string, Claim>, op: LedgerOp): map<string, Claim>
  {
    match op
    case Reserve(u) => if Key(u) in rec then rec else rec[Key(u) := ClaimOf(u)]
    case Unreserve(u) => rec - {Key(u)}
  }

  /** Requests are non-negative and each Unreserve carries what its Reserve carried. */
  predicate Matched(rec: map<string, Claim>, ops: seq<LedgerOp>)
    decreases |ops|
  {
    |ops| == 0 ||
    (&& (if ops[0].Reserve? then NonNegative(ClaimOf(ops[0].u)) else Matches(rec, ops[0].u))
     && Matched(Record(rec, ops[0]), ops[1..]))
  }

  function RunLedger(l: Ledger, ops: seq<LedgerOp>): Ledger
    decreases |ops|
  {
    if |ops| == 0 then l else RunLedger(Apply(l, ops[0]), ops[1..])
  }

  function RunRecord(rec: map<string, Claim>, ops: seq<LedgerOp>): map<string, Claim>
    decreases |ops|
  {
    if |ops| == 0 then rec else RunRecord(Record(rec, ops[0]), ops[1..])
  }

  /** Exactness after any matched sequence of Reserve and Unreserve calls. */
  lemma {:induction false} ExactForever(l: Ledger, rec: map<string, Claim>, ops: seq<LedgerOp>)
    requires Exact(l, rec) && (forall k | k in rec :: NonNegative(rec[k])) && Matched(rec, ops)
    ensures Exact(RunLedger(l, ops), RunRecord(rec, ops))
    decreases |ops|
  {
    if |ops| > 0 {
      var op := ops[0];
      if op.Reserve? && Key(op.u) !in rec {
        ReserveExact(l, rec, op.u);
      } else if op.Unreserve? && Key(op.u) in rec {
        UnreserveExact(l, rec, op.u);
      } else {
        assert Record(rec, op) == rec && Apply(l, op) == l;
      }
      ExactForever(Apply(l, op), Record(rec, op), ops[1..]);
    }
  }

  // ---------- admission: Filter then Reserve keeps the quota ----------

  /** What Filter finds in a namespace. */
  function QuotaOf(quotas: map<string, Quota>, ns: string): Quota
  {
    if ns in quotas then quotas[ns] else LookupFailed
  }

  /** The namespace has a quota with hard limits. */
  predicate HasHard(quotas: map<string, Quota>, ns: string)
  {
    QuotaOf(quotas, ns).Hard?
  }

  /** Resource r is limited in the namespace. */
  predicate Limited(quotas: map<string, Quota>, ns: string, r: string)
  {
    HasHard(quotas, ns) && r in QuotaOf(quotas, ns).limits
  }

  function LimitOf(quotas: map<string, Quota>, ns: string, r: string): int
    requires Limited(quotas, ns, r)
  {
    QuotaOf(quotas, ns).limits[r]
  }

  /** Nothing is negative and no limited total exceeds its limit. */
  ghost predicate Within(l: Ledger, quotas: map<string, Quota>)
  {
    && (forall ns, r :: Reserved(l, ns, r) >= 0)
    && forall ns, r | Limited(quotas, ns, r) :: Reserved(l, ns, r) <= LimitOf(quotas, ns, r)
  }

  /** The unit asks for more of something than the whole quota Filter looks at. */
  predicate NeverFits(quotas: map<string, Quota>, u: QueueUnit)
  {
    || !HasHard(quotas, u.consumerNamespace)
    || exists r | r in u.resource && Limited(quotas, u.consumerNamespace, r) ::
         u.resource[r] > LimitOf(quotas, u.consumerNamespace, r)
  }

  /** The unit asks for none of what is limited in the namespace Reserve charges. */
  predicate ChargesNothing(quotas: map<string, Quota>, u: QueueUnit)
  {
    || !HasHard(quotas, u.namespace)
    || forall r | r in u.resource && Limited(quotas, u.namespace, r) :: u.resource[r] == 0
  }

  /** A ledger that some sequence of non-negative Reserve and matching Unreserve calls leaves. */
  ghost predicate Attained(l: Ledger)
  {
    exists ops :: Matched(map[], ops) && RunLedger(EMPTY_LEDGER, ops) == l
  }

  ghost predicate LimitsOk(quotas: map<string, Quota>)
  {
    forall ns, r | Limited(quotas, ns, r) :: LimitOf(quotas, ns, r) >= 0
  }

  lemma OneReservationAttained(v: QueueUnit)
    requires NonNegative(ClaimOf(v))
    ensures Attained(AfterReserve(EMPTY_LEDGER, v))
  {
    var ops := [LedgerOp.Reserve(v)];
    var l := AfterReserve(EMPTY_LEDGER, v);
    assert ops[1..] == [] && Apply(EMPTY_LEDGER, ops[0]) == l;
    assert RunLedger(l, []) == l && Matched(Record(map[], ops[0]), []);
    assert Matched(map[], ops) && RunLedger(EMPTY_LEDGER, ops) == RunLedger(l, ops[1..]);
  }

  /** A unit that passes Filter is reserved within quota, if the two namespaces it is checked and charged in agree. */
  lemma AdmissionSafe(l: Ledger, quotas: map<string, Quota>, u: QueueUnit)
    requires NonNegative(ClaimOf(u)) && LimitsOk(quotas) && Within(l, quotas) && Key(u) !in l.quRecord
    requires FilterOk(l, QuotaOf(quotas, u.consumerNamespace), u)
    requires u.namespace == u.consumerNamespace || NeverFits(quotas, u) || ChargesNothing(quotas, u)
    ensures Within(AfterReserve(l, u), quotas)
  {
    forall ns, r
      ensures Reserved(AfterReserve(l, u), ns, r) >= 0
      ensures Limited(quotas, ns, r) ==> Reserved(AfterReserve(l, u), ns, r) <= LimitOf(quotas, ns, r)
    {
      ReserveReads(l, u, ns, r);
    }
  }

  /** Otherwise a unit that fills the charged namespace first leaves a ledger from which it is not. */
  lemma AdmissionUnsafe(quotas: map<string, Quota>, u: QueueUnit) returns (l: Ledger)
    requires NonNegative(ClaimOf(u)) && LimitsOk(quotas)
    requires u.namespace != u.consumerNamespace && !NeverFits(quotas, u) && !ChargesNothing(quotas, u)
    ensures Attained(l) && Within(l, quotas) && Key(u) !in l.quRecord
    ensures FilterOk(l, QuotaOf(quotas, u.consumerNamespace), u) && !Within(AfterReserve(l, u), quotas)
  {
    var v := QueueUnit(u.namespace, u.name + "x", u.namespace, None, QuotaOf(quotas, u.namespace).limits, Enqueued);
    l := AfterReserve(EMPTY_LEDGER, v);
    assert forall r | r in v.resource :: LimitOf(quotas, u.namespace, r) >= 0;
    OneReservationAttained(v);
    assert |Key(v)| != |Key(u)|;
    forall ns, r ensures Reserved(l, ns, r) == Share(ClaimOf(v), ns, r) {
      ReserveReads(EMPTY_LEDGER, v, ns, r);
    }
    var r :| r in u.resource && Limited(quotas, u.namespace, r) && u.resource[r] != 0;
    ReserveReads(l, u, u.namespace, r);
  }

  /**
   Filter checks the consumer's namespace and Reserve charges the unit's own. A unit that
   passes Filter is reserved within quota from every ledger the code can have if and only if
   the two namespaces agree, or it never passes, or it charges nothing.
   */
  lemma AdmissionSafeIff(quotas: map<string, Quota>, u: QueueUnit)
    requires NonNegative(ClaimOf(u)) && LimitsOk(quotas)
    ensures (forall l | Attained(l) && Within(l, quotas) && Key(u) !in l.quRecord &&
                        FilterOk(l, QuotaOf(quotas, u.consumerNamespace), u) :: Within(AfterReserve(l, u), quotas))
            <==> u.namespace == u.consumerNamespace || NeverFits(quotas, u) || ChargesNothing(quotas, u)
  {
    if u.namespace == u.consumerNamespace || NeverFits(quotas, u) || ChargesNothing(quotas, u) {
      forall l | Attained(l) && Within(l, quotas) && Key(u) !in l.quRecord &&
                 FilterOk(l, QuotaOf(quotas, u.consumerNamespace), u)
        ensures Within(AfterReserve(l, u), quotas)
      {
        AdmissionSafe(l, quotas, u);
      }
    } else {
      var l := AdmissionUnsafe(quotas, u);
    }
  }

  /** When they differ it can fail: a full namespace is charged because an empty one was checked. */
  lemma SplitNamespacesBreakQuota() returns (quotas: map<string, Quota>, v: QueueUnit, u: QueueUnit)
    ensures NonNegative(ClaimOf(v)) && NonNegative(ClaimOf(u)) && Key(u) != Key(v)
    ensures var l := AfterReserve(EMPTY_LEDGER, v);
            && Attained(l) && Within(l, quotas) && FilterOk(l, QuotaOf(quotas, u.consumerNamespace), u)
            && !Within(AfterReserve(l, u), quotas)
  {
    quotas := map["own" := Hard(map["cpu" := 1]), "other" := Hard(map["cpu" := 1])];
    v := QueueUnit("own", "v", "own", None, map["cpu" := 1], Enqueued);
    u := QueueUnit("own", "u", "other", None, map["cpu" := 1], Enqueued);
    assert "own" != "other" && Key(u)[4] != Key(v)[4];
    OneReservationAttained(v);
    var l := AfterReserve(EMPTY_LEDGER, v);
    forall ns, r ensures Reserved(l, ns, r) == Share(ClaimOf(v), ns, r) {
      ReserveReads(EMPTY_LEDGER, v, ns, r);
    }
    ReserveReads(l, u, "own", "cpu");
  }
}
