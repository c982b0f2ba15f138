/** What the validator answers for the latest version: a matter of the lease, read off the calls. */
module SchemaValidatorLease {
  import opened SchemaValidatorSpec

  predicate Starts(c: Call) { c.Restart? || c.Reset? }

  predicate Forgetting(c: Call) { c.Stop? || c.Reset? }

  /** Every Stop has been followed by a Restart or a Reset. */
  ghost predicate IsStarted(calls: seq<Call>) {
    forall i :: 0 <= i < |calls| && calls[i].Stop? ==> exists j :: i < j < |calls| && Starts(calls[j])
  }

  /** Call `u` is an Update that arrived while the validator was started. */
  ghost predicate Renews(calls: seq<Call>, u: nat) {
    u < |calls| && calls[u].Update? && IsStarted(calls[..u])
  }

  ghost predicate LastRenewal(calls: seq<Call>, u: nat) {
    Renews(calls, u) && forall v :: u < v < |calls| ==> !Renews(calls, v)
  }

  /** The schema is known to be valid up to this time: one millisecond less than a lease after the last renewal. */
  ghost predicate ValidUntil(lease: int, calls: seq<Call>, time: int) {
    if exists u: nat :: LastRenewal(calls, u) then exists u: nat :: LastRenewal(calls, u) && time == calls[u].grantTime + lease - 1
    else time == ZERO_TIME
  }

  /** The latest version: that of the last renewal, unless it has been forgotten since. */
  ghost predicate LatestIs(calls: seq<Call>, version: int) {
    if exists u: nat :: LastRenewal(calls, u) && NotForgotten(calls, u)
    then exists u: nat :: LastRenewal(calls, u) && NotForgotten(calls, u) && version == calls[u].currVer
    else version == 0
  }

  ghost predicate NotForgotten(calls: seq<Call>, u: nat) {
    forall v :: u < v < |calls| ==> !Forgetting(calls[v])
  }

  lemma {:induction false} StartedMore(calls: seq<Call>, c: Call)
    ensures IsStarted(calls + [c]) <==> if c.Stop? then false else Starts(c) || IsStarted(calls)
  {
    var all := calls + [c];
    if c.Stop? {
      assert all[|calls|].Stop?;
    } else if Starts(c) {
      forall i | 0 <= i < |all| && all[i].Stop?
        ensures exists j :: i < j < |all| && Starts(all[j])
      {
        assert Starts(all[|calls|]);
      }
    } else {
      if IsStarted(calls) {
        forall i | 0 <= i < |all| && all[i].Stop?
          ensures exists j :: i < j < |all| && Starts(all[j])
        {
          var j :| i < j < |calls| && Starts(calls[j]);
          assert Starts(all[j]);
        }
      }
      if IsStarted(all) {
        forall i | 0 <= i < |calls| && calls[i].Stop?
          ensures exists j :: i < j < |calls| && Starts(calls[j])
        {
          assert all[i].Stop?;
          var j :| i < j < |all| && Starts(all[j]);
          assert Starts(calls[j]);
        }
      }
    }
  }

  lemma {:induction false} RenewsMore(calls: seq<Call>, c: Call, u: nat)
    ensures Renews(calls + [c], u) <==> if u < |calls| then Renews(calls, u) else u == |calls| && c.Update? && IsStarted(calls)
  {
    if u <= |calls| {
      assert (calls + [c])[..u] == calls[..u];
      assert calls[..|calls|] == calls;
    }
  }

  /** The last renewal after one more call. */
  lemma {:induction false} LastRenewalMore(calls: seq<Call>, c: Call, u: nat)
    ensures LastRenewal(calls + [c], u) <==>
              if c.Update? && IsStarted(calls) then u == |calls| else u < |calls| && LastRenewal(calls, u)
  {
    hide Renews;
    forall v: nat
      ensures Renews(calls + [c], v) <==> if v < |calls| then Renews(calls, v) else v == |calls| && c.Update? && IsStarted(calls)
    {
      RenewsMore(calls, c, v);
    }
    assert Renews(calls + [c], |calls|) <==> c.Update? && IsStarted(calls);
    RenewsInside(calls);
  }

  lemma {:induction false} RenewsInside(calls: seq<Call>)
    ensures forall v: nat :: Renews(calls, v) ==> v < |calls|
  {
  }

  lemma {:induction false} NotForgottenMore(calls: seq<Call>, c: Call, u: nat)
    requires u <= |calls|
    ensures NotForgotten(calls + [c], u) <==> u == |calls| || (NotForgotten(calls, u) && !Forgetting(c))
  {
    var all := calls + [c];
    if NotForgotten(all, u) && u < |calls| {
      assert !Forgetting(all[|calls|]);
      forall v | u < v < |calls|
        ensures !Forgetting(calls[v])
      {
        assert all[v] == calls[v];
      }
    }
  }

  lemma {:induction false} RenewalUnique(calls: seq<Call>, u: nat, v: nat)
    requires LastRenewal(calls, u) && LastRenewal(calls, v)
    ensures u == v
  {
    hide Renews;
    RenewsInside(calls);
  }

  /** What the fields of the validator mean. */
  ghost predicate FieldsMean(lease: int, calls: seq<Call>, v: Validator) {
    && v.lease == lease && (v.started <==> IsStarted(calls))
    && ValidUntil(lease, calls, v.expire) && LatestIs(calls, v.latest)
  }

  lemma {:induction false} RunMeans(lease: int, calls: seq<Call>)
    ensures FieldsMean(lease, calls, Run(New(lease), calls))
    decreases |calls|
  {
    if calls == [] {
      assert !exists u: nat :: LastRenewal(calls, u);
    } else {
      var k := |calls| - 1;
      var before, c := calls[..k], calls[k];
      RunMeans(lease, before);
      assert calls == before + [c];
      ApplyMeans(lease, before, c, Run(New(lease), before));
    }
  }

  lemma {:induction false} ApplyMeans(lease: int, calls: seq<Call>, c: Call, v: Validator)
    requires FieldsMean(lease, calls, v)
    ensures FieldsMean(lease, calls + [c], Apply(v, c))
  {
    hide Enqueue, IsStarted, LastRenewal, NotForgotten;
    StartedMore(calls, c);
    var all, v' := calls + [c], Apply(v, c);
    forall u: nat
      ensures LastRenewal(all, u) <==> if c.Update? && IsStarted(calls) then u == |calls| else u < |calls| && LastRenewal(calls, u)
    {
      LastRenewalMore(calls, c, u);
    }
    forall u: nat | u <= |calls|
      ensures NotForgotten(all, u) <==> u == |calls| || (NotForgotten(calls, u) && !Forgetting(c))
    {
      NotForgottenMore(calls, c, u);
    }
    if c.Update? && IsStarted(calls) {
      assert LastRenewal(all, |calls|) && NotForgotten(all, |calls|) && all[|calls|] == c;
    } else {
      SameRenewal(lease, calls, c, v);
    }
  }

  /** A call that does not renew the lease keeps the time, and the version unless it forgets. */
  lemma {:induction false} SameRenewal(lease: int, calls: seq<Call>, c: Call, v: Validator)
    requires FieldsMean(lease, calls, v) && !(c.Update? && IsStarted(calls))
    ensures ValidUntil(lease, calls + [c], v.expire)
    ensures LatestIs(calls + [c], if Forgetting(c) then 0 else v.latest)
  {
    hide IsStarted, LastRenewal, NotForgotten;
    var all := calls + [c];
    forall u: nat
      ensures LastRenewal(all, u) <==> u < |calls| && LastRenewal(calls, u)
    {
      LastRenewalMore(calls, c, u);
    }
    forall u: nat | u < |calls|
      ensures NotForgotten(all, u) <==> NotForgotten(calls, u) && !Forgetting(c)
    {
      NotForgottenMore(calls, c, u);
    }
    forall u: nat | LastRenewal(calls, u)
      ensures u < |calls|
    {
      RenewalInside(calls, u);
    }
    if u: nat :| LastRenewal(calls, u) {
      assert LastRenewal(all, u) && all[u] == calls[u];
      UntilIs(lease, calls, v.expire, u);
    }
    if u: nat :| LastRenewal(calls, u) && NotForgotten(calls, u) {
      assert LastRenewal(all, u) && all[u] == calls[u];
      LatestUnique(calls, v.latest, u);
    }
  }

  lemma {:induction false} RenewalInside(calls: seq<Call>, u: nat)
    requires LastRenewal(calls, u)
    ensures u < |calls| && calls[u].Update?
  {
  }

  lemma {:induction false} UntilIs(lease: int, calls: seq<Call>, time: int, u: nat)
    requires ValidUntil(lease, calls, time) && LastRenewal(calls, u)
    ensures u < |calls| && calls[u].Update? && time == calls[u].grantTime + lease - 1
  {
    hide LastRenewal;
    RenewalInside(calls, u);
    forall w: nat | LastRenewal(calls, w)
      ensures w == u
    {
      RenewalUnique(calls, u, w);
    }
  }

  lemma {:induction false} LatestUnique(calls: seq<Call>, version: int, u: nat)
    requires LatestIs(calls, version) && LastRenewal(calls, u) && NotForgotten(calls, u)
    ensures u < |calls| && calls[u].Update? && version == calls[u].currVer
  {
    hide LastRenewal, NotForgotten;
    RenewalInside(calls, u);
    forall w: nat | LastRenewal(calls, w)
      ensures w == u
    {
      RenewalUnique(calls, u, w);
    }
  }

  /** For a version that is not older than the latest, a started validator answers by the lease alone: success up to one
      millisecond less than a lease after the last renewal, unknown from then on. A stopped validator knows nothing. */
  lemma {:induction false} LatestCheck(lease: int, calls: seq<Call>, time: int, version: int, tables: seq<int>, latest: int, until: int)
    requires LatestIs(calls, latest) && ValidUntil(lease, calls, until)
    ensures !IsStarted(calls) ==> Check(Run(New(lease), calls), time, version, tables) == ResultUnknown
    ensures IsStarted(calls) && lease != 0 && version >= latest ==>
              Check(Run(New(lease), calls), time, version, tables) == if time <= until then ResultSucc else ResultUnknown
    ensures IsStarted(calls) && lease == 0 ==> Check(Run(New(lease), calls), time, version, tables) == ResultSucc
  {
    hide IsStarted, TablesChanged;
    RunMeans(lease, calls);
    SameTime(lease, calls, until, Run(New(lease), calls).expire);
    SameLatest(calls, latest, Run(New(lease), calls).latest);
  }

  lemma {:induction false} SameTime(lease: int, calls: seq<Call>, a: int, b: int)
    requires ValidUntil(lease, calls, a) && ValidUntil(lease, calls, b)
    ensures a == b
  {
    hide LastRenewal;
    if u: nat :| LastRenewal(calls, u) {
      UntilIs(lease, calls, a, u);
      UntilIs(lease, calls, b, u);
    }
  }

  lemma {:induction false} SameLatest(calls: seq<Call>, a: int, b: int)
    requires LatestIs(calls, a) && LatestIs(calls, b)
    ensures a == b
  {
    hide LastRenewal, NotForgotten;
    if u: nat :| LastRenewal(calls, u) && NotForgotten(calls, u) {
      LatestUnique(calls, a, u);
      LatestUnique(calls, b, u);
    }
  }
}
