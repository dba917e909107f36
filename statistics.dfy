/** The statistics endpoints: a summary with the deed count per status, the
    time deeds spend in each status read off the status-change audit lines,
    and a daily timeline merging two per-date series. Timestamps and
    durations are integers. */
module Statistics {
  import opened Common
  import opened Seqs
  import opened Dicts
  import opened DeedSchemas
  import opened Store
  import Signing

  // ---------------------------------------------------------------- summary

  /** One entry of `status_distribution`. */
  datatype StatusCount = StatusCount(status: string, count: nat)

  function CountStatus(c: StatusCount): string { c.status }

  /** `status_distribution.get(status, 0)`. */
  function CountOf(dist: seq<StatusCount>, status: string): nat
    requires DistinctKeys(dist, CountStatus)
  {
    if status in KeySet(dist, CountStatus) then LastWith(dist, CountStatus, status).count else 0
  }

  /** The sum of the counts. */
  function Total(dist: seq<StatusCount>): nat {
    if dist == [] then 0 else dist[0].count + Total(dist[1..])
  }

  lemma DistinctKeysTail<T>(d: seq<T>, key: T -> string)
    requires DistinctKeys(d, key) && d != []
    ensures DistinctKeys(d[1..], key)
  {
    forall i, j | 0 <= i < j < |d[1..]| ensures key(d[1..][i]) != key(d[1..][j]) {
      assert d[1..][i] == d[i + 1] && d[1..][j] == d[j + 1];
    }
  }

  /** Writing a count for a status changes the total by the difference with
      the count the status had. */
  lemma {:induction false} TotalPut(d: seq<StatusCount>, x: StatusCount)
    requires DistinctKeys(d, CountStatus)
    ensures Total(Put(d, x, CountStatus)) + CountOf(d, x.status) == Total(d) + x.count
  {
    if d != [] {
      var rest := d[1..];
      assert d == [d[0]] + rest;
      KeySetCons(d[0], rest, CountStatus);
      DistinctKeysTail(d, CountStatus);
      if d[0].status == x.status {
        DistinctKeysUnique(d, CountStatus, d[0], LastWith(d, CountStatus, x.status));
      } else {
        TotalPut(rest, x);
        if x.status in KeySet(rest, CountStatus) {
          DistinctKeysUnique(d, CountStatus, LastWith(rest, CountStatus, x.status), LastWith(d, CountStatus, x.status));
        }
      }
    }
  }

  /** Writing a count for a status: that status has the new count, the others keep theirs. */
  lemma CountOfPut(d: seq<StatusCount>, x: StatusCount, k: string)
    requires DistinctKeys(d, CountStatus)
    ensures CountOf(Put(d, x, CountStatus), k) == if k == x.status then x.count else CountOf(d, k)
  {
    if k in KeySet(Put(d, x, CountStatus), CountStatus) {
      LastWithPut(d, x, CountStatus, k);
    }
  }

  /** `dist` counts the statuses of `seen`: one entry per status, in the
      order of first occurrence, with the number of times it occurs. */
  ghost predicate Counts(dist: seq<StatusCount>, seen: seq<string>) {
    && DistinctKeys(dist, CountStatus)
    && (forall k :: k in KeySet(dist, CountStatus) <==> k in seen)
    && (forall k {:trigger CountOf(dist, k)} :: CountOf(dist, k) == multiset(seen)[k])
    && Total(dist) == |seen|
  }

  /** Counting one more row keeps the counts right. */
  lemma CountsStep(dist: seq<StatusCount>, seen: seq<string>, status: string)
    requires Counts(dist, seen)
    ensures Counts(Put(dist, StatusCount(status, CountOf(dist, status) + 1), CountStatus), seen + [status])
  {
    var entry := StatusCount(status, CountOf(dist, status) + 1);
    TotalPut(dist, entry);
    CountOfStep(dist, seen, status);
    assert forall k :: k in KeySet(Put(dist, entry, CountStatus), CountStatus) <==> k in seen + [status];
  }

  lemma CountOfStep(dist: seq<StatusCount>, seen: seq<string>, status: string)
    requires DistinctKeys(dist, CountStatus)
    requires forall k {:trigger CountOf(dist, k)} :: CountOf(dist, k) == multiset(seen)[k]
    ensures forall k {:trigger CountOf(Put(dist, StatusCount(status, CountOf(dist, status) + 1), CountStatus), k)} ::
              CountOf(Put(dist, StatusCount(status, CountOf(dist, status) + 1), CountStatus), k)
              == multiset(seen + [status])[k]
  {
    var entry := StatusCount(status, CountOf(dist, status) + 1);
    assert multiset(seen + [status]) == multiset(seen) + multiset{status};
    forall k ensures CountOf(Put(dist, entry, CountStatus), k) == multiset(seen + [status])[k] {
      CountOfPut(dist, entry, k);
    }
  }

  /** The status-distribution loop: each status seen is counted once per
      row, in the order of first occurrence, and the counts add up to the
      number of rows. */
  method StatusDistribution(statuses: seq<string>) returns (dist: seq<StatusCount>)
    ensures DistinctKeys(dist, CountStatus)
    ensures forall k :: k in KeySet(dist, CountStatus) <==> k in statuses
    ensures forall k {:trigger CountOf(dist, k)} :: CountOf(dist, k) == multiset(statuses)[k]
    ensures Total(dist) == |statuses|
  {
    dist := [];
    var i := 0;
    while i < |statuses|
      invariant 0 <= i <= |statuses|
      invariant Counts(dist, statuses[..i])
    {
      var status := statuses[i];
      CountsStep(dist, statuses[..i], status);
      dist := Put(dist, StatusCount(status, CountOf(dist, status) + 1), CountStatus);
      PrefixSnoc(statuses, i);
      i := i + 1;
    }
    assert statuses[..i] == statuses;
  }

  datatype StatsSummary = StatsSummary(totalDeeds: nat, totalCooperatives: nat,
                                       statusDistribution: seq<StatusCount>, averageBorrowersPerDeed: real)

  /** Borrowers per deed, 0 when there are no deeds. */
  function AverageBorrowers(borrowers: nat, deeds: nat): (r: real)
    ensures deeds == 0 ==> r == 0.0
    ensures deeds > 0 ==> r * (deeds as real) == borrowers as real
  {
    if deeds > 0 then (borrowers as real) / (deeds as real) else 0.0
  }

  function DeedStatusName(d: Deed): string { StatusName(d.status) }

  /** get_stats_summary: the row counts of the deed and cooperative tables,
      the status distribution of the deeds and the borrowers per deed. */
  method GetStatsSummary(db: Database) returns (s: StatsSummary)
    ensures s.totalDeeds == |db.deeds| && s.totalCooperatives == |db.cooperatives|
    ensures DistinctKeys(s.statusDistribution, CountStatus)
    ensures forall k :: k in KeySet(s.statusDistribution, CountStatus) <==> exists d :: d in db.deeds && StatusName(d.status) == k
    ensures forall st :: CountOf(s.statusDistribution, StatusName(st)) == |Filter(db.deeds, DeedHasStatus(st))|
    ensures Total(s.statusDistribution) == |db.deeds|
    ensures s.averageBorrowersPerDeed == AverageBorrowers(|db.borrowers|, |db.deeds|)
  {
    var statuses := Map(db.deeds, DeedStatusName);
    var dist := StatusDistribution(statuses);
    forall k ensures k in statuses <==> exists d :: d in db.deeds && StatusName(d.status) == k {
      if k in statuses {
        var i :| 0 <= i < |statuses| && statuses[i] == k;
        assert db.deeds[i] in db.deeds;
      }
      if exists d :: d in db.deeds && StatusName(d.status) == k {
        var d :| d in db.deeds && StatusName(d.status) == k;
        var i :| 0 <= i < |db.deeds| && db.deeds[i] == d;
        assert statuses[i] == k;
      }
    }
    forall st ensures CountOf(dist, StatusName(st)) == |Filter(db.deeds, DeedHasStatus(st))| {
      StatusCounted(db.deeds, st);
    }
    s := StatsSummary(|db.deeds|, |db.cooperatives|, dist, AverageBorrowers(|db.borrowers|, |db.deeds|));
  }

  function DeedHasStatus(st: DeedStatus): Deed -> bool { (d: Deed) => d.status == st }

  /** The number of rows naming a status is the number of deeds in it. */
  lemma {:induction false} StatusCounted(deeds: seq<Deed>, st: DeedStatus)
    ensures multiset(Map(deeds, DeedStatusName))[StatusName(st)] == |Filter(deeds, DeedHasStatus(st))|
  {
    if deeds != [] {
      StatusCounted(deeds[1..], st);
      assert Map(deeds, DeedStatusName) == [StatusName(deeds[0].status)] + Map(deeds[1..], DeedStatusName);
      ParseStatusName(deeds[0].status);
      ParseStatusName(st);
    }
  }

  // ---------------------------------------------------------------- status durations

  /** A status-change audit row as the query selects it, in (deed, timestamp) order. */
  datatype StatusLog = StatusLog(deedId: Option<int>, actionType: string, timestamp: int)

  const StatusChangePrefix := "STATUS_CHANGE_TO_"

  /** `s.replace(pat, "")`: the occurrences of `pat` found scanning left to
      right, without overlap, are removed. */
  function RemoveAll(s: string, pat: string): (r: string)
    requires pat != []
    ensures |r| <= |s|
    decreases |s|
  {
    if |s| < |pat| then s
    else if StartsWith(s, pat) then RemoveAll(s[|pat|..], pat)
    else [s[0]] + RemoveAll(s[1..], pat)
  }

  /** `s` starts with `pat`, compared character by character. */
  predicate StartsWith(s: string, pat: string) {
    pat == [] || (s != [] && s[0] == pat[0] && StartsWith(s[1..], pat[1..]))
  }

  lemma {:induction false} StartsWithPrefix(s: string, pat: string)
    ensures StartsWith(s, pat) <==> |pat| <= |s| && s[..|pat|] == pat
  {
    if pat != [] && s != [] {
      StartsWithPrefix(s[1..], pat[1..]);
      assert pat == [pat[0]] + pat[1..];
      if |pat| <= |s| {
        assert s[..|pat|] == [s[0]] + s[1..][..|pat| - 1];
      }
    }
  }

  /** The status label of a status-change row. */
  function Label(actionType: string): string {
    RemoveAll(actionType, StatusChangePrefix)
  }

  /** `pat` occurs in `s` at position `i`. */
  predicate At(s: string, pat: string, i: int) {
    0 <= i && i + |pat| <= |s| && s[i..i + |pat|] == pat
  }

  ghost predicate Occurs(s: string, pat: string) {
    exists i :: At(s, pat, i)
  }

  /** A text without the pattern is left as it is. */
  lemma {:induction false} RemoveAllAbsent(s: string, pat: string)
    requires pat != [] && !Occurs(s, pat)
    ensures RemoveAll(s, pat) == s
  {
    if |s| >= |pat| {
      assert !At(s, pat, 0);
      assert s[0..|pat|] == s[..|pat|];
      StartsWithPrefix(s, pat);
      forall i ensures !At(s[1..], pat, i) {
        if 0 <= i && i + |pat| <= |s| - 1 {
          assert s[1..][i..i + |pat|] == s[i + 1..i + 1 + |pat|];
          assert !At(s, pat, i + 1);
        }
      }
      RemoveAllAbsent(s[1..], pat);
      assert s == [s[0]] + s[1..];
    }
  }

  /** The prefix of a "STATUS_CHANGE_TO_" action is stripped off. */
  lemma PrefixStripped(x: string)
    ensures Label(StatusChangePrefix + x) == Label(x)
  {
    var s := StatusChangePrefix + x;
    assert s[..|StatusChangePrefix|] == StatusChangePrefix;
    StartsWithPrefix(s, StatusChangePrefix);
    assert s[|StatusChangePrefix|..] == x;
  }

  /** The status-change rows the signing flow writes are "STATUS_CHANGED_TO_"
      actions, which do not contain the prefix: their label is the whole action. */
  lemma WrittenActionsKeepTheirName(st: DeedStatus)
    ensures Label(Signing.StatusChangeAction(st)) == Signing.StatusChangeAction(st)
  {
    var s := Signing.StatusChangeAction(st);
    assert !Occurs(s, StatusChangePrefix) by {
      forall i | At(s, StatusChangePrefix, i) ensures false {
        NoPrefixAt(st, i);
      }
    }
    RemoveAllAbsent(s, StatusChangePrefix);
  }

  /** An occurrence cannot cover a character the pattern lacks. */
  lemma Blocked(s: string, pat: string, i: int, j: int)
    requires i <= j < i + |pat| && 0 <= j < |s| && s[j] !in pat
    ensures !At(s, pat, i)
  {
  }

  lemma PrefixLacks()
    ensures 'D' !in StatusChangePrefix && 'I' !in StatusChangePrefix && 'P' !in StatusChangePrefix
  {
  }

  /** Each window of the prefix's length in a written action holds a
      character the prefix lacks: 'D', 'I' or 'P'. */
  lemma NoPrefixAt(st: DeedStatus, i: int)
    ensures !At(Signing.StatusChangeAction(st), StatusChangePrefix, i)
  {
    var s := Signing.StatusChangeAction(st);
    PrefixLacks();
    if 0 <= i && i + |StatusChangePrefix| <= |s| {
      if i <= 13 {
        assert s[13] == 'D';
        Blocked(s, StatusChangePrefix, i, 13);
      } else if st == PendingBorrowerSignature {
        NoPrefixInBorrowerAction(i);
      } else if st == PendingHousingCooperativeSignature {
        NoPrefixInCooperativeAction(i);
      }
    }
  }

  lemma NoPrefixInBorrowerAction(i: int)
    requires 13 < i
    ensures !At(Signing.StatusChangeAction(PendingBorrowerSignature), StatusChangePrefix, i)
  {
    var s := Signing.StatusChangeAction(PendingBorrowerSignature);
    PrefixLacks();
    if i + |StatusChangePrefix| <= |s| {
      if i <= 21 {
        assert s[21] == 'D';
        Blocked(s, StatusChangePrefix, i, 21);
      } else {
        assert s[36] == 'I';
        Blocked(s, StatusChangePrefix, i, 36);
      }
    }
  }

  lemma NoPrefixInCooperativeAction(i: int)
    requires 13 < i
    ensures !At(Signing.StatusChangeAction(PendingHousingCooperativeSignature), StatusChangePrefix, i)
  {
    var s := Signing.StatusChangeAction(PendingHousingCooperativeSignature);
    PrefixLacks();
    if i + |StatusChangePrefix| <= |s| {
      if i <= 22 {
        assert s[22] == 'I';
        Blocked(s, StatusChangePrefix, i, 22);
      } else if i <= 37 {
        assert s[37] == 'P';
        Blocked(s, StatusChangePrefix, i, 37);
      } else {
        assert s[47] == 'I';
        Blocked(s, StatusChangePrefix, i, 47);
      }
    }
  }

  /** One duration: the time between a row and the next row of the same
      deed, credited to the status the earlier row entered. */
  datatype Sample = Sample(status: string, duration: int)

  function SampleStatus(s: Sample): string { s.status }
  function SampleDuration(s: Sample): int { s.duration }
  function HasStatusLabel(status: string): Sample -> bool { (s: Sample) => s.status == status }

  /** The durations the rows yield, in row order: every row after the first
      whose predecessor belongs to the same deed and has a non-empty label
      contributes one. */
  function Samples(logs: seq<StatusLog>): seq<Sample>
    decreases |logs|
  {
    if |logs| < 2 then []
    else Samples(logs[..|logs| - 1]) + PairSample(logs[|logs| - 2], logs[|logs| - 1])
  }

  /** The duration a row closes given the row before it, if any. */
  function PairSample(prev: StatusLog, cur: StatusLog): seq<Sample> {
    if prev.deedId == cur.deedId && Label(prev.actionType) != ""
    then [Sample(Label(prev.actionType), cur.timestamp - prev.timestamp)] else []
  }

  /** The last two rows add the duration the last one closes, if any. */
  lemma SamplesSnoc(logs: seq<StatusLog>)
    requires |logs| >= 2
    ensures Samples(logs) == Samples(logs[..|logs| - 1]) + PairSample(logs[|logs| - 2], logs[|logs| - 1])
  {
  }

  /** A change of deed starts afresh: the rows of two runs for different
      deeds yield the durations of each run and nothing across them. */
  lemma {:induction false} SamplesSplit(a: seq<StatusLog>, b: seq<StatusLog>)
    requires a != [] && b != [] && a[|a| - 1].deedId != b[0].deedId
    ensures Samples(a + b) == Samples(a) + Samples(b)
    decreases |b|
  {
    var ab := a + b;
    SamplesSnoc(ab);
    if |b| == 1 {
      assert ab[..|ab| - 1] == a;
      assert ab[|ab| - 2] == a[|a| - 1] && ab[|ab| - 1] == b[0];
      assert Samples(a) + [] == Samples(a);
    } else {
      var init := b[..|b| - 1];
      assert ab[..|ab| - 1] == a + init;
      assert ab[|ab| - 2] == b[|b| - 2] && ab[|ab| - 1] == b[|b| - 1];
      SamplesSplit(a, init);
      SamplesSnoc(b);
      AppendAssoc(Samples(a), Samples(init), PairSample(b[|b| - 2], b[|b| - 1]));
    }
  }

  /** The durations of one status: `status_durations[status]`. */
  datatype StatusDurations = StatusDurations(status: string, durations: seq<int>)

  function GroupStatus(g: StatusDurations): string { g.status }

  /** `status_durations[label].append(duration)`, creating the list first. */
  function AddSample(groups: seq<StatusDurations>, s: Sample): seq<StatusDurations>
    requires DistinctKeys(groups, GroupStatus)
  {
    var current := if s.status in KeySet(groups, GroupStatus) then LastWith(groups, GroupStatus, s.status).durations else [];
    Put(groups, StatusDurations(s.status, current + [s.duration]), GroupStatus)
  }

  /** `status_durations` after the given durations were appended in order. */
  function Grouped(samples: seq<Sample>): (r: seq<StatusDurations>)
    ensures DistinctKeys(r, GroupStatus)
  {
    if samples == [] then []
    else AddSample(Grouped(samples[..|samples| - 1]), samples[|samples| - 1])
  }

  /** Grouping keeps one group per label that occurs. */
  lemma {:induction false} GroupedKeys(samples: seq<Sample>)
    ensures KeySet(Grouped(samples), GroupStatus) == KeySet(samples, SampleStatus)
  {
    if samples != [] {
      var init := samples[..|samples| - 1];
      var x := samples[|samples| - 1];
      assert samples == init + [x];
      GroupedKeys(init);
      KeySetSnoc(init, x, SampleStatus);
    }
  }

  /** Each group holds, in order, the durations of the samples with its label. */
  ghost predicate GroupsHold(groups: seq<StatusDurations>, samples: seq<Sample>) {
    forall g :: g in groups ==>
      g.durations == Map(Filter(samples, HasStatusLabel(g.status)), SampleDuration) && g.durations != []
  }

  /** The durations recorded so far for the label of the next sample. */
  lemma CurrentDurations(init: seq<Sample>, x: Sample)
    requires KeySet(Grouped(init), GroupStatus) == KeySet(init, SampleStatus)
    requires GroupsHold(Grouped(init), init)
    ensures (if x.status in KeySet(Grouped(init), GroupStatus)
             then LastWith(Grouped(init), GroupStatus, x.status).durations else [])
            == Map(Filter(init, HasStatusLabel(x.status)), SampleDuration)
  {
    if x.status !in KeySet(Grouped(init), GroupStatus) {
      forall y | y in init ensures !HasStatusLabel(x.status)(y) {
        var i :| 0 <= i < |init| && init[i] == y;
      }
      FilterNone(init, HasStatusLabel(x.status));
    }
  }

  /** Appending one more sample keeps every group right. */
  lemma GroupsHoldStep(init: seq<Sample>, x: Sample)
    requires KeySet(Grouped(init), GroupStatus) == KeySet(init, SampleStatus)
    requires GroupsHold(Grouped(init), init)
    ensures GroupsHold(Grouped(init + [x]), init + [x])
  {
    assert (init + [x])[..|init|] == init;
    assert Grouped(init + [x]) == AddSample(Grouped(init), x);
    forall g | g in AddSample(Grouped(init), x)
      ensures g.durations == Map(Filter(init + [x], HasStatusLabel(g.status)), SampleDuration) && g.durations != []
    {
      GroupHolds(init, x, g);
    }
  }

  lemma GroupHolds(init: seq<Sample>, x: Sample, g: StatusDurations)
    requires KeySet(Grouped(init), GroupStatus) == KeySet(init, SampleStatus)
    requires GroupsHold(Grouped(init), init)
    requires g in AddSample(Grouped(init), x)
    ensures g.durations == Map(Filter(init + [x], HasStatusLabel(g.status)), SampleDuration) && g.durations != []
  {
    var groups := Grouped(init);
    var before := Filter(init, HasStatusLabel(g.status));
    FilterAppend(init, [x], HasStatusLabel(g.status));
    if g.status == x.status {
      CurrentDurations(init, x);
      assert Filter([x], HasStatusLabel(g.status)) == [x];
      assert g.durations == Map(before, SampleDuration) + [x.duration];
      MapSnoc(before, x, SampleDuration);
    } else {
      assert Filter([x], HasStatusLabel(g.status)) == [];
      assert before + [] == before;
      assert g in groups;
    }
  }

  /** Grouping is by label: one group per label that occurs, holding that
      label's durations in order, so no group is empty. */
  lemma {:induction false} GroupedByLabel(samples: seq<Sample>)
    ensures KeySet(Grouped(samples), GroupStatus) == KeySet(samples, SampleStatus)
    ensures forall g :: g in Grouped(samples) ==>
              g.durations == Map(Filter(samples, HasStatusLabel(g.status)), SampleDuration) && g.durations != []
  {
    GroupedKeys(samples);
    if samples != [] {
      var init := samples[..|samples| - 1];
      var x := samples[|samples| - 1];
      assert samples == init + [x];
      GroupedByLabel(init);
      GroupedKeys(init);
      GroupsHoldStep(init, x);
    }
  }

  /** What the endpoint reports for one status: the mean, the shortest and
      the longest duration. */
  datatype DurationStats = DurationStats(status: string, average: real, minimum: int, maximum: int)

  function Sum(ds: seq<int>): int {
    if ds == [] then 0 else ds[0] + Sum(ds[1..])
  }

  function Min(ds: seq<int>): (m: int)
    requires ds != []
    ensures m in ds && forall d :: d in ds ==> m <= d
  {
    if |ds| == 1 then ds[0]
    else
      var rest := Min(ds[1..]);
      assert forall d :: d in ds ==> d == ds[0] || d in ds[1..];
      if ds[0] <= rest then ds[0] else rest
  }

  function Max(ds: seq<int>): (m: int)
    requires ds != []
    ensures m in ds && forall d :: d in ds ==> d <= m
  {
    if |ds| == 1 then ds[0]
    else
      var rest := Max(ds[1..]);
      assert forall d :: d in ds ==> d == ds[0] || d in ds[1..];
      if ds[0] >= rest then ds[0] else rest
  }

  /** The sum of the durations lies between their count times the shortest and times the longest. */
  lemma {:induction false} SumBounds(ds: seq<int>, lo: int, hi: int)
    requires forall d :: d in ds ==> lo <= d <= hi
    ensures |ds| * lo <= Sum(ds) <= |ds| * hi
  {
    if ds != [] {
      var tail := ds[1..];
      assert forall d :: d in tail ==> d in ds;
      SumBounds(tail, lo, hi);
      assert ds[0] in ds;
      MulSucc(|tail|, lo);
      MulSucc(|tail|, hi);
    }
  }

  lemma MulSucc(n: int, x: int)
    ensures (n + 1) * x == n * x + x
  {
  }

  /** The mean of the durations: the value whose multiple by their count is their sum. */
  function Mean(ds: seq<int>): (m: real)
    requires ds != []
    ensures m * |ds| as real == Sum(ds) as real
  {
    Sum(ds) as real / |ds| as real
  }

  /** A number whose multiple by n lies between n * lo and n * hi lies between lo and hi. */
  lemma Unscale(m: real, n: nat, total: int, lo: int, hi: int)
    requires n > 0 && m * n as real == total as real && n * lo <= total <= n * hi
    ensures lo as real <= m <= hi as real
  {
    assert (n * lo) as real == lo as real * n as real;
    assert (n * hi) as real == hi as real * n as real;
  }

  /** A mean of values between `lo` and `hi` lies between them too. */
  lemma MeanBetween(ds: seq<int>, lo: int, hi: int)
    requires ds != [] && forall d :: d in ds ==> lo <= d <= hi
    ensures lo as real <= Mean(ds) <= hi as real
  {
    SumBounds(ds, lo, hi);
    Unscale(Mean(ds), |ds|, Sum(ds), lo, hi);
  }

  /** The figures of one status; the mean lies between the extremes. */
  function StatsOf(g: StatusDurations): (r: DurationStats)
    requires g.durations != []
    ensures r.status == g.status
    ensures r.minimum in g.durations && r.maximum in g.durations
    ensures forall d :: d in g.durations ==> r.minimum <= d <= r.maximum
    ensures r.minimum as real <= r.average <= r.maximum as real
    ensures r.average * |g.durations| as real == Sum(g.durations) as real
  {
    MeanBetween(g.durations, Min(g.durations), Max(g.durations));
    DurationStats(g.status, Mean(g.durations), Min(g.durations), Max(g.durations))
  }

  /** Whether row `i` closes a duration: its predecessor belongs to the same
      deed and has a non-empty label. */
  predicate Closes(logs: seq<StatusLog>, i: int)
    requires 0 <= i < |logs|
  {
    i > 0 && logs[i - 1].deedId == logs[i].deedId && Label(logs[i - 1].actionType) != ""
  }

  function ClosedSample(logs: seq<StatusLog>, i: int): Sample
    requires 0 < i < |logs|
  {
    Sample(Label(logs[i - 1].actionType), logs[i].timestamp - logs[i - 1].timestamp)
  }

  /** The groups the loop has built after its first i rows. */
  function GroupedUpTo(logs: seq<StatusLog>, i: int): (r: seq<StatusDurations>)
    requires 0 <= i <= |logs|
    ensures DistinctKeys(r, GroupStatus)
  {
    if i == 0 then []
    else if Closes(logs, i - 1) then AddSample(GroupedUpTo(logs, i - 1), ClosedSample(logs, i - 1))
    else GroupedUpTo(logs, i - 1)
  }

  /** One more row yields the duration it closes, if any. */
  lemma SamplesStep(logs: seq<StatusLog>, i: int)
    requires 0 <= i < |logs|
    ensures Closes(logs, i) ==> Samples(logs[..i + 1]) == Samples(logs[..i]) + [ClosedSample(logs, i)]
    ensures !Closes(logs, i) ==> Samples(logs[..i + 1]) == Samples(logs[..i])
  {
    var pre := logs[..i + 1];
    assert pre[..|pre| - 1] == logs[..i];
    if i > 0 {
      assert pre[|pre| - 2] == logs[i - 1] && pre[|pre| - 1] == logs[i];
      assert Samples(logs[..i]) + [] == Samples(logs[..i]);
    }
  }

  /** Grouping one more sample adds it to the groups. */
  lemma GroupedSnoc(seen: seq<Sample>, x: Sample)
    ensures Grouped(seen + [x]) == AddSample(Grouped(seen), x)
  {
    assert (seen + [x])[..|seen|] == seen;
  }

  /** The groups the loop builds are the durations of the rows it has seen, grouped. */
  lemma {:induction false} GroupedUpToMatches(logs: seq<StatusLog>, i: int)
    requires 0 <= i <= |logs|
    ensures GroupedUpTo(logs, i) == Grouped(Samples(logs[..i]))
  {
    if i > 0 {
      GroupedUpToMatches(logs, i - 1);
      SamplesStep(logs, i - 1);
      if Closes(logs, i - 1) {
        GroupedSnoc(Samples(logs[..i - 1]), ClosedSample(logs, i - 1));
      }
    }
  }

  /** get_status_duration_stats: walks the rows keeping the current deed,
      the previous timestamp and the previous label, collects the durations
      per label and reports each label's figures. */
  method GetStatusDurationStats(logs: seq<StatusLog>) returns (stats: seq<DurationStats>)
    ensures logs == [] ==> stats == []
    ensures |stats| == |Grouped(Samples(logs))|
    ensures forall i :: 0 <= i < |stats| ==>
              Grouped(Samples(logs))[i].durations != [] && stats[i] == StatsOf(Grouped(Samples(logs))[i])
  {
    if logs == [] {
      return [];
    }
    var groups := CollectDurations(logs);
    GroupedByLabel(Samples(logs));
    assert forall j :: 0 <= j < |groups| ==> groups[j] in groups;
    stats := seq(|groups|, j requires 0 <= j < |groups| => StatsOf(groups[j]));
  }

  /** The variables the loop of get_status_duration_stats carries after its
      first i rows: the deed of the previous row, its timestamp and its label. */
  predicate Tracks(logs: seq<StatusLog>, i: int, currentDeed: Option<int>,
                   lastTimestamp: Option<int>, lastStatus: Option<string>)
    requires 0 <= i <= |logs|
  {
    if i == 0 then currentDeed == None && lastTimestamp == None && lastStatus == None
    else currentDeed == logs[i - 1].deedId && lastTimestamp == Some(logs[i - 1].timestamp)
         && lastStatus == Some(Label(logs[i - 1].actionType))
  }

  /** The loop of get_status_duration_stats: the current deed, the previous
      timestamp and the previous label are reset on a change of deed, and a
      row whose predecessor set both appends a duration. */
  method CollectDurations(logs: seq<StatusLog>) returns (groups: seq<StatusDurations>)
    ensures groups == Grouped(Samples(logs))
  {
    groups := [];
    var currentDeed: Option<int> := None;
    var lastTimestamp: Option<int> := None;
    var lastStatus: Option<string> := None;
    var i := 0;
    while i < |logs|
      invariant 0 <= i <= |logs|
      invariant groups == GroupedUpTo(logs, i)
      invariant Tracks(logs, i, currentDeed, lastTimestamp, lastStatus)
    {
      groups, currentDeed, lastTimestamp, lastStatus :=
        CollectRow(logs, i, groups, currentDeed, lastTimestamp, lastStatus);
      i := i + 1;
    }
    GroupedAll(logs);
  }

  /** After the last row the loop holds the grouped durations of all rows. */
  lemma GroupedAll(logs: seq<StatusLog>)
    ensures GroupedUpTo(logs, |logs|) == Grouped(Samples(logs))
  {
    GroupedUpToMatches(logs, |logs|);
    assert logs[..|logs|] == logs;
  }

  /** One iteration of the loop of get_status_duration_stats, on row i. */
  method CollectRow(logs: seq<StatusLog>, i: int, groups: seq<StatusDurations>, currentDeed: Option<int>,
                    lastTimestamp: Option<int>, lastStatus: Option<string>)
    returns (groups': seq<StatusDurations>, currentDeed': Option<int>,
             lastTimestamp': Option<int>, lastStatus': Option<string>)
    requires 0 <= i < |logs|
    requires groups == GroupedUpTo(logs, i)
    requires Tracks(logs, i, currentDeed, lastTimestamp, lastStatus)
    ensures groups' == GroupedUpTo(logs, i + 1)
    ensures Tracks(logs, i + 1, currentDeed', lastTimestamp', lastStatus')
  {
    var log := logs[i];
    var timestamp, status := lastTimestamp, lastStatus;
    currentDeed' := currentDeed;
    if currentDeed != log.deedId {
      currentDeed' := log.deedId;
      timestamp := None;
      status := None;
    }
    groups' := groups;
    if timestamp.Some? && status.Some? && status.value != "" {
      assert ClosedSample(logs, i) == Sample(status.value, log.timestamp - timestamp.value);
      groups' := AddSample(groups, Sample(status.value, log.timestamp - timestamp.value));
    } else {
      assert !Closes(logs, i);
    }
    lastTimestamp' := Some(log.timestamp);
    lastStatus' := Some(Label(log.actionType));
  }

  // ---------------------------------------------------------------- timeline

  /** One row of a per-day series returned by the database functions. */
  datatype DailyCount = DailyCount(date: string, count: int)

  function CountDate(c: DailyCount): string { c.date }

  datatype TimelineStats = TimelineStats(date: string, newDeeds: int, completedDeeds: int)

  function StatsDate(t: TimelineStats): string { t.date }

  /** What a series reports for a date: its last row for that date, or 0 when it has none. */
  function CountFor(series: seq<DailyCount>, date: string): int {
    if date in KeySet(series, CountDate) then LastWith(series, CountDate, date).count else 0
  }

  /** `timeline_map[date]` after the zero entry is put in for a new date. */
  function EntryFor(timeline: seq<TimelineStats>, date: string): (t: TimelineStats)
    requires DistinctKeys(timeline, StatsDate)
    ensures t.date == date
    ensures date in KeySet(timeline, StatsDate) ==> t in timeline
    ensures date !in KeySet(timeline, StatsDate) ==> t == TimelineStats(date, 0, 0)
  {
    if date in KeySet(timeline, StatsDate) then LastWith(timeline, StatsDate, date) else TimelineStats(date, 0, 0)
  }

  /** Strict lexicographic order of text; on ISO dates it is calendar order. */
  predicate Before(a: string, b: string) {
    if a == [] then b != []
    else b != [] && (a[0] < b[0] || (a[0] == b[0] && Before(a[1..], b[1..])))
  }

  lemma {:induction false} BeforeIrreflexive(a: string)
    ensures !Before(a, a)
  {
    if a != [] {
      BeforeIrreflexive(a[1..]);
    }
  }

  lemma {:induction false} BeforeTransitive(a: string, b: string, c: string)
    requires Before(a, b) && Before(b, c)
    ensures Before(a, c)
  {
    if a != [] && a[0] == b[0] && b[0] == c[0] {
      BeforeTransitive(a[1..], b[1..], c[1..]);
    }
  }

  lemma {:induction false} BeforeTotal(a: string, b: string)
    requires a != b
    ensures Before(a, b) || Before(b, a)
  {
    if a != [] && b != [] && a[0] == b[0] {
      assert a == [a[0]] + a[1..] && b == [b[0]] + b[1..];
      BeforeTotal(a[1..], b[1..]);
    }
  }

  /** Dates strictly increase along the timeline, so each appears once. */
  predicate DatesAscending(t: seq<TimelineStats>) {
    forall i, j :: 0 <= i < j < |t| ==> Before(t[i].date, t[j].date)
  }

  /** Puts `x` before the first entry of `t` with a later date. */
  function InsertByDate(x: TimelineStats, t: seq<TimelineStats>): seq<TimelineStats> {
    if t == [] then [x]
    else if Before(x.date, t[0].date) then [x] + t
    else [t[0]] + InsertByDate(x, t[1..])
  }

  /** `sorted(timeline, key=lambda x: x.date)`, as an insertion sort. */
  function SortByDate(t: seq<TimelineStats>): seq<TimelineStats> {
    if t == [] then [] else InsertByDate(t[0], SortByDate(t[1..]))
  }

  lemma {:induction false} InsertPermutes(x: TimelineStats, t: seq<TimelineStats>)
    ensures multiset(InsertByDate(x, t)) == multiset(t) + multiset{x}
  {
    if t != [] {
      assert t == [t[0]] + t[1..];
      if !Before(x.date, t[0].date) {
        InsertPermutes(x, t[1..]);
      }
    }
  }

  lemma {:induction false} SortPermutes(t: seq<TimelineStats>)
    ensures multiset(SortByDate(t)) == multiset(t)
  {
    if t != [] {
      SortPermutes(t[1..]);
      InsertPermutes(t[0], SortByDate(t[1..]));
      assert t == [t[0]] + t[1..];
    }
  }

  /** An entry dated before every entry of an ascending timeline can go first. */
  lemma ConsAscending(a: TimelineStats, r: seq<TimelineStats>)
    requires DatesAscending(r) && forall y :: y in r ==> Before(a.date, y.date)
    ensures DatesAscending([a] + r)
  {
    forall i, j | 0 <= i < j < |[a] + r| ensures Before(([a] + r)[i].date, ([a] + r)[j].date) {
      assert ([a] + r)[j] == r[j - 1];
      if i == 0 {
        assert r[j - 1] in r;
      } else {
        assert ([a] + r)[i] == r[i - 1];
      }
    }
  }

  /** Inserting an entry with a new date into an ascending timeline keeps it ascending. */
  lemma {:induction false} InsertAscending(x: TimelineStats, t: seq<TimelineStats>)
    requires DatesAscending(t) && forall y :: y in t ==> y.date != x.date
    ensures DatesAscending(InsertByDate(x, t))
  {
    if t == [] {
    } else if Before(x.date, t[0].date) {
      forall y | y in t ensures Before(x.date, y.date) {
        var j :| 0 <= j < |t| && t[j] == y;
        if j > 0 {
          BeforeTransitive(x.date, t[0].date, t[j].date);
        }
      }
      ConsAscending(x, t);
    } else {
      BeforeTotal(x.date, t[0].date);
      var tail := t[1..];
      assert DatesAscending(tail) by {
        forall i, j | 0 <= i < j < |tail| ensures Before(tail[i].date, tail[j].date) {
          assert tail[i] == t[i + 1] && tail[j] == t[j + 1];
        }
      }
      InsertAscending(x, tail);
      InsertPermutes(x, tail);
      var rest := InsertByDate(x, tail);
      forall y | y in rest ensures Before(t[0].date, y.date) {
        assert y in multiset(rest);
        if y != x {
          var j :| 0 <= j < |tail| && tail[j] == y;
          assert t[j + 1] == y;
        }
      }
      ConsAscending(t[0], rest);
    }
  }

  /** Sorting a timeline with one entry per date orders it by date. */
  lemma {:induction false} SortAscending(t: seq<TimelineStats>)
    requires DistinctKeys(t, StatsDate)
    ensures DatesAscending(SortByDate(t))
  {
    if t != [] {
      DistinctKeysTail(t, StatsDate);
      SortAscending(t[1..]);
      SortPermutes(t[1..]);
      var rest := SortByDate(t[1..]);
      forall y | y in rest ensures y.date != t[0].date {
        assert y in multiset(rest);
        var j :| 0 <= j < |t[1..]| && t[1..][j] == y;
        assert t[j + 1] == y;
      }
      InsertAscending(t[0], rest);
    }
  }

  /** The dates of two timelines holding the same entries are the same. */
  lemma SameDates(a: seq<TimelineStats>, b: seq<TimelineStats>)
    requires multiset(a) == multiset(b)
    ensures KeySet(a, StatsDate) == KeySet(b, StatsDate)
  {
    forall k | k in KeySet(a, StatsDate) ensures k in KeySet(b, StatsDate) {
      var i :| 0 <= i < |a| && a[i].date == k;
      assert a[i] in multiset(b);
      var j :| 0 <= j < |b| && b[j] == a[i];
    }
    forall k | k in KeySet(b, StatsDate) ensures k in KeySet(a, StatsDate) {
      var i :| 0 <= i < |b| && b[i].date == k;
      assert b[i] in multiset(a);
      var j :| 0 <= j < |a| && a[j] == b[i];
    }
  }

  /** get_timeline_stats: merges the daily new-deed and completed-deed series
      of the two database functions into one entry per date, a date missing
      from a series counting 0 there, and sorts the entries by date. */
  method GetTimelineStats(newDeeds: seq<DailyCount>, completedDeeds: seq<DailyCount>) returns (timeline: seq<TimelineStats>)
    ensures DatesAscending(timeline)
    ensures DistinctKeys(timeline, StatsDate)
    ensures KeySet(timeline, StatsDate) == KeySet(newDeeds, CountDate) + KeySet(completedDeeds, CountDate)
    ensures forall t :: t in timeline ==>
              t.newDeeds == CountFor(newDeeds, t.date) && t.completedDeeds == CountFor(completedDeeds, t.date)
  {
    var merged := MergeNew(newDeeds);
    merged := MergeCompleted(merged, newDeeds, completedDeeds);
    timeline := SortByDate(merged);
    SortAscending(merged);
    SortPermutes(merged);
    SameDates(timeline, merged);
    forall t | t in timeline ensures t in merged {
      assert t in multiset(timeline);
    }
    forall i, j | 0 <= i < j < |timeline| ensures timeline[i].date != timeline[j].date {
      BeforeIrreflexive(timeline[i].date);
    }
  }

  /** A series with one more row reports that row's count for its date. */
  lemma CountForSnoc(seen: seq<DailyCount>, item: DailyCount, k: string)
    ensures CountFor(seen + [item], k) == if item.date == k then item.count else CountFor(seen, k)
  {
    KeySetSnoc(seen, item, CountDate);
    if k in KeySet(seen + [item], CountDate) {
      LastWithSnoc(seen, item, CountDate, k);
    }
  }

  /** Putting the row of a new-deed series into the timeline. */
  lemma NewStep(merged: seq<TimelineStats>, seen: seq<DailyCount>, item: DailyCount)
    requires DistinctKeys(merged, StatsDate)
    requires KeySet(merged, StatsDate) == KeySet(seen, CountDate)
    requires forall t :: t in merged ==> t.newDeeds == CountFor(seen, t.date) && t.completedDeeds == 0
    ensures KeySet(Put(merged, EntryFor(merged, item.date).(newDeeds := item.count), StatsDate), StatsDate)
            == KeySet(seen + [item], CountDate)
    ensures forall t :: t in Put(merged, EntryFor(merged, item.date).(newDeeds := item.count), StatsDate) ==>
              t.newDeeds == CountFor(seen + [item], t.date) && t.completedDeeds == 0
  {
    KeySetSnoc(seen, item, CountDate);
    forall t | t in Put(merged, EntryFor(merged, item.date).(newDeeds := item.count), StatsDate)
      ensures t.newDeeds == CountFor(seen + [item], t.date) && t.completedDeeds == 0
    {
      CountForSnoc(seen, item, t.date);
    }
  }

  /** The loop over the new-deed series. */
  method MergeNew(newDeeds: seq<DailyCount>) returns (merged: seq<TimelineStats>)
    ensures DistinctKeys(merged, StatsDate)
    ensures KeySet(merged, StatsDate) == KeySet(newDeeds, CountDate)
    ensures forall t :: t in merged ==> t.newDeeds == CountFor(newDeeds, t.date) && t.completedDeeds == 0
  {
    merged := [];
    var i := 0;
    while i < |newDeeds|
      invariant 0 <= i <= |newDeeds|
      invariant DistinctKeys(merged, StatsDate)
      invariant KeySet(merged, StatsDate) == KeySet(newDeeds[..i], CountDate)
      invariant forall t :: t in merged ==> t.newDeeds == CountFor(newDeeds[..i], t.date) && t.completedDeeds == 0
    {
      var item := newDeeds[i];
      var entry := EntryFor(merged, item.date);
      NewStep(merged, newDeeds[..i], item);
      PrefixSnoc(newDeeds, i);
      merged := Put(merged, entry.(newDeeds := item.count), StatsDate);
      i := i + 1;
    }
    assert newDeeds[..i] == newDeeds;
  }

  /** Putting the row of a completed-deed series into the timeline. */
  lemma CompletedStep(merged: seq<TimelineStats>, newDeeds: seq<DailyCount>, seen: seq<DailyCount>, item: DailyCount)
    requires DistinctKeys(merged, StatsDate)
    requires KeySet(merged, StatsDate) == KeySet(newDeeds, CountDate) + KeySet(seen, CountDate)
    requires forall t :: t in merged ==>
               t.newDeeds == CountFor(newDeeds, t.date) && t.completedDeeds == CountFor(seen, t.date)
    ensures KeySet(Put(merged, EntryFor(merged, item.date).(completedDeeds := item.count), StatsDate), StatsDate)
            == KeySet(newDeeds, CountDate) + KeySet(seen + [item], CountDate)
    ensures forall t :: t in Put(merged, EntryFor(merged, item.date).(completedDeeds := item.count), StatsDate) ==>
              t.newDeeds == CountFor(newDeeds, t.date) && t.completedDeeds == CountFor(seen + [item], t.date)
  {
    KeySetSnoc(seen, item, CountDate);
    forall t | t in Put(merged, EntryFor(merged, item.date).(completedDeeds := item.count), StatsDate)
      ensures t.newDeeds == CountFor(newDeeds, t.date) && t.completedDeeds == CountFor(seen + [item], t.date)
    {
      CountForSnoc(seen, item, t.date);
    }
  }

  /** The loop over the completed-deed series. */
  method MergeCompleted(merged0: seq<TimelineStats>, newDeeds: seq<DailyCount>, completedDeeds: seq<DailyCount>)
    returns (merged: seq<TimelineStats>)
    requires DistinctKeys(merged0, StatsDate)
    requires KeySet(merged0, StatsDate) == KeySet(newDeeds, CountDate)
    requires forall t :: t in merged0 ==> t.newDeeds == CountFor(newDeeds, t.date) && t.completedDeeds == 0
    ensures DistinctKeys(merged, StatsDate)
    ensures KeySet(merged, StatsDate) == KeySet(newDeeds, CountDate) + KeySet(completedDeeds, CountDate)
    ensures forall t :: t in merged ==>
              t.newDeeds == CountFor(newDeeds, t.date) && t.completedDeeds == CountFor(completedDeeds, t.date)
  {
    merged := merged0;
    var j := 0;
    while j < |completedDeeds|
      invariant 0 <= j <= |completedDeeds|
      invariant DistinctKeys(merged, StatsDate)
      invariant KeySet(merged, StatsDate) == KeySet(newDeeds, CountDate) + KeySet(completedDeeds[..j], CountDate)
      invariant forall t :: t in merged ==>
                  t.newDeeds == CountFor(newDeeds, t.date) && t.completedDeeds == CountFor(completedDeeds[..j], t.date)
    {
      var item := completedDeeds[j];
      var entry := EntryFor(merged, item.date);
      CompletedStep(merged, newDeeds, completedDeeds[..j], item);
      PrefixSnoc(completedDeeds, j);
      merged := Put(merged, entry.(completedDeeds := item.count), StatsDate);
      j := j + 1;
    }
    assert completedDeeds[..j] == completedDeeds;
  }
}
