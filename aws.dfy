/** The AWS path (aws.go): the checks `PullData` makes on the two Cost
    Explorer reports before it hands back the per-service costs, the
    consistency check of those costs against an account's standard value,
    and their normalisation into the 13-cell report row. */
module Aws {
  import opened Wrappers
  import opened Text
  import opened Sums
  import opened Cells
  import opened Directory

  // ------------------------------------------------- NormalizeResponse

  const DataTransfer := "AWS Data Transfer"
  const Ec2Compute := "Amazon Elastic Compute Cloud - Compute"
  const Ec2Other := "EC2 - Other"
  const SimpleStorage := "Amazon Simple Storage Service"
  const KeyManagement := "AWS Key Management Service"
  const SecretsManager := "AWS Secrets Manager"
  const Route53 := "Amazon Route 53"
  const Tax := "Tax"

  /** The services that have a cell, or share one, of their own. */
  const Named: set<string> := {DataTransfer, Ec2Compute, Ec2Other, SimpleStorage, KeyManagement, SecretsManager, Route53, Tax}

  /** The sum of the costs of every service without a cell of its own. */
  ghost function OtherSum(m: map<string, real>): real {
    SumKeys(m, m.Keys - Named)
  }

  /** The amounts that end up in the nine numeric cells, apart from the two
      that are always 0. */
  datatype Buckets = Buckets(dataTransfer: real, machines: real, storage: real, keyManagement: real,
                             dns: real, other: real, tax: real)

  /** The buckets of a set of service costs: the services with a cell of
      their own, both EC2 services, KMS and Secrets Manager together, and
      every other service. A service that is absent counts as 0. */
  ghost function BucketsOf(m: map<string, real>): Buckets {
    Buckets(Get0(m, DataTransfer), Get0(m, Ec2Compute) + Get0(m, Ec2Other), Get0(m, SimpleStorage),
            Get0(m, KeyManagement) + Get0(m, SecretsManager), Get0(m, Route53), OtherSum(m), Get0(m, Tax))
  }

  /** One iteration of the `switch` of `NormalizeResponse`. */
  function Bump(b: Buckets, key: string, value: real): Buckets {
    if key == DataTransfer then b.(dataTransfer := value)
    else if key == Ec2Compute || key == Ec2Other then b.(machines := b.machines + value)
    else if key == SimpleStorage then b.(storage := value)
    else if key == KeyManagement || key == SecretsManager then b.(keyManagement := b.keyManagement + value)
    else if key == Route53 then b.(dns := value)
    else if key == Tax then b.(tax := value)
    else b.(other := b.other + value)
  }

  /** The report row: group, date range, account ID and "AWS", then data
      transfer, machines, storage, key management, registrar (always 0),
      DNS, other, tax and rebate (always 0). */
  ghost function NormalizedRow(group: string, dateRange: string, accountId: string, m: map<string, real>): Row {
    ReportRow(group, dateRange, accountId, BucketsOf(m))
  }

  function ReportRow(group: string, dateRange: string, accountId: string, b: Buckets): Row {
    [StringCell(group), StringCell(dateRange), StringCell(accountId), StringCell("AWS"),
     NumberCell(b.dataTransfer), NumberCell(b.machines), NumberCell(b.storage), NumberCell(b.keyManagement),
     NumberCell(0.0), NumberCell(b.dns), NumberCell(b.other), NumberCell(b.tax), NumberCell(0.0)]
  }

  lemma OtherSumAdd(m: map<string, real>, k: string, v: real)
    requires k !in m
    ensures OtherSum(m[k := v]) == OtherSum(m) + if k in Named then 0.0 else v
  {
    var n := m[k := v];
    var rest := m.Keys - Named;
    SumKeysAgree(m, n, rest);
    if k in Named {
      assert n.Keys - Named == rest;
    } else {
      SumKeysAdd(n, rest, k);
      assert n.Keys - Named == rest + {k};
    }
  }

  /** Visiting one more service moves the buckets by one `switch` step, in
      whatever order the services are visited. */
  lemma BucketsOfAdd(m: map<string, real>, k: string, v: real)
    requires k !in m
    ensures BucketsOf(m[k := v]) == Bump(BucketsOf(m), k, v)
  {
    OtherSumAdd(m, k, v);
    var n := m[k := v];
    forall x | x in Named ensures Get0(n, x) == if x == k then v else Get0(m, x) {
    }
  }

  /** The `for key, value := range serviceResults` loop of
      `NormalizeResponse`: the cells of data transfer, storage, DNS and tax
      are overwritten, the other amounts gathered in the accumulators. */
  method SwitchServices(output: array<Cell>, serviceResults: map<string, real>) returns (ec2Val: real, kmVal: real, otherVal: real)
    requires output.Length == 13
    requires output[4] == NumberCell(0.0) && output[6] == NumberCell(0.0)
    requires output[9] == NumberCell(0.0) && output[11] == NumberCell(0.0)
    modifies output
    ensures forall i :: 0 <= i < 4 ==> output[i] == old(output[i])
    ensures var b := BucketsOf(serviceResults);
      && output[4] == NumberCell(b.dataTransfer) && output[6] == NumberCell(b.storage)
      && output[9] == NumberCell(b.dns) && output[11] == NumberCell(b.tax)
      && ec2Val == b.machines && kmVal == b.keyManagement && otherVal == b.other
  {
    ec2Val, kmVal, otherVal := 0.0, 0.0, 0.0;
    var pending := serviceResults.Keys;
    ghost var seen: map<string, real> := map[];
    ghost var b := BucketsOf(seen);
    while pending != {}
      invariant pending <= serviceResults.Keys && seen.Keys == serviceResults.Keys - pending
      invariant forall k :: k in seen ==> seen[k] == serviceResults[k]
      invariant b == BucketsOf(seen)
      invariant forall i :: 0 <= i < 4 ==> output[i] == old(output[i])
      invariant output[4] == NumberCell(b.dataTransfer) && output[6] == NumberCell(b.storage)
      invariant output[9] == NumberCell(b.dns) && output[11] == NumberCell(b.tax)
      invariant ec2Val == b.machines && kmVal == b.keyManagement && otherVal == b.other
      decreases pending
    {
      var key :| key in pending;
      var value := serviceResults[key];
      BucketsOfAdd(seen, key, value);
      if key == DataTransfer {
        output[4] := NumberCell(value);
      } else if key == Ec2Compute || key == Ec2Other {
        ec2Val := ec2Val + value;
      } else if key == SimpleStorage {
        output[6] := NumberCell(value);
      } else if key == KeyManagement || key == SecretsManager {
        kmVal := kmVal + value;
      } else if key == Route53 {
        output[9] := NumberCell(value);
      } else if key == Tax {
        output[11] := NumberCell(value);
      } else {
        otherVal := otherVal + value;
      }
      b := Bump(b, key, value);
      seen := seen[key := value];
      pending := pending - {key};
    }
    assert seen == serviceResults;
  }

  /** `NormalizeResponse`: the 13-cell report row of an account's service
      costs. It never fails. */
  method NormalizeResponse(group: string, dateRange: string, accountId: string, serviceResults: map<string, real>)
    returns (row: Row)
    ensures row == NormalizedRow(group, dateRange, accountId, serviceResults)
  {
    var output := new Cell[13](_ => Blank);
    output[0] := StringCell(group);
    output[1] := StringCell(dateRange);
    output[2] := StringCell(accountId);
    output[3] := StringCell("AWS");
    output[4] := NumberCell(0.0);
    output[6] := NumberCell(0.0);
    output[9] := NumberCell(0.0);
    output[11] := NumberCell(0.0);
    var ec2Val, kmVal, otherVal := SwitchServices(output, serviceResults);
    output[5] := NumberCell(ec2Val);
    output[7] := NumberCell(kmVal);
    output[8] := NumberCell(0.0);
    output[10] := NumberCell(otherVal);
    output[12] := NumberCell(0.0);
    row := [output[0], output[1], output[2], output[3], output[4], output[5], output[6],
            output[7], output[8], output[9], output[10], output[11], output[12]];
  }

  /** Adding a name to a set of names adds the cost of that service, 0 when absent. */
  lemma SumKeysNamedAdd(m: map<string, real>, names: set<string>, k: string)
    requires k !in names
    ensures SumKeys(m, (names + {k}) * m.Keys) == SumKeys(m, names * m.Keys) + Get0(m, k)
  {
    if k in m {
      SumKeysAdd(m, names * m.Keys, k);
      assert (names + {k}) * m.Keys == names * m.Keys + {k};
    } else {
      assert (names + {k}) * m.Keys == names * m.Keys;
    }
  }

  /** The named services present in the map add up to the named services read with a 0 default. */
  lemma SumKeysNamed(m: map<string, real>)
    ensures SumKeys(m, Named * m.Keys) == Get0(m, DataTransfer) + Get0(m, Ec2Compute) + Get0(m, Ec2Other)
      + Get0(m, SimpleStorage) + Get0(m, KeyManagement) + Get0(m, SecretsManager) + Get0(m, Route53) + Get0(m, Tax)
  {
    var s0: set<string> := {};
    assert s0 * m.Keys == {};
    SumKeysNamedAdd(m, s0, DataTransfer);
    var s1 := s0 + {DataTransfer};
    SumKeysNamedAdd(m, s1, Ec2Compute);
    var s2 := s1 + {Ec2Compute};
    SumKeysNamedAdd(m, s2, Ec2Other);
    var s3 := s2 + {Ec2Other};
    SumKeysNamedAdd(m, s3, SimpleStorage);
    var s4 := s3 + {SimpleStorage};
    SumKeysNamedAdd(m, s4, KeyManagement);
    var s5 := s4 + {KeyManagement};
    SumKeysNamedAdd(m, s5, SecretsManager);
    var s6 := s5 + {SecretsManager};
    SumKeysNamedAdd(m, s6, Route53);
    var s7 := s6 + {Route53};
    SumKeysNamedAdd(m, s7, Tax);
    assert s7 + {Tax} == Named;
  }

  /** Every report cell from 4 on holds a number, and those numbers add up to
      the sum of all the service costs: normalising loses and invents nothing. */
  lemma NormalizeConserves(group: string, dateRange: string, accountId: string, m: map<string, real>)
    ensures var row := NormalizedRow(group, dateRange, accountId, m);
      && |row| == 13
      && (forall i :: 4 <= i < 13 ==> row[i].number.Some?)
      && row[4].number.value + row[5].number.value + row[6].number.value + row[7].number.value
         + row[8].number.value + row[9].number.value + row[10].number.value + row[11].number.value
         + row[12].number.value == MapSum(m)
  {
    var named := Named * m.Keys;
    var rest := m.Keys - Named;
    SumKeysNamed(m);
    SumKeysUnion(m, named, rest);
    assert named + rest == m.Keys;
  }

  // ----------------------------------------- CheckResponseConsistency

  /** The sum of every value of the map, the loop of `CheckResponseConsistency`. */
  method MapTotal(results: map<string, real>) returns (total: real)
    ensures total == MapSum(results)
  {
    total := 0.0;
    var pending := results.Keys;
    while pending != {}
      invariant pending <= results.Keys
      invariant total == SumKeys(results, results.Keys - pending)
      decreases pending
    {
      var key :| key in pending;
      SumKeysAdd(results, results.Keys - pending, key);
      assert results.Keys - (pending - {key}) == results.Keys - pending + {key};
      total := total + results[key];
      pending := pending - {key};
    }
    assert results.Keys - pending == results.Keys;
  }

  function Abs(x: real): real {
    if x < 0.0 then -x else x
  }

  /** The deviation check: with a positive standard value, the relative
      distance from it, in percent, exceeds the allowed deviation. */
  predicate Deviates(standardValue: real, deviationPercent: int, total: real) {
    standardValue > 0.0 && (Abs(standardValue - total) / standardValue) * 100.0 > deviationPercent as real
  }

  datatype DeviationError = DeviationError(diffAbs: real, diffPercent: real, deviationPercent: int, total: real, standardValue: real)

  /** `CheckResponseConsistency`: the total of all service costs, returned
      whether or not the account's standard value is given and whether or
      not the total deviates from it by more than the allowed percentage. */
  method CheckResponseConsistency(account: AccountEntry, results: map<string, real>)
    returns (total: real, r: Outcome<DeviationError>)
    ensures total == MapSum(results)
    ensures r.Fail? <==> Deviates(account.standardValue, account.deviationPercent, total)
    ensures r.Fail? ==> r.error.total == total && r.error.diffAbs == Abs(account.standardValue - total)
  {
    total := MapTotal(results);
    if account.standardValue > 0.0 {
      var diff := account.standardValue - total;
      var diffAbs := Abs(diff);
      var diffPercent := (diffAbs / account.standardValue) * 100.0;
      if diffPercent > account.deviationPercent as real {
        return total, Fail(DeviationError(diffAbs, diffPercent, account.deviationPercent, total, account.standardValue));
      }
    }
    r := Pass;
  }

  /** A total passes the check exactly when it lies within the allowed
      percentage of the standard value, both ends included; with no
      standard value every total passes. */
  lemma DeviatesBand(standardValue: real, deviationPercent: int, total: real)
    ensures standardValue <= 0.0 ==> !Deviates(standardValue, deviationPercent, total)
    ensures standardValue > 0.0 ==>
      (!Deviates(standardValue, deviationPercent, total) <==>
        var band := standardValue * deviationPercent as real / 100.0;
        standardValue - band <= total <= standardValue + band)
  {
    if standardValue > 0.0 {
      var d := Abs(standardValue - total);
      var p := deviationPercent as real;
      assert (d / standardValue) * 100.0 > p <==> d * 100.0 > p * standardValue;
    }
  }

  // ------------------------------------------------- PullData checks

  /** An amount as Cost Explorer reports it: a decimal string and a unit. */
  datatype Amount = Amount(amount: string, unit: string)

  /** One service group of the breakdown report: its keys and the amount of
      the requested cost type. */
  datatype Group = Group(keys: seq<string>, metric: Amount)

  datatype PullError =
    | TotalUnparsable(amount: string)
    | NotUsd(unit: string)
    | KeyCount(accountId: string, partial: map<string, real>)
    | UnitMismatch(accountId: string, expected: string, got: string)
    | ServiceUnparsable(amount: string)
    | TotalMismatch(accountId: string, serviceTotal: real, total: real)

  /** `math.Round(x*100)`: the nearest whole number of cents, halves rounded
      away from zero. */
  function RoundCents(x: real): int {
    if x >= 0.0 then (x * 100.0 + 0.5).Floor else -((-x) * 100.0 + 0.5).Floor
  }

  /** What the group loop has built so far: the per-service costs and their running total. */
  datatype Tally = Tally(results: map<string, real>, sum: real)

  /** The group loop over the first groups, in report order: each group must
      have exactly one key, be in the total's unit and parse; its cost is
      stored under its key (a repeated key keeps the last cost) and added to
      the running total. */
  function GroupFold(accountId: string, unit: string, parse: string -> Option<real>, groups: seq<Group>): Result<Tally, PullError>
    decreases |groups|
  {
    if |groups| == 0 then Success(Tally(map[], 0.0))
    else
      var t :- GroupFold(accountId, unit, parse, groups[..|groups| - 1]);
      var g := groups[|groups| - 1];
      if |g.keys| != 1 then Failure(KeyCount(accountId, t.results))
      else if g.metric.unit != unit then Failure(UnitMismatch(accountId, unit, g.metric.unit))
      else
        var value := parse(g.metric.amount);
        if value.None? then Failure(ServiceUnparsable(g.metric.amount))
        else Success(Tally(t.results[g.keys[0] := value.value], t.sum + value.value))
  }

  /** The validation half of `PullData`, given the total report's amount and
      the breakdown report's groups per time period: the service costs, the
      empty map when there is not exactly one period, or the error. */
  function CheckReports(accountId: string, total: Amount, periods: seq<seq<Group>>, parse: string -> Option<real>): Result<map<string, real>, PullError> {
    var totalAws := parse(total.amount);
    if totalAws.None? then Failure(TotalUnparsable(total.amount))
    else if total.unit != "USD" then Failure(NotUsd(total.unit))
    else if |periods| != 1 then Success(map[])
    else
      var t :- GroupFold(accountId, total.unit, parse, periods[0]);
      if RoundCents(t.sum) != RoundCents(totalAws.value) then Failure(TotalMismatch(accountId, t.sum, totalAws.value))
      else Success(t.results)
  }

  lemma {:induction false} GroupFoldFailureSticks(accountId: string, unit: string, parse: string -> Option<real>, groups: seq<Group>, i: nat)
    requires i <= |groups| && GroupFold(accountId, unit, parse, groups[..i]).Failure?
    ensures GroupFold(accountId, unit, parse, groups) == GroupFold(accountId, unit, parse, groups[..i])
    decreases |groups| - i
  {
    if i < |groups| {
      assert groups[..i + 1][..i] == groups[..i];
      GroupFoldFailureSticks(accountId, unit, parse, groups, i + 1);
    } else {
      assert groups[..i] == groups;
    }
  }

  /** The loop over the breakdown report's groups, with its early returns. */
  method AddGroups(accountId: string, unit: string, parse: string -> Option<real>, groups: seq<Group>)
    returns (r: Result<Tally, PullError>)
    ensures r == GroupFold(accountId, unit, parse, groups)
  {
    var serviceResults: map<string, real> := map[];
    var totalService := 0.0;
    for i := 0 to |groups|
      invariant GroupFold(accountId, unit, parse, groups[..i]) == Success(Tally(serviceResults, totalService))
    {
      var group := groups[i];
      assert groups[..i + 1][..i] == groups[..i];
      if |group.keys| != 1 {
        GroupFoldFailureSticks(accountId, unit, parse, groups, i + 1);
        return Failure(KeyCount(accountId, serviceResults));
      }
      if group.metric.unit != unit {
        GroupFoldFailureSticks(accountId, unit, parse, groups, i + 1);
        return Failure(UnitMismatch(accountId, unit, group.metric.unit));
      }
      var value := parse(group.metric.amount);
      if value.None? {
        GroupFoldFailureSticks(accountId, unit, parse, groups, i + 1);
        return Failure(ServiceUnparsable(group.metric.amount));
      }
      serviceResults := serviceResults[group.keys[0] := value.value];
      totalService := totalService + value.value;
    }
    assert groups[..|groups|] == groups;
    r := Success(Tally(serviceResults, totalService));
  }

  /** Lines 112-177 of `PullData`, in the source's order. */
  method PullData(accountId: string, total: Amount, periods: seq<seq<Group>>, parse: string -> Option<real>)
    returns (r: Result<map<string, real>, PullError>)
    ensures r == CheckReports(accountId, total, periods, parse)
  {
    var totalAws := parse(total.amount);
    if totalAws.None? {
      return Failure(TotalUnparsable(total.amount));
    }
    if total.unit != "USD" {
      return Failure(NotUsd(total.unit));
    }
    if |periods| != 1 {
      return Success(map[]);
    }
    var t := AddGroups(accountId, total.unit, parse, periods[0]);
    if t.Failure? {
      return Failure(t.error);
    }
    if RoundCents(t.value.sum) != RoundCents(totalAws.value) {
      return Failure(TotalMismatch(accountId, t.value.sum, totalAws.value));
    }
    r := Success(t.value.results);
  }

  /** What the group loop accepts: every group has one key, the right unit
      and a cost; then the costs are keyed by exactly the group keys, each
      key holds the cost of its last group, and the running total is the sum
      of every group's cost. */
  predicate GroupsOk(unit: string, parse: string -> Option<real>, groups: seq<Group>) {
    forall j :: 0 <= j < |groups| ==> |groups[j].keys| == 1 && groups[j].metric.unit == unit && parse(groups[j].metric.amount).Some?
  }

  function GroupKeys(groups: seq<Group>): set<string>
    decreases |groups|
  {
    if |groups| == 0 then {}
    else GroupKeys(groups[..|groups| - 1]) + (if |groups[|groups| - 1].keys| > 0 then {groups[|groups| - 1].keys[0]} else {})
  }

  function GroupSum(parse: string -> Option<real>, groups: seq<Group>): real
    decreases |groups|
  {
    if |groups| == 0 then 0.0
    else GroupSum(parse, groups[..|groups| - 1]) + parse(groups[|groups| - 1].metric.amount).GetOr(0.0)
  }

  /** No later group has the same key as group j. */
  predicate LastWithKey(groups: seq<Group>, j: int)
    requires 0 <= j < |groups| && |groups[j].keys| > 0
  {
    forall j' :: j < j' < |groups| && |groups[j'].keys| > 0 ==> groups[j'].keys[0] != groups[j].keys[0]
  }

  /** Each key of `results` that is the key of a group, last with that key,
      holds that group's cost. */
  predicate LastCosts(parse: string -> Option<real>, groups: seq<Group>, results: map<string, real>) {
    forall j :: 0 <= j < |groups| && |groups[j].keys| > 0 && LastWithKey(groups, j) ==>
      groups[j].keys[0] in results && parse(groups[j].metric.amount) == Some(results[groups[j].keys[0]])
  }

  /** After a successful group loop, each key holds the cost of the last
      group with that key: later groups overwrite earlier ones. */
  lemma {:induction false} GroupFoldCosts(accountId: string, unit: string, parse: string -> Option<real>, groups: seq<Group>)
    requires GroupFold(accountId, unit, parse, groups).Success?
    ensures LastCosts(parse, groups, GroupFold(accountId, unit, parse, groups).value.results)
    decreases |groups|
  {
    if |groups| > 0 {
      var front, g := groups[..|groups| - 1], groups[|groups| - 1];
      GroupFoldCosts(accountId, unit, parse, front);
      var f := GroupFold(accountId, unit, parse, front).value;
      var t := GroupFold(accountId, unit, parse, groups).value;
      assert t.results == f.results[g.keys[0] := parse(g.metric.amount).value];
      forall j | 0 <= j < |groups| && |groups[j].keys| > 0 && LastWithKey(groups, j)
        ensures groups[j].keys[0] in t.results && parse(groups[j].metric.amount) == Some(t.results[groups[j].keys[0]])
      {
        if j < |front| {
          assert front[j] == groups[j];
          assert groups[j].keys[0] != g.keys[0];
          assert LastWithKey(front, j) by {
            forall j' | j < j' < |front| && |front[j'].keys| > 0 ensures front[j'].keys[0] != front[j].keys[0] {
              assert front[j'] == groups[j'];
            }
          }
        }
      }
    }
  }

  /** The group loop succeeds exactly when every group is acceptable, and
      then its map is keyed by the group keys, each key holding the cost of
      its last group, and its total is the sum of the group costs; when the
      keys are distinct, that total is also the sum of the map. */
  lemma GroupFoldSound(accountId: string, unit: string, parse: string -> Option<real>, groups: seq<Group>)
    ensures GroupFold(accountId, unit, parse, groups).Success? <==> GroupsOk(unit, parse, groups)
    ensures GroupFold(accountId, unit, parse, groups).Success? ==>
      var t := GroupFold(accountId, unit, parse, groups).value;
      && t.results.Keys == GroupKeys(groups)
      && t.sum == GroupSum(parse, groups)
      && LastCosts(parse, groups, t.results)
      && (Distinct(seq(|groups|, j requires 0 <= j < |groups| => groups[j].keys)) ==> MapSum(t.results) == t.sum)
  {
    GroupFoldTotals(accountId, unit, parse, groups);
    if GroupFold(accountId, unit, parse, groups).Success? {
      GroupFoldCosts(accountId, unit, parse, groups);
    }
  }

  /** The acceptance, key and total parts of `GroupFoldSound`. */
  lemma {:induction false} GroupFoldTotals(accountId: string, unit: string, parse: string -> Option<real>, groups: seq<Group>)
    ensures GroupFold(accountId, unit, parse, groups).Success? <==> GroupsOk(unit, parse, groups)
    ensures GroupFold(accountId, unit, parse, groups).Success? ==>
      var t := GroupFold(accountId, unit, parse, groups).value;
      && t.results.Keys == GroupKeys(groups)
      && t.sum == GroupSum(parse, groups)
      && (Distinct(seq(|groups|, j requires 0 <= j < |groups| => groups[j].keys)) ==> MapSum(t.results) == t.sum)
    decreases |groups|
  {
    if |groups| > 0 {
      var front := groups[..|groups| - 1];
      var g := groups[|groups| - 1];
      GroupFoldTotals(accountId, unit, parse, front);
      assert forall j :: 0 <= j < |front| ==> front[j] == groups[j];
      var f := GroupFold(accountId, unit, parse, front);
      if f.Success? && GroupsOk(unit, parse, groups) {
        var t := f.value;
        var k := g.keys[0];
        var ks := seq(|groups|, j requires 0 <= j < |groups| => groups[j].keys);
        var fks := seq(|front|, j requires 0 <= j < |front| => front[j].keys);
        if Distinct(ks) {
          assert fks == ks[..|front|];
          assert Distinct(fks);
          forall j | 0 <= j < |front| ensures |front[j].keys| == 1 && front[j].keys[0] != k {
            assert ks[j] != ks[|groups| - 1];
          }
          GroupKeyNotIn(front, k);
          MapSumAccumulate(t.results, k, parse(g.metric.amount).value);
        }
      }
    }
  }

  lemma {:induction false} GroupKeyNotIn(groups: seq<Group>, k: string)
    requires forall j :: 0 <= j < |groups| ==> |groups[j].keys| == 1 && groups[j].keys[0] != k
    ensures k !in GroupKeys(groups)
    decreases |groups|
  {
    if |groups| > 0 {
      var front := groups[..|groups| - 1];
      assert forall j :: 0 <= j < |front| ==> front[j] == groups[j];
      GroupKeyNotIn(front, k);
    }
  }

  /** The properties of the report checks: the total must be "USD", a
      report with other than one period gives no costs and no error, every
      group must have one key and the total's unit, and a successful result
      is keyed by exactly the group keys, whose costs add up, to the cent, to
      the reported total. */
  lemma CheckReportsSound(accountId: string, total: Amount, periods: seq<seq<Group>>, parse: string -> Option<real>)
    ensures var r := CheckReports(accountId, total, periods, parse);
      && (parse(total.amount).Some? && total.unit != "USD" ==> r == Failure(NotUsd(total.unit)))
      && (parse(total.amount).Some? && total.unit == "USD" && |periods| != 1 ==> r == Success(map[]))
      && (|periods| == 1 && !GroupsOk(total.unit, parse, periods[0]) ==> r.Failure?)
      && (r.Success? && |periods| == 1 ==>
            && total.unit == "USD"
            && GroupsOk(total.unit, parse, periods[0])
            && r.value.Keys == GroupKeys(periods[0])
            && LastCosts(parse, periods[0], r.value)
            && RoundCents(GroupSum(parse, periods[0])) == RoundCents(parse(total.amount).value))
  {
    if |periods| == 1 {
      GroupFoldSound(accountId, total.unit, parse, periods[0]);
    }
  }
}
