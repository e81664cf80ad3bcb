/** The objects the ingest passes update in place: the directory entries,
    the cost grid, the heading set, the metadata map, the `ignored` set of the
    current pass and the log. The methods below are the loops of
    `skipAccountEntry` (costpuller.go:616-655), `getSheetFromCloudability`
    (cloudability.go:279-342), `getSheetDataFromIbmcloud` (ibmcloud.go:128-207)
    and `checkMissing` (costpuller.go:657-676), each proved against the
    corresponding function of module CostGrid or Screening. */
module GridBuilder {
  import opened Wrappers
  import opened Text
  import opened Sums
  import opened Config
  import opened Directory
  import opened Screening
  import opened Warnings
  import opened CostGrid

  /** `log` is `before` followed by one warning of `style` for each account
      in `missing`, which lists every not yet found directory account once. */
  predicate MissingLogged(dir: Directory, style: MissingStyle, filters: seq<Filter>,
                          missing: seq<string>, before: seq<Warning>, log: seq<Warning>)
  {
    && |log| == |before| + |missing| && log[..|before|] == before
    && Distinct(missing) && Elems(missing) == Unfound(dir)
    && forall i :: 0 <= i < |missing| ==>
         missing[i] in dir &&
         log[|before| + i] == MissingWarning(style, missing[i], dir[missing[i]], Join(FilterTexts(filters), " && "))
  }

  class GridBuilder {
    var directory: Directory
    var cells: CostCells
    var heads: set<string>
    var metadata: map<string, ProviderMetadata>
    var ignored: set<string>
    var warnings: seq<Warning>

    function State(): GridState
      reads this
    {
      GridState(directory, cells, heads, metadata, ignored, warnings)
    }

    /** A builder over a freshly loaded directory, with an empty grid. */
    constructor(dir: Directory)
      ensures State() == GridState(dir, map[], {}, map[], {}, [])
    {
      directory, cells, heads, metadata, ignored, warnings := dir, map[], {}, map[], {}, [];
    }

    /** `skipAccountEntry`: true when the record is to be skipped. It updates
        the `ignored` set, the log and the account's directory entry exactly
        as `Screen` says, and fails only when the configured cost centre is
        not a string. */
    method SkipAccountEntry(config: Configuration, source: string, accountId: string,
                            costCenter: string, provider: string, accountName: string)
      returns (r: Result<bool, GridError>)
      modifies this
      ensures var c := ScreenIn(old(State()), config, source, accountId, costCenter, provider, accountName);
        && (r.Success? <==> c.Success?)
        && (r.Success? ==> r.value == c.value.skip && State() == c.value.state)
        && (r.Failure? ==> r.error == c.error)
    {
      if accountId !in directory {
        if accountId !in ignored {
          var ourCostCenter := GetMapKeyString(config, "cost_center", "");
          if ourCostCenter.Failure? {
            return Failure(BadConfig(ourCostCenter.error));
          }
          if costCenter == ourCostCenter.value {
            warnings := warnings + [NotTracked(source, costCenter, provider, accountId, accountName)];
          }
          ignored := ignored + {accountId};
        }
        return Success(true);
      }
      var entry := directory[accountId];
      if NeedsCorrection(entry.cloudProvider, provider) {
        warnings := warnings + [ProviderCorrected(accountId, entry.cloudProvider, provider)];
        entry := entry.(cloudProvider := provider);
      }
      directory := directory[accountId := entry.(dataFound := true)];
      return Success(false);
    }

    /** One iteration of the Cloudability loop, in the source's order: the
        directory check, the heading, the first-seen metadata, the cost, the
        row and the cell. The new state, or the fatal error, is `CldyStep`'s. */
    method IngestRecord(config: Configuration, date: string, parse: string -> Option<real>, rec: CldyRecord)
      returns (r: Outcome<GridError>)
      modifies this
      ensures var f := CldyStep(old(State()), config, date, parse, rec);
        && (r.Pass? <==> f.Success?)
        && (r.Fail? ==> r.error == f.error)
        && (r.Pass? ==> State() == f.value)
    {
      var skip := SkipAccountEntry(config, "Cloudability", rec.accountId, rec.costCenter, rec.cloudProvider, rec.accountName);
      if skip.Failure? {
        return Fail(skip.error);
      }
      ghost var checked := State();
      assert CldyStep(old(State()), config, date, parse, rec) ==
        if skip.value then Success(checked) else CldyAccept(checked, date, parse, rec);
      if skip.value {
        return Pass;
      }
      r := AcceptRecord(date, parse, rec);
    }

    /** The part of the Cloudability iteration after the directory check has
        kept the record: the new state, or the fatal error, is `CldyAccept`'s. */
    method AcceptRecord(date: string, parse: string -> Option<real>, rec: CldyRecord)
      returns (r: Outcome<GridError>)
      modifies this
      ensures var f := CldyAccept(old(State()), date, parse, rec);
        && (r.Pass? <==> f.Success?)
        && (r.Fail? ==> r.error == f.error)
        && (r.Pass? ==> State() == f.value)
    {
      ghost var row := RowOf(cells, rec.accountId);
      ghost var newMetadata := if rec.accountId in metadata then metadata else metadata[rec.accountId := CldyMetadata(rec, date)];
      heads := heads + {rec.usageFamily};
      if rec.accountId !in metadata {
        metadata := metadata[rec.accountId := CldyMetadata(rec, date)];
      }
      assert metadata == newMetadata;
      var cost := parse(rec.cost);
      if cost.None? {
        return Fail(Unparsable(rec.accountId, rec.usageFamily, rec.cost));
      }
      if rec.accountId !in cells {
        cells := cells[rec.accountId := map[]];
      }
      assert cells[rec.accountId] == row;
      if rec.usageFamily in cells[rec.accountId] {
        return Fail(DuplicateCell(rec.accountId, rec.usageFamily, cells[rec.accountId][rec.usageFamily], cost.value));
      }
      cells := cells[rec.accountId := cells[rec.accountId][rec.usageFamily := cost.value]];
      assert cells == old(cells)[rec.accountId := row[rec.usageFamily := cost.value]];
      assert State() == old(State()).(heads := old(heads) + {rec.usageFamily}, metadata := newMetadata,
                                      cells := old(cells)[rec.accountId := row[rec.usageFamily := cost.value]]);
      r := Pass;
    }

    /** The Cloudability pass with its own, empty, `ignored` set: the grid,
        headings, metadata and directory become those of `CldyFold` over the
        records, then one `AccountNotFound` warning per directory account
        still not found is logged, in the order returned as `missing`. */
    method IngestCloudability(config: Configuration, date: string, parse: string -> Option<real>,
                              recs: seq<CldyRecord>, filters: seq<Filter>)
      returns (r: Outcome<GridError>, missing: seq<string>)
      modifies this
      ensures var f := CldyFold(old(State()).(ignored := {}), config, date, parse, recs);
        && (r.Pass? <==> f.Success?)
        && (r.Fail? ==> r.error == f.error)
        && (r.Pass? ==>
              && State() == f.value.(warnings := warnings)
              && MissingLogged(directory, AfterCloudability, filters, missing, f.value.warnings, warnings))
      ensures r.Pass? && WellFormed(old(State())) ==> WellFormed(State())
    {
      ghost var s0 := State().(ignored := {});
      ghost var f := CldyFold(s0, config, date, parse, recs);
      r := IngestRecords(config, date, parse, recs);
      if r.Fail? {
        return r, [];
      }
      ghost var folded := State();
      assert f == Success(folded);
      if WellFormed(old(State())) {
        CldyFoldWellFormed(s0, config, date, parse, recs);
      }
      missing := LogMissing(filters, AfterCloudability);
      assert State() == folded.(warnings := warnings);
    }

    /** The Cloudability loop proper, over a fresh `ignored` set: the state
        becomes that of `CldyFold` over the records. */
    method IngestRecords(config: Configuration, date: string, parse: string -> Option<real>, recs: seq<CldyRecord>)
      returns (r: Outcome<GridError>)
      modifies this
      ensures var f := CldyFold(old(State()).(ignored := {}), config, date, parse, recs);
        && (r.Pass? <==> f.Success?)
        && (r.Fail? ==> r.error == f.error)
        && (r.Pass? ==> State() == f.value)
    {
      ghost var s0 := State().(ignored := {});
      ignored := {};
      for i := 0 to |recs|
        invariant CldyFold(s0, config, date, parse, recs[..i]) == Success(State())
      {
        CldyFoldPrefix(s0, config, date, parse, recs, i);
        var step := IngestRecord(config, date, parse, recs[i]);
        if step.Fail? {
          CldyFoldFailureSticks(s0, config, date, parse, recs, i + 1);
          return step;
        }
      }
      assert recs[..|recs|] == recs;
      r := Pass;
    }

    /** Adds an account's resources into its row with `+=`, warning about
        unlisted names: the row and the log become those of `Accumulate`.
        The row is carried in a local and stored back once at the end. */
    method AddResources(accountId: string, rs: seq<IbmResource>)
      requires accountId in cells
      modifies this
      ensures var t := Accumulate(Tally(old(cells)[accountId], old(warnings)), rs);
        cells == old(cells)[accountId := t.row] && warnings == t.warnings
      ensures directory == old(directory) && heads == old(heads) && metadata == old(metadata) && ignored == old(ignored)
    {
      ghost var t0 := Tally(cells[accountId], warnings);
      var row := cells[accountId];
      for i := 0 to |rs|
        invariant Accumulate(t0, rs[..i]) == Tally(row, warnings)
        invariant State() == old(State()).(warnings := warnings)
      {
        var res := rs[i];
        AccumulateSnoc(t0, rs, i);
        var bucket := "Other";
        var known := BucketOf(res.name);
        if known.Some? {
          bucket := known.value;
        } else {
          warnings := warnings + [UnexpectedResource(res.name, res.resourceId, bucket)];
        }
        row := row[bucket := Get0(row, bucket) + res.billableCost];
      }
      assert rs[..|rs|] == rs;
      cells := cells[accountId := row];
    }

    /** One iteration of the IBM Cloud loop: the directory check, the new
        row (fatal if the account already has one), the metadata and the
        resources. The new state, or the fatal error, is `IbmStep`'s. */
    method IngestSummary(config: Configuration, acct: IbmSummary) returns (r: Outcome<GridError>)
      modifies this
      ensures var f := IbmStep(old(State()), config, acct);
        && (r.Pass? <==> f.Success?)
        && (r.Fail? ==> r.error == f.error)
        && (r.Pass? ==> State() == f.value)
    {
      var skip := SkipAccountEntry(config, "IBM Cloud", acct.accountId, acct.costCenter, acct.cloudProvider, acct.accountName);
      if skip.Failure? {
        return Fail(skip.error);
      }
      ghost var checked := State();
      assert IbmStep(old(State()), config, acct) == if skip.value then Success(checked) else IbmAccept(checked, acct);
      if skip.value {
        return Pass;
      }
      r := AcceptSummary(acct);
    }

    /** The part of the IBM Cloud iteration after the directory check has kept
        the summary: the new state, or the fatal error, is `IbmAccept`'s. */
    method AcceptSummary(acct: IbmSummary) returns (r: Outcome<GridError>)
      modifies this
      ensures var f := IbmAccept(old(State()), acct);
        && (r.Pass? <==> f.Success?)
        && (r.Fail? ==> r.error == f.error)
        && (r.Pass? ==> State() == f.value)
    {
      if acct.accountId in cells {
        return Fail(RowExists(acct.accountId));
      }
      ghost var tally := Accumulate(Tally(map[], warnings), acct.resources);
      cells := cells[acct.accountId := map[]];
      metadata := metadata[acct.accountId := IbmMetadata(acct)];
      AddResources(acct.accountId, acct.resources);
      assert cells == old(cells)[acct.accountId := tally.row];
      assert State() == old(State()).(cells := old(cells)[acct.accountId := tally.row],
                                      metadata := old(metadata)[acct.accountId := IbmMetadata(acct)],
                                      warnings := tally.warnings);
      r := Pass;
    }

    /** The IBM Cloud pass with its own, empty, `ignored` set: the state
        becomes that of `IbmFold` over the summaries. */
    method IngestIbmcloud(config: Configuration, accts: seq<IbmSummary>) returns (r: Outcome<GridError>)
      modifies this
      ensures var f := IbmFold(old(State()).(ignored := {}), config, accts);
        && (r.Pass? <==> f.Success?)
        && (r.Fail? ==> r.error == f.error)
        && (r.Pass? ==> State() == f.value)
      ensures r.Pass? && WellFormed(old(State())) ==> WellFormed(State())
    {
      ghost var s0 := State().(ignored := {});
      ignored := {};
      for i := 0 to |accts|
        invariant IbmFold(s0, config, accts[..i]) == Success(State())
      {
        IbmFoldPrefix(s0, config, accts, i);
        var step := IngestSummary(config, accts[i]);
        if step.Fail? {
          IbmFoldFailureSticks(s0, config, accts, i + 1);
          return step;
        }
      }
      assert accts[..|accts|] == accts;
      if WellFormed(old(State())) {
        IbmFoldFacts(s0, config, accts);
      }
      r := Pass;
    }

    /** `checkMissing`: one `NoDataSource` warning per directory account with
        no data from any source, in the order returned as `missing`; nothing
        else changes. */
    method CheckMissing(filters: seq<Filter>) returns (missing: seq<string>)
      modifies this
      ensures directory == old(directory) && cells == old(cells) && heads == old(heads)
      ensures metadata == old(metadata) && ignored == old(ignored)
      ensures MissingLogged(directory, AfterAllSources, filters, missing, old(warnings), warnings)
    {
      missing := LogMissing(filters, AfterAllSources);
    }

    /** Logs one warning of the given style per directory account with no
        data found, in the order returned as `missing`; nothing else changes. */
    method LogMissing(filters: seq<Filter>, style: MissingStyle) returns (missing: seq<string>)
      modifies this
      ensures directory == old(directory) && cells == old(cells) && heads == old(heads)
      ensures metadata == old(metadata) && ignored == old(ignored)
      ensures MissingLogged(directory, style, filters, missing, old(warnings), warnings)
    {
      var texts := FormatFilters(filters);
      assert texts == FilterTexts(filters);
      var report;
      report, missing := ReportMissing(directory, texts, style);
      warnings := warnings + report;
      assert warnings[..|old(warnings)|] == old(warnings);
    }
  }
}
