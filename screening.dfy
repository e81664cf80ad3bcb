/** Checking billing records against the account directory
    (costpuller.go `skipAccountEntry`) and reporting declared accounts that no
    record matched (costpuller.go `checkMissing`, cloudability.go:333-342). */
module Screening {
  import opened Wrappers
  import opened Text
  import opened Config
  import opened Directory
  import opened Warnings

  /** The state `skipAccountEntry` reads and changes, and its verdict. */
  datatype Screened = Screened(directory: Directory, ignored: set<string>, warnings: seq<Warning>, skip: bool)

  /** The directory's provider label must be replaced by the billing source's;
      "AWS" in the accounts file is accepted for a source that says "Amazon". */
  predicate NeedsCorrection(declared: string, observed: string) {
    declared != observed && !(observed == "Amazon" && declared == "AWS")
  }

  /** One billing record's check. An account missing from the directory is
      skipped and remembered in `ignored`; the first time it is seen, and only
      if the record is charged to the configured `cost_center`, a warning is
      logged. A known account is kept: its provider label is corrected if the
      source disagrees, and it is marked as found. */
  function Screen(
    dir: Directory, ignored: set<string>, warnings: seq<Warning>, config: Configuration,
    source: string, accountId: string, costCenter: string, provider: string, accountName: string)
    : Result<Screened, ConfigError>
  {
    if accountId !in dir then
      if accountId in ignored then Success(Screened(dir, ignored, warnings, true))
      else
        var ourCostCenter :- GetMapKeyString(config, "cost_center", "");
        var logged := if costCenter == ourCostCenter
          then warnings + [NotTracked(source, costCenter, provider, accountId, accountName)]
          else warnings;
        Success(Screened(dir, ignored + {accountId}, logged, true))
    else
      var m := dir[accountId];
      var correct := NeedsCorrection(m.cloudProvider, provider);
      var logged := if correct then warnings + [ProviderCorrected(accountId, m.cloudProvider, provider)] else warnings;
      var m' := m.(cloudProvider := if correct then provider else m.cloudProvider, dataFound := true);
      Success(Screened(dir[accountId := m'], ignored, logged, false))
  }

  /** A record for an unknown account is skipped and leaves the directory
      alone; it can only fail on the first sighting, when the configured cost
      centre is looked up, and it warns only then and only for our cost centre. */
  lemma ScreenUnknown(
    dir: Directory, ignored: set<string>, warnings: seq<Warning>, config: Configuration,
    source: string, accountId: string, costCenter: string, provider: string, accountName: string)
    requires accountId !in dir
    ensures var r := Screen(dir, ignored, warnings, config, source, accountId, costCenter, provider, accountName);
      (r.Failure? <==> accountId !in ignored && GetMapKeyString(config, "cost_center", "").Failure?) &&
      (r.Success? ==>
        r.value.skip && r.value.directory == dir && r.value.ignored == ignored + {accountId} &&
        (|r.value.warnings| == |warnings| + 1 <==>
          accountId !in ignored && GetMapKeyString(config, "cost_center", "").value == costCenter) &&
        r.value.warnings[..|warnings|] == warnings &&
        |r.value.warnings| <= |warnings| + 1 &&
        (|r.value.warnings| > |warnings| ==>
          r.value.warnings[|warnings|] == NotTracked(source, costCenter, provider, accountId, accountName)))
  {
  }

  /** A record for a known account is kept. Only that account's entry
      changes, and in it only the provider label (corrected, with a warning,
      exactly when the source disagrees) and the found flag. */
  lemma ScreenKnown(
    dir: Directory, ignored: set<string>, warnings: seq<Warning>, config: Configuration,
    source: string, accountId: string, costCenter: string, provider: string, accountName: string)
    requires accountId in dir
    ensures var r := Screen(dir, ignored, warnings, config, source, accountId, costCenter, provider, accountName);
      var m := dir[accountId];
      r.Success? && !r.value.skip && r.value.ignored == ignored &&
      r.value.directory.Keys == dir.Keys &&
      (forall k :: k in dir && k != accountId ==> r.value.directory[k] == dir[k]) &&
      r.value.directory[accountId].dataFound &&
      r.value.directory[accountId] == m.(cloudProvider := r.value.directory[accountId].cloudProvider, dataFound := true) &&
      (r.value.directory[accountId].cloudProvider == provider || r.value.directory[accountId].cloudProvider == m.cloudProvider) &&
      (r.value.directory[accountId].cloudProvider != m.cloudProvider <==> NeedsCorrection(m.cloudProvider, provider)) &&
      r.value.warnings == warnings + (if NeedsCorrection(m.cloudProvider, provider)
        then [ProviderCorrected(accountId, m.cloudProvider, provider)] else [])
  {
  }

  /** After a successful check the source agrees with the directory's label
      (up to the "AWS" alias), so checking a second record of the same
      account from the same source warns no more. */
  lemma ScreenCorrectsOnce(
    dir: Directory, ignored: set<string>, warnings: seq<Warning>, config: Configuration,
    source: string, accountId: string, costCenter: string, provider: string, accountName: string)
    requires accountId in dir
    ensures var r := Screen(dir, ignored, warnings, config, source, accountId, costCenter, provider, accountName).value;
      var r2 := Screen(r.directory, r.ignored, r.warnings, config, source, accountId, costCenter, provider, accountName);
      r2.Success? && r2.value.warnings == r.warnings && r2.value.directory == r.directory
  {
  }

  /** Once an unknown account has been seen, further records for it are
      skipped silently and cannot fail, whatever the configuration. */
  lemma ScreenWarnsOnce(
    dir: Directory, ignored: set<string>, warnings: seq<Warning>, config: Configuration,
    source: string, accountId: string, costCenter: string, provider: string, accountName: string,
    costCenter2: string, provider2: string, accountName2: string)
    requires accountId !in dir
    requires Screen(dir, ignored, warnings, config, source, accountId, costCenter, provider, accountName).Success?
    ensures var r := Screen(dir, ignored, warnings, config, source, accountId, costCenter, provider, accountName).value;
      Screen(r.directory, r.ignored, r.warnings, config, source, accountId, costCenter2, provider2, accountName2)
        == Success(r)
  {
  }

  /** The check never adds or removes accounts and never clears a found flag. */
  lemma ScreenMonotone(
    dir: Directory, ignored: set<string>, warnings: seq<Warning>, config: Configuration,
    source: string, accountId: string, costCenter: string, provider: string, accountName: string)
    requires Screen(dir, ignored, warnings, config, source, accountId, costCenter, provider, accountName).Success?
    ensures var r := Screen(dir, ignored, warnings, config, source, accountId, costCenter, provider, accountName).value;
      r.directory.Keys == dir.Keys && ignored <= r.ignored &&
      (r.skip <==> accountId !in dir) &&
      forall k :: k in dir ==>
        && (dir[k].dataFound ==> r.directory[k].dataFound)
        && r.directory[k].accountId == dir[k].accountId && r.directory[k].group == dir[k].group
        && r.directory[k].category == dir[k].category && r.directory[k].description == dir[k].description
  {
  }

  // -------------------------------------------------------- missing report

  /** A query filter of the billing response. */
  datatype Filter = Filter(field: string, comparator: string, value: string)

  /** Go's `%q` of a string; escaping of special characters is not modelled. */
  function Quote(s: string): string {
    "\"" + s + "\""
  }

  function FilterText(f: Filter): string {
    Quote(f.field) + " " + f.comparator + " " + Quote(f.value)
  }

  /** The filter strings, in the response's order. */
  function FilterTexts(filters: seq<Filter>): seq<string> {
    seq(|filters|, i requires 0 <= i < |filters| => FilterText(filters[i]))
  }

  /** The loop that renders the filters, one string per filter, in order. */
  method FormatFilters(filters: seq<Filter>) returns (texts: seq<string>)
    ensures |texts| == |filters| && forall i :: 0 <= i < |filters| ==> texts[i] == FilterText(filters[i])
  {
    texts := [];
    for i := 0 to |filters|
      invariant |texts| == i && forall j :: 0 <= j < i ==> texts[j] == FilterText(filters[j])
    {
      texts := texts + [FilterText(filters[i])];
    }
  }

  /** Which of the two reports: the one after the Cloudability pass, or the
      final one over every source. */
  datatype MissingStyle = AfterCloudability | AfterAllSources

  function MissingWarning(style: MissingStyle, id: string, m: AccountMetadata, filterText: string): Warning {
    match style
    case AfterCloudability => AccountNotFound(m.cloudProvider, m.group, id, filterText)
    case AfterAllSources =>
      NoDataSource(m.cloudProvider, m.group, id, if m.cloudProvider == "IBMCloud" then None else Some(filterText))
  }

  function Unfound(dir: Directory): set<string> {
    set k | k in dir && !dir[k].dataFound
  }

  /** One warning for each account still not found, and none for found ones,
      in the order the directory yields its keys (returned as `ids`); the
      filters are joined with " && ". */
  method ReportMissing(dir: Directory, filterTexts: seq<string>, style: MissingStyle)
    returns (warnings: seq<Warning>, ids: seq<string>)
    ensures Distinct(ids) && Elems(ids) == Unfound(dir) && |warnings| == |ids|
    ensures forall i :: 0 <= i < |ids| ==>
      ids[i] in dir && warnings[i] == MissingWarning(style, ids[i], dir[ids[i]], Join(filterTexts, " && "))
  {
    var filterText := Join(filterTexts, " && ");
    warnings, ids := [], [];
    var pending := dir.Keys;
    while pending != {}
      invariant pending <= dir.Keys
      invariant Distinct(ids) && |warnings| == |ids|
      invariant Elems(ids) == Unfound(dir) - pending
      invariant forall i :: 0 <= i < |ids| ==>
        ids[i] in dir && warnings[i] == MissingWarning(style, ids[i], dir[ids[i]], filterText)
      decreases pending
    {
      var id :| id in pending;
      if !dir[id].dataFound {
        ElemsAppend(ids, [id]);
        assert id !in Elems(ids);
        warnings := warnings + [MissingWarning(style, id, dir[id], filterText)];
        ids := ids + [id];
      }
      pending := pending - {id};
    }
  }
}
