/** The sparse cost grid (account → category → amount) that the billing
    sources fill in: the ingest loop of `getSheetFromCloudability`
    (cloudability.go:279-342), which is the primary source, and
    `getSheetDataFromIbmcloud` (ibmcloud.go:128-207), which augments it. Each
    pass is specified here as a fold of one step over its records; the class
    `GridBuilder` in grid_builder.dfy runs the loops against these folds. */
module CostGrid {
  import opened Wrappers
  import opened Text
  import opened Sums
  import opened Config
  import opened Directory
  import opened Screening
  import opened Warnings

  /** What a billing source reports about an account besides its costs. */
  datatype ProviderMetadata = ProviderMetadata(
    accountName: string,
    cloudProvider: string,
    costCenter: string,
    date: string,
    payerAccountId: string)

  /** Account ID → category → amount. */
  type CostCells = map<string, map<string, real>>

  /** Everything the passes read and change: the directory, the grid, the
      set of column headings, the per-account metadata, the accounts ignored
      so far in the current pass, and the warnings logged. */
  datatype GridState = GridState(
    directory: Directory,
    cells: CostCells,
    heads: set<string>,
    metadata: map<string, ProviderMetadata>,
    ignored: set<string>,
    warnings: seq<Warning>)

  datatype GridError =
    | BadConfig(configError: ConfigError)
    | Unparsable(accountId: string, usageFamily: string, cost: string)
    | DuplicateCell(accountId: string, usageFamily: string, first: real, second: real)
    | RowExists(accountId: string)

  /** Every row of the grid belongs to a directory account and has metadata,
      and every account with metadata has a row. */
  predicate WellFormed(s: GridState) {
    s.cells.Keys <= s.directory.Keys && s.metadata.Keys == s.cells.Keys
  }

  datatype Checked = Checked(state: GridState, skip: bool)

  /** `skipAccountEntry` applied to the state. */
  function ScreenIn(s: GridState, config: Configuration, source: string, accountId: string,
                    costCenter: string, provider: string, accountName: string): Result<Checked, GridError>
  {
    match Screen(s.directory, s.ignored, s.warnings, config, source, accountId, costCenter, provider, accountName)
    case Failure(e) => Failure(BadConfig(e))
    case Success(r) => Success(Checked(s.(directory := r.directory, ignored := r.ignored, warnings := r.warnings), r.skip))
  }

  lemma ScreenInFacts(s: GridState, config: Configuration, source: string, accountId: string,
                      costCenter: string, provider: string, accountName: string)
    requires ScreenIn(s, config, source, accountId, costCenter, provider, accountName).Success?
    ensures var c := ScreenIn(s, config, source, accountId, costCenter, provider, accountName).value;
      && (c.skip <==> accountId !in s.directory)
      && c.state.directory.Keys == s.directory.Keys
      && c.state.cells == s.cells && c.state.heads == s.heads && c.state.metadata == s.metadata
      && (forall k :: k in s.directory ==> (s.directory[k].dataFound ==> c.state.directory[k].dataFound))
      && (accountId in s.directory ==> c.state.directory[accountId].dataFound)
      && (forall k :: k in s.directory && k != accountId ==> c.state.directory[k] == s.directory[k])
  {
    ScreenMonotone(s.directory, s.ignored, s.warnings, config, source, accountId, costCenter, provider, accountName);
    if accountId in s.directory {
      ScreenKnown(s.directory, s.ignored, s.warnings, config, source, accountId, costCenter, provider, accountName);
    }
  }

  // ------------------------------------------------------------ Cloudability

  /** One row of the Cloudability cost report. */
  datatype CldyRecord = CldyRecord(
    accountId: string,
    accountName: string,
    cloudProvider: string,
    cost: string,
    costCenter: string,
    payerAccountId: string,
    usageFamily: string)

  function CldyMetadata(rec: CldyRecord, date: string): ProviderMetadata {
    ProviderMetadata(rec.accountName, rec.cloudProvider, rec.costCenter, date, rec.payerAccountId)
  }

  /** One iteration of the Cloudability ingest loop, in the source's order:
      the directory check, the column heading, the metadata if this is the
      account's first record, the cost (which must parse), and the cell
      (which must not be there yet). `date` is the report month as it is shown
      in the Date column; `parse` is `strconv.ParseFloat`. */
  function CldyStep(s: GridState, config: Configuration, date: string, parse: string -> Option<real>, rec: CldyRecord)
    : Result<GridState, GridError>
  {
    var c :- ScreenIn(s, config, "Cloudability", rec.accountId, rec.costCenter, rec.cloudProvider, rec.accountName);
    if c.skip then Success(c.state) else CldyAccept(c.state, date, parse, rec)
  }

  /** The part of a step after the directory check has kept the record. */
  function CldyAccept(t: GridState, date: string, parse: string -> Option<real>, rec: CldyRecord)
    : Result<GridState, GridError>
  {
    var metadata := if rec.accountId in t.metadata then t.metadata else t.metadata[rec.accountId := CldyMetadata(rec, date)];
    match parse(rec.cost)
    case None => Failure(Unparsable(rec.accountId, rec.usageFamily, rec.cost))
    case Some(cost) =>
      var row := RowOf(t.cells, rec.accountId);
      if rec.usageFamily in row then Failure(DuplicateCell(rec.accountId, rec.usageFamily, row[rec.usageFamily], cost))
      else Success(t.(heads := t.heads + {rec.usageFamily}, metadata := metadata,
                      cells := t.cells[rec.accountId := row[rec.usageFamily := cost]]))
  }

  /** The Cloudability records taken in order, stopping at the first fatal one. */
  function CldyFold(s: GridState, config: Configuration, date: string, parse: string -> Option<real>, recs: seq<CldyRecord>)
    : Result<GridState, GridError>
    decreases |recs|
  {
    if recs == [] then Success(s)
    else
      var t :- CldyFold(s, config, date, parse, recs[..|recs| - 1]);
      CldyStep(t, config, date, parse, recs[|recs| - 1])
  }

  /** The pass over one more record of `recs` is one more step. */
  lemma CldyFoldPrefix(s: GridState, config: Configuration, date: string, parse: string -> Option<real>,
                       recs: seq<CldyRecord>, i: nat)
    requires i < |recs|
    ensures CldyFold(s, config, date, parse, recs[..i + 1]) ==
      match CldyFold(s, config, date, parse, recs[..i])
      case Failure(e) => Failure(e)
      case Success(t) => CldyStep(t, config, date, parse, recs[i])
  {
    assert recs[..i + 1][..i] == recs[..i];
  }

  /** A pass that fails on a prefix of the records fails with the same error. */
  lemma {:induction false} CldyFoldFailureSticks(s: GridState, config: Configuration, date: string,
                                                 parse: string -> Option<real>, recs: seq<CldyRecord>, k: nat)
    requires k <= |recs| && CldyFold(s, config, date, parse, recs[..k]).Failure?
    ensures CldyFold(s, config, date, parse, recs) == CldyFold(s, config, date, parse, recs[..k])
    decreases |recs| - k
  {
    if k < |recs| {
      assert recs[..k + 1][..k] == recs[..k];
      CldyFoldFailureSticks(s, config, date, parse, recs, k + 1);
    } else {
      assert recs[..k] == recs;
    }
  }

  /** A record is accepted when its account is in the directory; the passes
      never add or remove directory accounts, so this is decided by the
      directory the pass starts with. */
  predicate Accepted(dir: Directory, accountId: string) {
    accountId in dir
  }

  /** An account's row, empty when it has none yet. */
  function RowOf(cells: CostCells, accountId: string): map<string, real> {
    if accountId in cells then cells[accountId] else map[]
  }

  /** Nothing already in the grid is removed or changed. */
  predicate KeepsCells(s: CostCells, t: CostCells) {
    forall id :: id in s ==> id in t && forall f :: f in s[id] ==> f in t[id] && t[id][f] == s[id][f]
  }

  /** Accounts that had metadata keep it. */
  predicate KeepsMetadata(s: map<string, ProviderMetadata>, t: map<string, ProviderMetadata>) {
    forall id :: id in s ==> id in t && t[id] == s[id]
  }

  /** The directory keeps its accounts, found flags stay set, and in each
      entry only the provider label and the found flag change. */
  predicate DirectoryEvolves(s: Directory, t: Directory) {
    && t.Keys == s.Keys
    && forall k :: k in s ==>
      && (s[k].dataFound ==> t[k].dataFound)
      && t[k] == s[k].(cloudProvider := t[k].cloudProvider, dataFound := t[k].dataFound)
  }

  /** A successful Cloudability step lets the directory evolve only as the
      directory check allows, touching no other account's entry, and keeps
      every cell and every metadata entry already there. */
  lemma CldyStepKeeps(s: GridState, config: Configuration, date: string, parse: string -> Option<real>, rec: CldyRecord)
    requires CldyStep(s, config, date, parse, rec).Success?
    ensures var t := CldyStep(s, config, date, parse, rec).value;
      && DirectoryEvolves(s.directory, t.directory)
      && (forall k :: k in s.directory && k != rec.accountId ==> t.directory[k] == s.directory[k])
      && KeepsCells(s.cells, t.cells)
      && KeepsMetadata(s.metadata, t.metadata)
  {
    CldyStepAdds(s, config, date, parse, rec);
    ScreenInFacts(s, config, "Cloudability", rec.accountId, rec.costCenter, rec.cloudProvider, rec.accountName);
  }

  /** A record the directory check rejects changes neither the grid, nor the
      headings, nor the metadata. An accepted record marks its account found,
      has a parsable cost, adds its usage family to the headings, its metadata
      if the account has none, and its cell, which was not there before. */
  lemma CldyStepAdds(s: GridState, config: Configuration, date: string, parse: string -> Option<real>, rec: CldyRecord)
    requires CldyStep(s, config, date, parse, rec).Success?
    ensures var t := CldyStep(s, config, date, parse, rec).value;
      && (!Accepted(s.directory, rec.accountId) ==> t.cells == s.cells && t.heads == s.heads && t.metadata == s.metadata)
      && (Accepted(s.directory, rec.accountId) ==>
            && t.directory[rec.accountId].dataFound
            && parse(rec.cost).Some?
            && rec.usageFamily !in RowOf(s.cells, rec.accountId)
            && t.cells == s.cells[rec.accountId := RowOf(s.cells, rec.accountId)[rec.usageFamily := parse(rec.cost).value]]
            && t.heads == s.heads + {rec.usageFamily}
            && t.metadata == if rec.accountId in s.metadata then s.metadata else s.metadata[rec.accountId := CldyMetadata(rec, date)])
  {
    ScreenInFacts(s, config, "Cloudability", rec.accountId, rec.costCenter, rec.cloudProvider, rec.accountName);
  }

  /** A successful pass over `recs` is a successful pass over all but the
      last record followed by a successful step. */
  lemma CldyFoldLast(s: GridState, config: Configuration, date: string, parse: string -> Option<real>, recs: seq<CldyRecord>)
    requires recs != [] && CldyFold(s, config, date, parse, recs).Success?
    ensures CldyFold(s, config, date, parse, recs[..|recs| - 1]).Success?
    ensures CldyStep(CldyFold(s, config, date, parse, recs[..|recs| - 1]).value, config, date, parse, recs[|recs| - 1])
      == CldyFold(s, config, date, parse, recs)
  {
  }

  /** The families of the records the directory accepts. */
  function AcceptedFamilies(dir: Directory, recs: seq<CldyRecord>): set<string> {
    set i | 0 <= i < |recs| && Accepted(dir, recs[i].accountId) :: recs[i].usageFamily
  }

  lemma AcceptedFamiliesSnoc(dir: Directory, recs: seq<CldyRecord>, rec: CldyRecord)
    ensures AcceptedFamilies(dir, recs + [rec]) ==
      AcceptedFamilies(dir, recs) + (if Accepted(dir, rec.accountId) then {rec.usageFamily} else {})
  {
    var all := recs + [rec];
    forall f | f in AcceptedFamilies(dir, all)
      ensures f in AcceptedFamilies(dir, recs) || (Accepted(dir, rec.accountId) && f == rec.usageFamily)
    {
      var i :| 0 <= i < |all| && Accepted(dir, all[i].accountId) && all[i].usageFamily == f;
      if i < |recs| { assert recs[i] == all[i]; }
    }
    forall f | f in AcceptedFamilies(dir, recs) ensures f in AcceptedFamilies(dir, all) {
      var i :| 0 <= i < |recs| && Accepted(dir, recs[i].accountId) && recs[i].usageFamily == f;
      assert all[i] == recs[i];
    }
    if Accepted(dir, rec.accountId) {
      assert all[|recs|] == rec;
    }
  }

  /** After a successful pass the directory has evolved as the directory
      check allows, the grid kept every cell it had, and the column headings
      are the old ones plus the usage family of every accepted record. */
  lemma {:induction false} CldyFoldHeads(s: GridState, config: Configuration, date: string,
                                         parse: string -> Option<real>, recs: seq<CldyRecord>)
    requires CldyFold(s, config, date, parse, recs).Success?
    ensures var t := CldyFold(s, config, date, parse, recs).value;
      && DirectoryEvolves(s.directory, t.directory) && KeepsCells(s.cells, t.cells)
      && KeepsMetadata(s.metadata, t.metadata)
      && t.heads == s.heads + AcceptedFamilies(s.directory, recs)
    decreases |recs|
  {
    if recs != [] {
      var front, last := recs[..|recs| - 1], recs[|recs| - 1];
      CldyFoldLast(s, config, date, parse, recs);
      CldyFoldHeads(s, config, date, parse, front);
      var mid := CldyFold(s, config, date, parse, front).value;
      CldyStepKeeps(mid, config, date, parse, last);
      CldyStepAdds(mid, config, date, parse, last);
      AcceptedFamiliesSnoc(s.directory, front, last);
      assert recs == front + [last];
    }
  }

  /** A pass keeps the grid well formed. */
  lemma {:induction false} CldyFoldWellFormed(s: GridState, config: Configuration, date: string,
                                              parse: string -> Option<real>, recs: seq<CldyRecord>)
    requires WellFormed(s)
    requires CldyFold(s, config, date, parse, recs).Success?
    ensures WellFormed(CldyFold(s, config, date, parse, recs).value)
    decreases |recs|
  {
    if recs != [] {
      var front := recs[..|recs| - 1];
      CldyFoldLast(s, config, date, parse, recs);
      CldyFoldWellFormed(s, config, date, parse, front);
      CldyStepKeeps(CldyFold(s, config, date, parse, front).value, config, date, parse, recs[|recs| - 1]);
      CldyStepAdds(CldyFold(s, config, date, parse, front).value, config, date, parse, recs[|recs| - 1]);
    }
  }

  /** The record's cost parses and is in its account's row under its usage family. */
  predicate HasCell(t: GridState, parse: string -> Option<real>, rec: CldyRecord) {
    && parse(rec.cost).Some? && rec.accountId in t.cells
    && rec.usageFamily in t.cells[rec.accountId]
    && t.cells[rec.accountId][rec.usageFamily] == parse(rec.cost).value
  }

  /** A later step leaves an earlier record's cell in place. */
  lemma CldyStepKeepsCell(s: GridState, config: Configuration, date: string, parse: string -> Option<real>,
                          last: CldyRecord, rec: CldyRecord)
    requires CldyStep(s, config, date, parse, last).Success? && HasCell(s, parse, rec)
    ensures HasCell(CldyStep(s, config, date, parse, last).value, parse, rec)
  {
    CldyStepKeeps(s, config, date, parse, last);
  }

  /** After a successful pass every accepted record's cost is in its cell,
      parsed. */
  lemma {:induction false} CldyFoldCells(s: GridState, config: Configuration, date: string,
                                         parse: string -> Option<real>, recs: seq<CldyRecord>)
    requires CldyFold(s, config, date, parse, recs).Success?
    ensures var t := CldyFold(s, config, date, parse, recs).value;
      forall i :: 0 <= i < |recs| && Accepted(s.directory, recs[i].accountId) ==> HasCell(t, parse, recs[i])
    decreases |recs|
  {
    if recs != [] {
      var front, last := recs[..|recs| - 1], recs[|recs| - 1];
      CldyFoldLast(s, config, date, parse, recs);
      CldyFoldCells(s, config, date, parse, front);
      CldyFoldHeads(s, config, date, parse, front);
      var mid := CldyFold(s, config, date, parse, front).value;
      assert mid.directory.Keys == s.directory.Keys;
      var t := CldyFold(s, config, date, parse, recs).value;
      forall i | 0 <= i < |recs| && Accepted(s.directory, recs[i].accountId)
        ensures HasCell(t, parse, recs[i])
      {
        if i < |front| {
          assert front[i] == recs[i];
          CldyStepKeepsCell(mid, config, date, parse, last, recs[i]);
        } else {
          CldyStepAdds(mid, config, date, parse, last);
          assert recs[i] == last;
        }
      }
    }
  }

  /** Every cell a successful pass adds comes from an accepted record. */
  lemma {:induction false} CldyFoldCellsSound(s: GridState, config: Configuration, date: string,
                                              parse: string -> Option<real>, recs: seq<CldyRecord>)
    requires CldyFold(s, config, date, parse, recs).Success?
    ensures var t := CldyFold(s, config, date, parse, recs).value;
      forall id, f :: id in t.cells && f in t.cells[id] ==>
        (id in s.cells && f in s.cells[id]) ||
        exists i :: 0 <= i < |recs| && Accepted(s.directory, recs[i].accountId) &&
          recs[i].accountId == id && recs[i].usageFamily == f
    decreases |recs|
  {
    if recs != [] {
      var front, last := recs[..|recs| - 1], recs[|recs| - 1];
      CldyFoldLast(s, config, date, parse, recs);
      CldyFoldCellsSound(s, config, date, parse, front);
      CldyFoldHeads(s, config, date, parse, front);
      var mid := CldyFold(s, config, date, parse, front).value;
      CldyStepAdds(mid, config, date, parse, last);
      var t := CldyFold(s, config, date, parse, recs).value;
      forall id, f | id in t.cells && f in t.cells[id] && !(id in s.cells && f in s.cells[id])
        ensures exists i :: (0 <= i < |recs| && Accepted(s.directory, recs[i].accountId) &&
          recs[i].accountId == id && recs[i].usageFamily == f)
      {
        if id in mid.cells && f in mid.cells[id] {
          var i :| 0 <= i < |front| && Accepted(s.directory, front[i].accountId) &&
            front[i].accountId == id && front[i].usageFamily == f;
          assert recs[i] == front[i];
        } else {
          assert recs[|recs| - 1] == last;
        }
      }
    }
  }

  /** Two accepted records for the same account and usage family make the
      pass fail, whichever comes first. */
  lemma {:induction false} CldyFoldDuplicateFails(s: GridState, config: Configuration, date: string,
                                                  parse: string -> Option<real>, recs: seq<CldyRecord>, i: int, j: int)
    requires 0 <= i < j < |recs| && Accepted(s.directory, recs[i].accountId)
    requires recs[i].accountId == recs[j].accountId && recs[i].usageFamily == recs[j].usageFamily
    ensures CldyFold(s, config, date, parse, recs).Failure?
    decreases |recs|
  {
    if CldyFold(s, config, date, parse, recs).Success? {
      var front, last := recs[..|recs| - 1], recs[|recs| - 1];
      CldyFoldLast(s, config, date, parse, recs);
      assert front[i] == recs[i];
      if j < |recs| - 1 {
        assert front[j] == recs[j];
        CldyFoldDuplicateFails(s, config, date, parse, front, i, j);
      } else {
        var mid := CldyFold(s, config, date, parse, front).value;
        CldyFoldCells(s, config, date, parse, front);
        CldyFoldHeads(s, config, date, parse, front);
        CldyStepAdds(mid, config, date, parse, last);
      }
    }
  }

  /** An accepted record whose cost does not parse makes the pass fail. */
  lemma CldyFoldUnparsableFails(s: GridState, config: Configuration, date: string,
                                parse: string -> Option<real>, recs: seq<CldyRecord>, i: int)
    requires 0 <= i < |recs| && Accepted(s.directory, recs[i].accountId) && parse(recs[i].cost).None?
    ensures CldyFold(s, config, date, parse, recs).Failure?
  {
    if CldyFold(s, config, date, parse, recs).Success? {
      CldyFoldCells(s, config, date, parse, recs);
    }
  }

  /** Record i is the first record for its account. */
  predicate FirstFor(recs: seq<CldyRecord>, i: int) {
    0 <= i < |recs| && forall j :: 0 <= j < i ==> recs[j].accountId != recs[i].accountId
  }

  /** The record's account has the metadata built from that record. */
  predicate HasMetadataOf(t: GridState, rec: CldyRecord, date: string) {
    rec.accountId in t.metadata && t.metadata[rec.accountId] == CldyMetadata(rec, date)
  }

  /** A later step leaves metadata already there in place. */
  lemma CldyStepKeepsMetadata(s: GridState, config: Configuration, date: string, parse: string -> Option<real>,
                              last: CldyRecord, rec: CldyRecord)
    requires CldyStep(s, config, date, parse, last).Success? && HasMetadataOf(s, rec, date)
    ensures HasMetadataOf(CldyStep(s, config, date, parse, last).value, rec, date)
  {
    CldyStepKeeps(s, config, date, parse, last);
  }

  /** An accepted record of an account without metadata gives it the record's metadata. */
  lemma CldyStepNewMetadata(s: GridState, config: Configuration, date: string, parse: string -> Option<real>,
                            rec: CldyRecord)
    requires CldyStep(s, config, date, parse, rec).Success?
    requires Accepted(s.directory, rec.accountId) && rec.accountId !in s.metadata
    ensures HasMetadataOf(CldyStep(s, config, date, parse, rec).value, rec, date)
  {
    CldyStepAdds(s, config, date, parse, rec);
  }

  /** The metadata of an account with an accepted record is the
      metadata of its first record (or what it had before); later records do
      not overwrite it. */
  lemma {:induction false} CldyFoldFirstMetadata(s: GridState, config: Configuration, date: string,
                                                 parse: string -> Option<real>, recs: seq<CldyRecord>)
    requires CldyFold(s, config, date, parse, recs).Success?
    ensures var t := CldyFold(s, config, date, parse, recs).value;
      forall i :: FirstFor(recs, i) && Accepted(s.directory, recs[i].accountId) && recs[i].accountId !in s.metadata ==>
        HasMetadataOf(t, recs[i], date)
    decreases |recs|
  {
    if recs != [] {
      var front, last := recs[..|recs| - 1], recs[|recs| - 1];
      CldyFoldLast(s, config, date, parse, recs);
      var mid := CldyFold(s, config, date, parse, front).value;
      var t := CldyFold(s, config, date, parse, recs).value;
      forall i | FirstFor(recs, i) && Accepted(s.directory, recs[i].accountId) && recs[i].accountId !in s.metadata
        ensures HasMetadataOf(t, recs[i], date)
      {
        if i < |front| {
          assert front[i] == recs[i];
          assert FirstFor(front, i);
          CldyFoldFirstMetadata(s, config, date, parse, front);
          CldyStepKeepsMetadata(mid, config, date, parse, last, recs[i]);
        } else {
          assert recs[i] == last;
          CldyFoldHeads(s, config, date, parse, front);
          CldyFoldMetadataSound(s, config, date, parse, front);
          if last.accountId in mid.metadata {
            assert false;
          }
          CldyStepNewMetadata(mid, config, date, parse, last);
        }
      }
    }
  }

  /** An account that gains metadata in the pass has an accepted record. */
  lemma {:induction false} CldyFoldMetadataSound(s: GridState, config: Configuration, date: string,
                                                 parse: string -> Option<real>, recs: seq<CldyRecord>)
    requires CldyFold(s, config, date, parse, recs).Success?
    ensures var t := CldyFold(s, config, date, parse, recs).value;
      forall id :: id in t.metadata && id !in s.metadata ==>
        Accepted(s.directory, id) && exists i :: 0 <= i < |recs| && recs[i].accountId == id
    decreases |recs|
  {
    if recs != [] {
      var front, last := recs[..|recs| - 1], recs[|recs| - 1];
      CldyFoldLast(s, config, date, parse, recs);
      CldyFoldMetadataSound(s, config, date, parse, front);
      CldyFoldHeads(s, config, date, parse, front);
      var mid := CldyFold(s, config, date, parse, front).value;
      CldyStepAdds(mid, config, date, parse, last);
      var t := CldyFold(s, config, date, parse, recs).value;
      forall id | id in t.metadata && id !in s.metadata
        ensures Accepted(s.directory, id) && exists i :: 0 <= i < |recs| && recs[i].accountId == id
      {
        if id in mid.metadata {
          var k :| 0 <= k < |front| && front[k].accountId == id;
          assert recs[k] == front[k];
        } else {
          assert recs[|recs| - 1] == last;
        }
      }
    }
  }

  /** The accounts the records name. */
  function CldyIds(recs: seq<CldyRecord>): set<string> {
    set i | 0 <= i < |recs| :: recs[i].accountId
  }

  lemma CldyIdsSnoc(recs: seq<CldyRecord>, rec: CldyRecord)
    ensures CldyIds(recs + [rec]) == CldyIds(recs) + {rec.accountId}
  {
    var all := recs + [rec];
    forall id | id in CldyIds(all) ensures id in CldyIds(recs) + {rec.accountId} {
      var i :| 0 <= i < |all| && all[i].accountId == id;
      if i < |recs| { assert recs[i] == all[i]; }
    }
    forall id | id in CldyIds(recs) ensures id in CldyIds(all) {
      var i :| 0 <= i < |recs| && recs[i].accountId == id;
      assert all[i] == recs[i];
    }
    assert all[|recs|] == rec;
  }

  /** A step marks the record's account found, if it is in the directory, and no other. */
  lemma CldyStepFound(s: GridState, config: Configuration, date: string, parse: string -> Option<real>, rec: CldyRecord)
    requires CldyStep(s, config, date, parse, rec).Success?
    ensures var t := CldyStep(s, config, date, parse, rec).value;
      && t.directory.Keys == s.directory.Keys
      && forall k :: k in s.directory ==> (t.directory[k].dataFound <==> s.directory[k].dataFound || k == rec.accountId)
  {
    ScreenInFacts(s, config, "Cloudability", rec.accountId, rec.costCenter, rec.cloudProvider, rec.accountName);
  }

  /** A directory account is found after the pass exactly when it was found
      before or some record names it. */
  lemma {:induction false} CldyFoldFound(s: GridState, config: Configuration, date: string,
                                         parse: string -> Option<real>, recs: seq<CldyRecord>)
    requires CldyFold(s, config, date, parse, recs).Success?
    ensures var t := CldyFold(s, config, date, parse, recs).value;
      && t.directory.Keys == s.directory.Keys
      && forall k :: k in s.directory ==> (t.directory[k].dataFound <==> s.directory[k].dataFound || k in CldyIds(recs))
    decreases |recs|
  {
    if recs != [] {
      var front, last := recs[..|recs| - 1], recs[|recs| - 1];
      CldyFoldLast(s, config, date, parse, recs);
      CldyFoldFound(s, config, date, parse, front);
      CldyStepFound(CldyFold(s, config, date, parse, front).value, config, date, parse, last);
      CldyIdsSnoc(front, last);
      assert recs == front + [last];
    }
  }

  // --------------------------------------------------------------- IBM Cloud

  /** One priced resource of an IBM Cloud account summary. */
  datatype IbmResource = IbmResource(name: string, resourceId: string, billableCost: real)

  /** One IBM Cloud account summary. */
  datatype IbmSummary = IbmSummary(
    accountId: string,
    accountName: string,
    cloudProvider: string,
    costCenter: string,
    payerAccountId: string,
    month: string,
    resources: seq<IbmResource>)

  /** The fixed table from IBM Cloud resource names to Cloudability usage
      families (the cases of the source's switch). */
  const BucketTable: map<string, string> := map[
    "Block Storage for VPC" := "Storage",
    "Cloud Object Storage" := "Storage",
    "Cloud Activity Tracker" := "Notifications",
    "Cloud Monitoring" := "Notifications",
    "Continuous Delivery" := "Other",
    "Log Analysis" := "Other",
    "Floating IP for VPC" := "IP Address",
    "Kubernetes Service" := "Instance Usage",
    "Load Balancer for VPC" := "Load Balancer",
    "Virtual Private Cloud" := "VPN",
    "Virtual Private Endpoint for VPC" := "VPC Endpoint",
    "Virtual Server for VPC" := "VPC Endpoint"]

  /** A name's table entry; names not in the table have none. */
  function BucketOf(name: string): Option<string> {
    if name in BucketTable then Some(BucketTable[name]) else None
  }

  /** The bucket a resource's cost goes to: its table entry, or "Other". */
  function Bucket(name: string): string {
    BucketOf(name).GetOr("Other")
  }

  /** Every cost lands in one of the eight Cloudability usage families, and
      an unlisted name in "Other". */
  lemma BucketRange(name: string)
    ensures Bucket(name) in {"Storage", "Notifications", "Other", "IP Address", "Instance Usage", "Load Balancer", "VPN", "VPC Endpoint"}
    ensures BucketOf(name).None? ==> Bucket(name) == "Other"
  {
  }

  /** An account's bucket row under construction, with the warnings so far. */
  datatype Tally = Tally(row: map<string, real>, warnings: seq<Warning>)

  /** One resource added into its bucket with `+=`; an unlisted name is warned about. */
  function AddResource(t: Tally, res: IbmResource): Tally {
    var b := Bucket(res.name);
    Tally(t.row[b := Get0(t.row, b) + res.billableCost],
          if BucketOf(res.name).Some? then t.warnings else t.warnings + [UnexpectedResource(res.name, res.resourceId, b)])
  }

  function Accumulate(t: Tally, rs: seq<IbmResource>): Tally
    decreases |rs|
  {
    if rs == [] then t else AddResource(Accumulate(t, rs[..|rs| - 1]), rs[|rs| - 1])
  }

  /** The total billable cost of the resources mapped to bucket `b`. */
  function BucketSum(rs: seq<IbmResource>, b: string): real
    decreases |rs|
  {
    if rs == [] then 0.0
    else BucketSum(rs[..|rs| - 1], b) + (if Bucket(rs[|rs| - 1].name) == b then rs[|rs| - 1].billableCost else 0.0)
  }

  /** The total billable cost of the resources. */
  function CostSum(rs: seq<IbmResource>): real
    decreases |rs|
  {
    if rs == [] then 0.0 else CostSum(rs[..|rs| - 1]) + rs[|rs| - 1].billableCost
  }

  /** The buckets some resource maps to. */
  function BucketsOf(rs: seq<IbmResource>): set<string> {
    set i | 0 <= i < |rs| :: Bucket(rs[i].name)
  }

  lemma BucketsOfSnoc(rs: seq<IbmResource>, r: IbmResource)
    ensures BucketsOf(rs + [r]) == BucketsOf(rs) + {Bucket(r.name)}
  {
    var all := rs + [r];
    forall b | b in BucketsOf(all) ensures b in BucketsOf(rs) + {Bucket(r.name)} {
      var i :| 0 <= i < |all| && Bucket(all[i].name) == b;
      if i < |rs| { assert rs[i] == all[i]; }
    }
    forall b | b in BucketsOf(rs) ensures b in BucketsOf(all) {
      var i :| 0 <= i < |rs| && Bucket(rs[i].name) == b;
      assert all[i] == rs[i];
    }
    assert all[|rs|] == r;
  }

  lemma AccumulateSnoc(t: Tally, rs: seq<IbmResource>, i: int)
    requires 0 <= i < |rs|
    ensures Accumulate(t, rs[..i + 1]) == AddResource(Accumulate(t, rs[..i]), rs[i])
  {
    assert rs[..i + 1][..i] == rs[..i];
  }

  /** One more resource adds into its own bucket and leaves the others. */
  lemma {:induction false} AccumulateLast(t: Tally, rs: seq<IbmResource>)
    requires rs != []
    ensures var prev := Accumulate(t, rs[..|rs| - 1]).row;
      var b := Bucket(rs[|rs| - 1].name);
      Accumulate(t, rs).row == prev[b := Get0(prev, b) + rs[|rs| - 1].billableCost]
  {
    assert Accumulate(t, rs) == AddResource(Accumulate(t, rs[..|rs| - 1]), rs[|rs| - 1]);
  }

  /** Starting from an empty row, each bucket holds the sum of the costs of
      the resources mapped to it: costs accumulate, never overwrite. */
  lemma {:induction false} AccumulateBuckets(ws: seq<Warning>, rs: seq<IbmResource>)
    ensures var row := Accumulate(Tally(map[], ws), rs).row;
      forall b :: Get0(row, b) == BucketSum(rs, b)
    decreases |rs|
  {
    if rs != [] {
      AccumulateBuckets(ws, rs[..|rs| - 1]);
      AccumulateLast(Tally(map[], ws), rs);
    }
  }

  /** The row has exactly the buckets some resource maps to. */
  lemma {:induction false} AccumulateKeys(ws: seq<Warning>, rs: seq<IbmResource>)
    ensures Accumulate(Tally(map[], ws), rs).row.Keys == BucketsOf(rs)
    decreases |rs|
  {
    if rs != [] {
      var front := rs[..|rs| - 1];
      AccumulateKeys(ws, front);
      AccumulateLast(Tally(map[], ws), rs);
      BucketsOfSnoc(front, rs[|rs| - 1]);
      assert rs == front + [rs[|rs| - 1]];
    }
  }

  /** The buckets of an account add up to the total billable cost of its resources. */
  lemma {:induction false} AccumulateConserves(ws: seq<Warning>, rs: seq<IbmResource>)
    ensures MapSum(Accumulate(Tally(map[], ws), rs).row) == CostSum(rs)
    decreases |rs|
  {
    if rs == [] {
      MapSumEmpty();
    } else {
      var front := rs[..|rs| - 1];
      AccumulateConserves(ws, front);
      var last := rs[|rs| - 1];
      AccumulateLast(Tally(map[], ws), rs);
      MapSumAccumulate(Accumulate(Tally(map[], ws), front).row, Bucket(last.name), last.billableCost);
    }
  }

  /** The warnings grow by one `UnexpectedResource` for each resource whose
      name is not in the table, and by nothing else. */
  lemma {:induction false} AccumulateWarnings(ws: seq<Warning>, rs: seq<IbmResource>)
    ensures var w := Accumulate(Tally(map[], ws), rs).warnings;
      && |ws| <= |w| && w[..|ws|] == ws
      && (forall k :: |ws| <= k < |w| ==>
            exists i :: (0 <= i < |rs| && BucketOf(rs[i].name).None? &&
              w[k] == UnexpectedResource(rs[i].name, rs[i].resourceId, "Other")))
      && (forall i :: 0 <= i < |rs| && BucketOf(rs[i].name).None? ==> UnexpectedResource(rs[i].name, rs[i].resourceId, "Other") in w)
    decreases |rs|
  {
    if rs != [] {
      var front, last := rs[..|rs| - 1], rs[|rs| - 1];
      AccumulateWarnings(ws, front);
      var w0 := Accumulate(Tally(map[], ws), front).warnings;
      var w := Accumulate(Tally(map[], ws), rs).warnings;
      forall k | |ws| <= k < |w|
        ensures exists i :: 0 <= i < |rs| && BucketOf(rs[i].name).None? && w[k] == UnexpectedResource(rs[i].name, rs[i].resourceId, "Other")
      {
        if k < |w0| {
          assert w[k] == w0[k];
          var i :| 0 <= i < |front| && BucketOf(front[i].name).None? && w0[k] == UnexpectedResource(front[i].name, front[i].resourceId, "Other");
          assert rs[i] == front[i];
        } else {
          assert rs[|rs| - 1] == last;
        }
      }
      forall i | 0 <= i < |rs| && BucketOf(rs[i].name).None?
        ensures UnexpectedResource(rs[i].name, rs[i].resourceId, "Other") in w
      {
        if i < |front| {
          assert front[i] == rs[i];
          assert UnexpectedResource(rs[i].name, rs[i].resourceId, "Other") in w0;
        }
      }
    }
  }

  function IbmMetadata(acct: IbmSummary): ProviderMetadata {
    ProviderMetadata(acct.accountName, acct.cloudProvider, acct.costCenter, acct.month, acct.payerAccountId)
  }

  /** One iteration of the IBM Cloud loop: the directory check, then a new
      row, which must not exist yet (a row from the Cloudability pass counts),
      the summary's metadata, and the resources bucketed into the row. */
  function IbmStep(s: GridState, config: Configuration, acct: IbmSummary): Result<GridState, GridError> {
    var c :- ScreenIn(s, config, "IBM Cloud", acct.accountId, acct.costCenter, acct.cloudProvider, acct.accountName);
    if c.skip then Success(c.state) else IbmAccept(c.state, acct)
  }

  /** The part of a step after the directory check has kept the summary. */
  function IbmAccept(t: GridState, acct: IbmSummary): Result<GridState, GridError> {
    if acct.accountId in t.cells then Failure(RowExists(acct.accountId))
    else
      var tally := Accumulate(Tally(map[], t.warnings), acct.resources);
      Success(t.(cells := t.cells[acct.accountId := tally.row],
                 metadata := t.metadata[acct.accountId := IbmMetadata(acct)],
                 warnings := tally.warnings))
  }

  function IbmFold(s: GridState, config: Configuration, accts: seq<IbmSummary>): Result<GridState, GridError>
    decreases |accts|
  {
    if accts == [] then Success(s)
    else
      var t :- IbmFold(s, config, accts[..|accts| - 1]);
      IbmStep(t, config, accts[|accts| - 1])
  }

  /** The pass over one more summary of `accts` is one more step. */
  lemma IbmFoldPrefix(s: GridState, config: Configuration, accts: seq<IbmSummary>, i: nat)
    requires i < |accts|
    ensures IbmFold(s, config, accts[..i + 1]) ==
      match IbmFold(s, config, accts[..i])
      case Failure(e) => Failure(e)
      case Success(t) => IbmStep(t, config, accts[i])
  {
    assert accts[..i + 1][..i] == accts[..i];
  }

  /** A pass that fails on a prefix of the summaries fails with the same error. */
  lemma {:induction false} IbmFoldFailureSticks(s: GridState, config: Configuration, accts: seq<IbmSummary>, k: nat)
    requires k <= |accts| && IbmFold(s, config, accts[..k]).Failure?
    ensures IbmFold(s, config, accts) == IbmFold(s, config, accts[..k])
    decreases |accts| - k
  {
    if k < |accts| {
      assert accts[..k + 1][..k] == accts[..k];
      IbmFoldFailureSticks(s, config, accts, k + 1);
    } else {
      assert accts[..k] == accts;
    }
  }

  /** The bucket row of an account's resources. */
  function BucketRow(rs: seq<IbmResource>): map<string, real> {
    Accumulate(Tally(map[], []), rs).row
  }

  /** The row does not depend on the warnings logged before. */
  lemma {:induction false} AccumulateRow(row: map<string, real>, ws: seq<Warning>, ws': seq<Warning>, rs: seq<IbmResource>)
    ensures Accumulate(Tally(row, ws), rs).row == Accumulate(Tally(row, ws'), rs).row
    decreases |rs|
  {
    if rs != [] {
      AccumulateRow(row, ws, ws', rs[..|rs| - 1]);
    }
  }

  /** A step keeps the directory's accounts, the headings, the existing rows
      and a well-formed grid. */
  lemma IbmStepKeeps(s: GridState, config: Configuration, acct: IbmSummary)
    requires IbmStep(s, config, acct).Success?
    ensures var t := IbmStep(s, config, acct).value;
      && DirectoryEvolves(s.directory, t.directory) && t.heads == s.heads && KeepsRows(s, t)
      && (WellFormed(s) ==> WellFormed(t))
  {
    IbmStepAdds(s, config, acct);
    ScreenInFacts(s, config, "IBM Cloud", acct.accountId, acct.costCenter, acct.cloudProvider, acct.accountName);
  }

  /** A rejected summary adds no row and no metadata; an accepted one adds
      its account's bucket row and metadata to a grid without that row. */
  lemma IbmStepAdds(s: GridState, config: Configuration, acct: IbmSummary)
    requires IbmStep(s, config, acct).Success?
    ensures var t := IbmStep(s, config, acct).value;
      && (!Accepted(s.directory, acct.accountId) ==> t.cells == s.cells && t.metadata == s.metadata)
      && (Accepted(s.directory, acct.accountId) ==>
            && acct.accountId !in s.cells
            && t.cells == s.cells[acct.accountId := BucketRow(acct.resources)]
            && t.metadata == s.metadata[acct.accountId := IbmMetadata(acct)])
  {
    ScreenInFacts(s, config, "IBM Cloud", acct.accountId, acct.costCenter, acct.cloudProvider, acct.accountName);
    var c := ScreenIn(s, config, "IBM Cloud", acct.accountId, acct.costCenter, acct.cloudProvider, acct.accountName).value;
    AccumulateRow(map[], c.state.warnings, [], acct.resources);
  }

  /** A successful pass over `accts` is a successful pass over all but the
      last summary followed by a successful step. */
  lemma IbmFoldLast(s: GridState, config: Configuration, accts: seq<IbmSummary>)
    requires accts != [] && IbmFold(s, config, accts).Success?
    ensures IbmFold(s, config, accts[..|accts| - 1]).Success?
    ensures IbmStep(IbmFold(s, config, accts[..|accts| - 1]).value, config, accts[|accts| - 1]) == IbmFold(s, config, accts)
  {
  }

  /** Rows and metadata of accounts that already have a row are left alone. */
  predicate KeepsRows(s: GridState, t: GridState) {
    && KeepsCells(s.cells, t.cells)
    && forall id :: id in s.cells && id in s.metadata ==> id in t.metadata && t.metadata[id] == s.metadata[id]
  }

  /** An IBM Cloud pass keeps the headings (its buckets are not added to
      them), the directory's accounts and found flags, the existing rows and
      their metadata, and a well-formed grid. */
  lemma {:induction false} IbmFoldFacts(s: GridState, config: Configuration, accts: seq<IbmSummary>)
    requires IbmFold(s, config, accts).Success?
    ensures var t := IbmFold(s, config, accts).value;
      && DirectoryEvolves(s.directory, t.directory) && t.heads == s.heads && KeepsRows(s, t)
      && (WellFormed(s) ==> WellFormed(t))
    decreases |accts|
  {
    if accts != [] {
      var front, last := accts[..|accts| - 1], accts[|accts| - 1];
      IbmFoldLast(s, config, accts);
      IbmFoldFacts(s, config, front);
      var mid := IbmFold(s, config, front).value;
      IbmStepKeeps(mid, config, last);
      var t := IbmFold(s, config, accts).value;
      EvolvesTransitive(s.directory, mid.directory, t.directory);
      KeepsRowsTransitive(s, mid, t);
    }
  }

  lemma EvolvesTransitive(a: Directory, b: Directory, c: Directory)
    requires DirectoryEvolves(a, b) && DirectoryEvolves(b, c)
    ensures DirectoryEvolves(a, c)
  {
  }

  lemma KeepsRowsTransitive(a: GridState, b: GridState, c: GridState)
    requires KeepsRows(a, b) && KeepsRows(b, c)
    ensures KeepsRows(a, c)
  {
  }

  /** The account of `acct` has the bucket row of its resources and its metadata. */
  predicate HasIbmRow(t: GridState, acct: IbmSummary) {
    && acct.accountId in t.cells && t.cells[acct.accountId] == BucketRow(acct.resources)
    && acct.accountId in t.metadata && t.metadata[acct.accountId] == IbmMetadata(acct)
  }

  /** A later step leaves an earlier summary's row and metadata in place. */
  lemma IbmStepKeepsRow(s: GridState, config: Configuration, last: IbmSummary, acct: IbmSummary)
    requires IbmStep(s, config, last).Success? && HasIbmRow(s, acct)
    ensures HasIbmRow(IbmStep(s, config, last).value, acct)
  {
    IbmStepAdds(s, config, last);
  }

  /** Every accepted summary's account ends with the bucket row of that
      summary's resources and the summary's metadata. */
  lemma {:induction false} IbmFoldRows(s: GridState, config: Configuration, accts: seq<IbmSummary>)
    requires IbmFold(s, config, accts).Success?
    ensures var t := IbmFold(s, config, accts).value;
      forall i :: 0 <= i < |accts| && Accepted(s.directory, accts[i].accountId) ==> HasIbmRow(t, accts[i])
    decreases |accts|
  {
    if accts != [] {
      var front, last := accts[..|accts| - 1], accts[|accts| - 1];
      IbmFoldLast(s, config, accts);
      IbmFoldFacts(s, config, front);
      var mid := IbmFold(s, config, front).value;
      assert mid.directory.Keys == s.directory.Keys;
      IbmFoldRows(s, config, front);
      var t := IbmFold(s, config, accts).value;
      forall i | 0 <= i < |accts| && Accepted(s.directory, accts[i].accountId)
        ensures HasIbmRow(t, accts[i])
      {
        if i < |front| {
          assert front[i] == accts[i];
          IbmStepKeepsRow(mid, config, last, accts[i]);
        } else {
          IbmStepAdds(mid, config, last);
          assert accts[i] == last;
        }
      }
    }
  }

  /** Every row the pass adds belongs to an accepted summary. */
  lemma {:induction false} IbmFoldRowsSound(s: GridState, config: Configuration, accts: seq<IbmSummary>)
    requires IbmFold(s, config, accts).Success?
    ensures var t := IbmFold(s, config, accts).value;
      forall id :: id in t.cells && id !in s.cells ==>
        Accepted(s.directory, id) && exists i :: 0 <= i < |accts| && accts[i].accountId == id
    decreases |accts|
  {
    if accts != [] {
      var front, last := accts[..|accts| - 1], accts[|accts| - 1];
      IbmFoldLast(s, config, accts);
      IbmFoldFacts(s, config, front);
      IbmFoldRowsSound(s, config, front);
      var mid := IbmFold(s, config, front).value;
      IbmStepAdds(mid, config, last);
      assert mid.directory.Keys == s.directory.Keys;
      var t := IbmFold(s, config, accts).value;
      forall id | id in t.cells && id !in s.cells
        ensures Accepted(s.directory, id) && exists i :: 0 <= i < |accts| && accts[i].accountId == id
      {
        if id in mid.cells {
          var k :| 0 <= k < |front| && front[k].accountId == id;
          assert accts[k] == front[k];
        } else {
          assert Accepted(mid.directory, last.accountId) && id == last.accountId;
          assert accts[|accts| - 1] == last;
        }
      }
    }
  }

  /** An accepted summary for an account that already has a row makes the
      pass fail with `RowExists`, whether the row came from before the pass
      or from an earlier summary of the same account. */
  lemma {:induction false} IbmFoldRowExistsFails(s: GridState, config: Configuration, accts: seq<IbmSummary>, j: int)
    requires 0 <= j < |accts| && Accepted(s.directory, accts[j].accountId)
    requires accts[j].accountId in s.cells || exists i :: 0 <= i < j && accts[i].accountId == accts[j].accountId
    ensures IbmFold(s, config, accts).Failure?
    decreases |accts|
  {
    var front, last := accts[..|accts| - 1], accts[|accts| - 1];
    if j < |front| {
      assert front[j] == accts[j];
      if i :| 0 <= i < j && accts[i].accountId == accts[j].accountId {
        assert front[i] == accts[i];
      }
      IbmFoldRowExistsFails(s, config, front, j);
    } else if IbmFold(s, config, front).Success? {
      var mid := IbmFold(s, config, front).value;
      IbmFoldFacts(s, config, front);
      assert last == accts[j];
      if accts[j].accountId !in s.cells {
        var i :| 0 <= i < j && accts[i].accountId == accts[j].accountId;
        assert front[i] == accts[i];
        IbmFoldRows(s, config, front);
        assert HasIbmRow(mid, front[i]);
      }
      assert Accepted(mid.directory, last.accountId) && last.accountId in mid.cells;
      IbmStepRowExists(mid, config, last);
    }
  }

  /** A step for an accepted account that already has a row fails. */
  lemma IbmStepRowExists(s: GridState, config: Configuration, acct: IbmSummary)
    requires Accepted(s.directory, acct.accountId) && acct.accountId in s.cells
    ensures IbmStep(s, config, acct).Failure?
  {
    ScreenInFacts(s, config, "IBM Cloud", acct.accountId, acct.costCenter, acct.cloudProvider, acct.accountName);
  }

  /** The accounts the summaries name. */
  function IbmIds(accts: seq<IbmSummary>): set<string> {
    set i | 0 <= i < |accts| :: accts[i].accountId
  }

  lemma IbmIdsSnoc(accts: seq<IbmSummary>, acct: IbmSummary)
    ensures IbmIds(accts + [acct]) == IbmIds(accts) + {acct.accountId}
  {
    var all := accts + [acct];
    forall id | id in IbmIds(all) ensures id in IbmIds(accts) + {acct.accountId} {
      var i :| 0 <= i < |all| && all[i].accountId == id;
      if i < |accts| { assert accts[i] == all[i]; }
    }
    forall id | id in IbmIds(accts) ensures id in IbmIds(all) {
      var i :| 0 <= i < |accts| && accts[i].accountId == id;
      assert all[i] == accts[i];
    }
    assert all[|accts|] == acct;
  }

  /** A step marks the summary's account found, if it is in the directory, and no other. */
  lemma IbmStepFound(s: GridState, config: Configuration, acct: IbmSummary)
    requires IbmStep(s, config, acct).Success?
    ensures var t := IbmStep(s, config, acct).value;
      && t.directory.Keys == s.directory.Keys
      && forall k :: k in s.directory ==> (t.directory[k].dataFound <==> s.directory[k].dataFound || k == acct.accountId)
  {
    ScreenInFacts(s, config, "IBM Cloud", acct.accountId, acct.costCenter, acct.cloudProvider, acct.accountName);
  }

  /** A directory account is found after the pass exactly when it was found
      before or some summary names it. */
  lemma {:induction false} IbmFoldFound(s: GridState, config: Configuration, accts: seq<IbmSummary>)
    requires IbmFold(s, config, accts).Success?
    ensures var t := IbmFold(s, config, accts).value;
      && t.directory.Keys == s.directory.Keys
      && forall k :: k in s.directory ==> (t.directory[k].dataFound <==> s.directory[k].dataFound || k in IbmIds(accts))
    decreases |accts|
  {
    if accts != [] {
      var front, last := accts[..|accts| - 1], accts[|accts| - 1];
      IbmFoldLast(s, config, accts);
      IbmFoldFound(s, config, front);
      IbmStepFound(IbmFold(s, config, front).value, config, last);
      IbmIdsSnoc(front, last);
      assert accts == front + [last];
    }
  }

  /** An account with both an accepted Cloudability record and an accepted
      IBM Cloud summary makes the IBM Cloud pass fail: the Cloudability pass
      already created its row. */
  lemma CldyThenIbmConflict(s: GridState, config: Configuration, date: string, parse: string -> Option<real>,
                            recs: seq<CldyRecord>, ibmConfig: Configuration, accts: seq<IbmSummary>, i: int, j: int)
    requires CldyFold(s, config, date, parse, recs).Success?
    requires 0 <= i < |recs| && 0 <= j < |accts| && recs[i].accountId == accts[j].accountId
    requires Accepted(s.directory, recs[i].accountId)
    ensures IbmFold(CldyFold(s, config, date, parse, recs).value, ibmConfig, accts).Failure?
  {
    var t := CldyFold(s, config, date, parse, recs).value;
    CldyFoldCells(s, config, date, parse, recs);
    CldyFoldHeads(s, config, date, parse, recs);
    IbmFoldRowExistsFails(t, ibmConfig, accts, j);
  }
}
