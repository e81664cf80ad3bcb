/** The account directory (costpuller.go): the accounts file's
    provider → team → accounts hierarchy inverted into a map from canonical
    account ID to the account's metadata, and the per-record check of billing
    records against it. */
module Directory {
  import opened Wrappers
  import opened Text
  import opened Config
  import opened AccountIds
  import opened Warnings

  /** One account as the accounts file declares it. */
  datatype AccountEntry = AccountEntry(
    accountId: string,
    standardValue: real,
    deviationPercent: int,
    category: string,
    description: string)

  /** Team name → its accounts. */
  type Team = map<string, seq<AccountEntry>>

  /** Provider section name → its teams (the `cloud_providers` section). */
  type Providers = map<string, Team>

  /** What the directory knows about an account; `cloudProvider` and
      `dataFound` are updated as billing records arrive. */
  datatype AccountMetadata = AccountMetadata(
    accountId: string,
    category: string,
    cloudProvider: string,
    dataFound: bool,
    description: string,
    group: string)

  /** Canonical account ID → metadata. */
  type Directory = map<string, AccountMetadata>

  /** The provider label used for a section; "aws" is an old spelling of "Amazon". */
  function SectionLabel(section: string): string {
    if section == "aws" then "Amazon" else section
  }

  // ------------------------------------------------------ building the map

  /** One account declaration: the provider label, the team and the entry. */
  datatype Decl = Decl(provider: string, group: string, entry: AccountEntry)

  datatype DirectoryError = BadAccountId(decl: Decl, pattern: IdPattern)

  predicate Valid(d: Decl) {
    CanonicalKey(d.provider, d.entry.accountId).Success?
  }

  function KeyOf(d: Decl): string
    requires Valid(d)
  {
    CanonicalKey(d.provider, d.entry.accountId).value
  }

  /** The metadata a declaration starts with: no data found yet. */
  function NewMetadata(d: Decl): AccountMetadata {
    AccountMetadata(d.entry.accountId, d.entry.category, d.provider, false, d.entry.description, d.group)
  }

  /** Records one declaration under its key, replacing whatever was there. */
  function Place(dir: Directory, d: Decl): Result<Directory, DirectoryError> {
    match CanonicalKey(d.provider, d.entry.accountId)
    case Failure(p) => Failure(BadAccountId(d, p))
    case Success(key) => Success(dir[key := NewMetadata(d)])
  }

  /** Records the declarations in order, stopping at the first bad ID. */
  function PlaceAll(dir: Directory, ds: seq<Decl>): Result<Directory, DirectoryError>
    decreases |ds|
  {
    if ds == [] then Success(dir)
    else
      var before :- PlaceAll(dir, ds[..|ds| - 1]);
      Place(before, ds[|ds| - 1])
  }

  lemma PlaceAllSnoc(dir: Directory, ds: seq<Decl>, d: Decl)
    ensures PlaceAll(dir, ds + [d]) ==
      match PlaceAll(dir, ds)
      case Failure(e) => Failure(e)
      case Success(before) => Place(before, d)
  {
    assert (ds + [d])[..|ds|] == ds;
  }

  /** A declaration with a malformed ID makes placing fail. */
  lemma {:induction false} PlaceAllFailsAt(dir: Directory, ds: seq<Decl>, i: int)
    requires 0 <= i < |ds| && !Valid(ds[i])
    ensures PlaceAll(dir, ds).Failure?
    decreases |ds|
  {
    var front := ds[..|ds| - 1];
    if i < |ds| - 1 {
      assert front[i] == ds[i];
      PlaceAllFailsAt(dir, front, i);
    }
  }

  /** When placing fails, it names a declaration with a malformed ID. */
  lemma {:induction false} PlaceAllFailure(dir: Directory, ds: seq<Decl>) returns (i: int)
    requires PlaceAll(dir, ds).Failure?
    ensures 0 <= i < |ds| && !Valid(ds[i])
    decreases |ds|
  {
    var front := ds[..|ds| - 1];
    if PlaceAll(dir, front).Failure? {
      i := PlaceAllFailure(dir, front);
      assert front[i] == ds[i];
    } else {
      i := |ds| - 1;
    }
  }

  /** Placing fails exactly when some declaration has a malformed ID. */
  lemma PlaceAllFailsIff(dir: Directory, ds: seq<Decl>)
    ensures PlaceAll(dir, ds).Failure? <==> exists i :: 0 <= i < |ds| && !Valid(ds[i])
  {
    if PlaceAll(dir, ds).Failure? {
      var i := PlaceAllFailure(dir, ds);
    }
    if i :| 0 <= i < |ds| && !Valid(ds[i]) {
      PlaceAllFailsAt(dir, ds, i);
    }
  }

  /** Every key after placing was there before, unchanged, or is the key of a
      placed declaration and holds that declaration's metadata. */
  lemma {:induction false} PlaceAllSound(dir: Directory, ds: seq<Decl>)
    requires PlaceAll(dir, ds).Success?
    ensures var r := PlaceAll(dir, ds).value;
      forall key :: key in r ==>
        (key in dir && r[key] == dir[key]) ||
        exists i :: 0 <= i < |ds| && Valid(ds[i]) && KeyOf(ds[i]) == key && r[key] == NewMetadata(ds[i])
    decreases |ds|
  {
    if ds != [] {
      var front := ds[..|ds| - 1];
      PlaceAllSound(dir, front);
      assert forall i :: 0 <= i < |front| ==> front[i] == ds[i];
    }
  }

  /** After placing `ds` into `r`, the key of declaration i is present and
      holds the metadata of that declaration or of a later one with the same key. */
  predicate KeptFrom(ds: seq<Decl>, r: Directory, i: int)
    requires 0 <= i < |ds|
  {
    Valid(ds[i]) && KeyOf(ds[i]) in r &&
    exists j :: i <= j < |ds| && Valid(ds[j]) && KeyOf(ds[j]) == KeyOf(ds[i]) && r[KeyOf(ds[i])] == NewMetadata(ds[j])
  }

  /** Every placed declaration's key is present, and the last declaration
      with a given key wins. */
  lemma {:induction false} PlaceAllComplete(dir: Directory, ds: seq<Decl>)
    requires PlaceAll(dir, ds).Success?
    ensures forall i :: 0 <= i < |ds| ==> KeptFrom(ds, PlaceAll(dir, ds).value, i)
    decreases |ds|
  {
    if ds != [] {
      var front := ds[..|ds| - 1];
      var last := ds[|ds| - 1];
      PlaceAllComplete(dir, front);
      var before := PlaceAll(dir, front).value;
      assert Valid(last);
      var r := before[KeyOf(last) := NewMetadata(last)];
      assert PlaceAll(dir, ds) == Success(r);
      forall i | 0 <= i < |ds|
        ensures KeptFrom(ds, r, i)
      {
        if i < |front| {
          assert front[i] == ds[i];
          assert KeptFrom(front, before, i);
        }
        if i < |front| && KeyOf(ds[i]) != KeyOf(last) {
          var j :| i <= j < |front| && Valid(front[j]) && KeyOf(front[j]) == KeyOf(front[i])
            && before[KeyOf(front[i])] == NewMetadata(front[j]);
          assert front[j] == ds[j];
        } else {
          if i < |front| { assert front[i] == ds[i]; }
          assert KeyOf(ds[|ds| - 1]) == KeyOf(ds[i]);
        }
      }
    }
  }

  /** The declarations of one team's list. */
  function EntryDecls(provider: string, group: string, entries: seq<AccountEntry>): set<Decl> {
    set e | e in entries :: Decl(provider, group, e)
  }

  /** The declarations of the named teams of a provider. */
  function TeamDecls(provider: string, team: Team, groups: set<string>): set<Decl> {
    set g, e | g in groups && g in team && e in team[g] :: Decl(provider, g, e)
  }

  /** The declarations of the named provider sections. */
  function ProviderDecls(providers: Providers, sections: set<string>): set<Decl> {
    set p, g, e | p in sections && p in providers && g in providers[p] && e in providers[p][g] ::
      Decl(SectionLabel(p), g, e)
  }

  /** Every declaration in the accounts file. */
  function Declared(providers: Providers): set<Decl> {
    ProviderDecls(providers, providers.Keys)
  }

  lemma EntryDeclsSnoc(provider: string, group: string, entries: seq<AccountEntry>, i: nat)
    requires i < |entries|
    ensures EntryDecls(provider, group, entries[..i + 1]) ==
      EntryDecls(provider, group, entries[..i]) + {Decl(provider, group, entries[i])}
  {
    assert entries[..i + 1] == entries[..i] + [entries[i]];
  }

  lemma TeamDeclsAdd(provider: string, team: Team, groups: set<string>, g: string)
    requires g in team
    ensures TeamDecls(provider, team, groups + {g}) == TeamDecls(provider, team, groups) + EntryDecls(provider, g, team[g])
  {
  }

  lemma ProviderDeclsAdd(providers: Providers, sections: set<string>, p: string)
    requires p in providers
    ensures ProviderDecls(providers, sections + {p}) ==
      ProviderDecls(providers, sections) + TeamDecls(SectionLabel(p), providers[p], providers[p].Keys)
  {
  }

  /** The declarations of one team's list, in list order. */
  function EntryOrder(provider: string, group: string, entries: seq<AccountEntry>): seq<Decl> {
    seq(|entries|, i requires 0 <= i < |entries| => Decl(provider, group, entries[i]))
  }

  lemma EntryOrderSnoc(provider: string, group: string, entries: seq<AccountEntry>, i: nat)
    requires i < |entries|
    ensures EntryOrder(provider, group, entries[..i + 1]) ==
      EntryOrder(provider, group, entries[..i]) + [Decl(provider, group, entries[i])]
  {
  }

  /** The declarations of a provider's teams, team after team in the order
      `groups` names them, each team's list in list order. */
  function TeamOrder(provider: string, team: Team, groups: seq<string>): seq<Decl>
    requires InTeam(team, groups)
    decreases |groups|
  {
    if |groups| == 0 then []
    else
      var g := groups[|groups| - 1];
      TeamOrder(provider, team, groups[..|groups| - 1]) + EntryOrder(provider, g, team[g])
  }

  /** Every name in `groups` is a team of `team`. */
  predicate InTeam(team: Team, groups: seq<string>) {
    forall g :: g in groups ==> g in team
  }

  /** `groups` names every team of `team` exactly once. */
  predicate TeamVisit(team: Team, groups: seq<string>) {
    Distinct(groups) && InTeam(team, groups) && Elems(groups) == team.Keys
  }

  /** Each visited section is a provider section, with its teams each named
      once. */
  predicate SectionVisits(providers: Providers, visits: seq<(string, seq<string>)>) {
    forall k :: 0 <= k < |visits| ==> visits[k].0 in providers && TeamVisit(providers[visits[k].0], visits[k].1)
  }

  function Sections(visits: seq<(string, seq<string>)>): seq<string> {
    seq(|visits|, k requires 0 <= k < |visits| => visits[k].0)
  }

  /** The declarations of the visited sections, section after section. */
  function VisitOrder(providers: Providers, visits: seq<(string, seq<string>)>): seq<Decl>
    requires SectionVisits(providers, visits)
    decreases |visits|
  {
    if |visits| == 0 then []
    else
      var v := visits[|visits| - 1];
      assert v.1 == visits[|visits| - 1].1;
      VisitOrder(providers, visits[..|visits| - 1]) + TeamOrder(SectionLabel(v.0), providers[v.0], v.1)
  }

  /** The inner loop of `getAccountMetadata`: one team's accounts, in list order. */
  method PlaceEntries(dir: Directory, order0: seq<Decl>, provider: string, group: string, entries: seq<AccountEntry>)
    returns (r: Result<Directory, DirectoryError>, order: seq<Decl>)
    requires PlaceAll(map[], order0) == Success(dir)
    ensures r.Success? ==> PlaceAll(map[], order) == r && Elems(order) == Elems(order0) + EntryDecls(provider, group, entries)
    ensures r.Success? ==> order == order0 + EntryOrder(provider, group, entries)
    ensures r.Failure? ==> r.error.decl in EntryDecls(provider, group, entries) && !Valid(r.error.decl)
    ensures r.Failure? ==>
      && |order0| < |order| <= |order0| + |entries|
      && order == order0 + EntryOrder(provider, group, entries[..|order| - |order0|])
  {
    var cur := dir;
    order := order0;
    for i := 0 to |entries|
      invariant PlaceAll(map[], order) == Success(cur)
      invariant Elems(order) == Elems(order0) + EntryDecls(provider, group, entries[..i])
      invariant order == order0 + EntryOrder(provider, group, entries[..i])
    {
      var d := Decl(provider, group, entries[i]);
      PlaceAllSnoc(map[], order, d);
      var placed := Place(cur, d);
      EntryDeclsSnoc(provider, group, entries, i);
      EntryOrderSnoc(provider, group, entries, i);
      ElemsAppend(order, [d]);
      if placed.Failure? {
        return placed, order + [d];
      }
      cur := placed.value;
      order := order + [d];
    }
    assert entries[..|entries|] == entries;
    r := Success(cur);
  }

  /** The middle loop of `getAccountMetadata`: one provider's teams, in an
      order the model leaves open, returned as `groups`. */
  method PlaceTeam(dir: Directory, order0: seq<Decl>, provider: string, team: Team)
    returns (r: Result<Directory, DirectoryError>, order: seq<Decl>, ghost groups: seq<string>)
    requires PlaceAll(map[], order0) == Success(dir)
    ensures r.Success? ==> PlaceAll(map[], order) == r && Elems(order) == Elems(order0) + TeamDecls(provider, team, team.Keys)
    ensures r.Success? ==> TeamVisit(team, groups) && order == order0 + TeamOrder(provider, team, groups)
    ensures r.Failure? ==> r.error.decl in TeamDecls(provider, team, team.Keys) && !Valid(r.error.decl)
  {
    var cur := dir;
    order := order0;
    groups := [];
    var pending := team.Keys;
    while pending != {}
      invariant pending <= team.Keys
      invariant PlaceAll(map[], order) == Success(cur)
      invariant Elems(order) == Elems(order0) + TeamDecls(provider, team, team.Keys - pending)
      invariant TeamPlaced(provider, team, pending, order0, groups, order)
      decreases pending
    {
      var g :| g in pending;
      var placed, order1;
      TeamDeclsAdd(provider, team, team.Keys - pending, g);
      placed, order1 := PlaceEntries(cur, order, provider, g, team[g]);
      if placed.Failure? {
        return placed, order1, groups;
      }
      TeamOrderSnoc(provider, team, pending, order0, groups, order, g, order1);
      cur, order := placed.value, order1;
      assert team.Keys - (pending - {g}) == (team.Keys - pending) + {g};
      groups := groups + [g];
      pending := pending - {g};
    }
    r := Success(cur);
  }

  /** The progress of `PlaceTeam`: the teams placed so far, each named once,
      and the declarations placed so far, in their order. */
  predicate TeamPlaced(provider: string, team: Team, pending: set<string>, order0: seq<Decl>, groups: seq<string>, order: seq<Decl>) {
    && Distinct(groups) && InTeam(team, groups) && Elems(groups) == team.Keys - pending
    && order == order0 + TeamOrder(provider, team, groups)
  }

  lemma TeamOrderSnoc(provider: string, team: Team, pending: set<string>, order0: seq<Decl>, groups: seq<string>, order: seq<Decl>,
                      g: string, order1: seq<Decl>)
    requires g in pending && pending <= team.Keys
    requires TeamPlaced(provider, team, pending, order0, groups, order)
    requires order1 == order + EntryOrder(provider, g, team[g])
    ensures TeamPlaced(provider, team, pending - {g}, order0, groups + [g], order1)
  {
    ElemsAppend(groups, [g]);
    assert (groups + [g])[..|groups|] == groups;
  }

  /** `getAccountMetadata`: the directory of every declared account, or the
      first declaration found whose ID does not have its provider's shape.
      The sections and their teams are visited in an order the model leaves
      open, returned as `visits`; the declarations are placed in `order`:
      section after section, team after team, and each team's accounts in
      list order, so when two declarations share a key, the later one
      wins. */
  method LoadDirectory(providers: Providers)
    returns (r: Result<Directory, DirectoryError>, order: seq<Decl>, ghost visits: seq<(string, seq<string>)>)
    ensures r.Failure? ==> r.error.decl in Declared(providers) && !Valid(r.error.decl)
    ensures r.Success? ==> r == PlaceAll(map[], order) && Elems(order) == Declared(providers)
    ensures r.Success? ==>
      && SectionVisits(providers, visits) && Distinct(Sections(visits))
      && Elems(Sections(visits)) == providers.Keys && order == VisitOrder(providers, visits)
    ensures r.Success? ==> forall d :: d in Declared(providers) ==> Valid(d) && KeyOf(d) in r.value
    ensures r.Success? ==> forall key :: key in r.value ==>
      exists d :: d in Declared(providers) && Valid(d) && KeyOf(d) == key && r.value[key] == NewMetadata(d)
  {
    var cur: Directory := map[];
    order := [];
    visits := [];
    var pending := providers.Keys;
    while pending != {}
      invariant pending <= providers.Keys
      invariant PlaceAll(map[], order) == Success(cur)
      invariant Elems(order) == ProviderDecls(providers, providers.Keys - pending)
      invariant SectionVisits(providers, visits) && Distinct(Sections(visits))
      invariant Elems(Sections(visits)) == providers.Keys - pending
      invariant order == VisitOrder(providers, visits)
      decreases pending
    {
      var p :| p in pending;
      var provider := SectionLabel(p);
      var placed;
      ghost var groups;
      ProviderDeclsAdd(providers, providers.Keys - pending, p);
      placed, order, groups := PlaceTeam(cur, order, provider, providers[p]);
      if placed.Failure? {
        return placed, order, visits;
      }
      cur := placed.value;
      VisitOrderSnoc(providers, visits, p, groups, pending);
      assert providers.Keys - (pending - {p}) == (providers.Keys - pending) + {p};
      visits := visits + [(p, groups)];
      pending := pending - {p};
    }
    r := Success(cur);
    LoadedDirectory(order, cur);
  }

  lemma VisitOrderSnoc(providers: Providers, visits: seq<(string, seq<string>)>, p: string, groups: seq<string>, pending: set<string>)
    requires p in pending && pending <= providers.Keys
    requires SectionVisits(providers, visits) && Distinct(Sections(visits))
    requires Elems(Sections(visits)) == providers.Keys - pending
    requires TeamVisit(providers[p], groups)
    ensures SectionVisits(providers, visits + [(p, groups)]) && Distinct(Sections(visits + [(p, groups)]))
    ensures Elems(Sections(visits + [(p, groups)])) == providers.Keys - (pending - {p})
    ensures VisitOrder(providers, visits + [(p, groups)]) ==
      VisitOrder(providers, visits) + TeamOrder(SectionLabel(p), providers[p], groups)
  {
    var vs := visits + [(p, groups)];
    assert Sections(vs) == Sections(visits) + [p];
    ElemsAppend(Sections(visits), [p]);
    assert vs[..|visits|] == visits;
  }

  /** What a successful placing of every declaration in some order yields. */
  lemma LoadedDirectory(order: seq<Decl>, dir: Directory)
    requires PlaceAll(map[], order) == Success(dir)
    ensures forall d :: d in Elems(order) ==> Valid(d) && KeyOf(d) in dir
    ensures forall key :: key in dir ==>
      exists d :: d in Elems(order) && Valid(d) && KeyOf(d) == key && dir[key] == NewMetadata(d)
  {
    PlaceAllComplete(map[], order);
    PlaceAllSound(map[], order);
    forall d | d in Elems(order)
      ensures Valid(d) && KeyOf(d) in dir
    {
      var i :| 0 <= i < |order| && order[i] == d;
      assert KeptFrom(order, dir, i);
    }
    forall key | key in dir
      ensures exists d :: d in Elems(order) && Valid(d) && KeyOf(d) == key && dir[key] == NewMetadata(d)
    {
      var i :| 0 <= i < |order| && Valid(order[i]) && KeyOf(order[i]) == key && dir[key] == NewMetadata(order[i]);
      assert order[i] in Elems(order);
    }
  }

  // --------------------------------------------- accounts from AWS tags

  /** The tag naming an account's category, and the two metadata fields read
      (aws.go:17-20). */
  const CategoryTag := "costpuller_category"
  const DescriptionField := "description"
  const StatusField := "status"

  /** A map read the way Go reads a `map[string]string`: a missing key is "". */
  function Field(tags: map<string, string>, key: string): string {
    if key in tags then tags[key] else ""
  }

  /** An account that carries a category tag and is active. */
  predicate Tracked(tags: map<string, string>) {
    CategoryTag in tags && Field(tags, StatusField) == "ACTIVE"
  }

  /** The entry made for a tracked account: no standard value or deviation. */
  function TaggedEntry(id: string, tags: map<string, string>): AccountEntry
    requires CategoryTag in tags
  {
    AccountEntry(id, 0.0, 0, tags[CategoryTag], Field(tags, DescriptionField))
  }

  /** `getAccountSetsFromAws`: the tracked accounts of the organisation
      (account ID → its tags and metadata), grouped by their category tag.
      Every team holds exactly the entries of the tracked accounts of its
      category, each once. */
  method AccountSetsFromAws(metadata: map<string, map<string, string>>) returns (accounts: Team)
    ensures forall c :: c in accounts ==> |accounts[c]| > 0
    ensures forall c, e :: c in accounts && e in accounts[c] ==>
      e.accountId in metadata && Tracked(metadata[e.accountId]) &&
      metadata[e.accountId][CategoryTag] == c && e == TaggedEntry(e.accountId, metadata[e.accountId])
    ensures forall id :: id in metadata && Tracked(metadata[id]) ==>
      metadata[id][CategoryTag] in accounts && TaggedEntry(id, metadata[id]) in accounts[metadata[id][CategoryTag]]
    ensures forall c :: c in accounts ==>
      forall i, j :: 0 <= i < j < |accounts[c]| ==> accounts[c][i].accountId != accounts[c][j].accountId
  {
    accounts := map[];
    var pending := metadata.Keys;
    while pending != {}
      invariant pending <= metadata.Keys
      invariant forall c :: c in accounts ==> |accounts[c]| > 0
      invariant forall c, e :: c in accounts && e in accounts[c] ==>
        e.accountId in metadata && e.accountId !in pending && Tracked(metadata[e.accountId]) &&
        metadata[e.accountId][CategoryTag] == c && e == TaggedEntry(e.accountId, metadata[e.accountId])
      invariant forall id :: id in metadata && id !in pending && Tracked(metadata[id]) ==>
        metadata[id][CategoryTag] in accounts && TaggedEntry(id, metadata[id]) in accounts[metadata[id][CategoryTag]]
      invariant forall c :: c in accounts ==>
        forall i, j :: 0 <= i < j < |accounts[c]| ==> accounts[c][i].accountId != accounts[c][j].accountId
      decreases pending
    {
      var id :| id in pending;
      var tags := metadata[id];
      if CategoryTag in tags && Field(tags, StatusField) == "ACTIVE" {
        var category := tags[CategoryTag];
        var team := if category in accounts then accounts[category] else [];
        var entry := TaggedEntry(id, tags);
        assert forall e :: e in team ==> e.accountId != id;
        accounts := accounts[category := team + [entry]];
      }
      pending := pending - {id};
    }
  }
}
