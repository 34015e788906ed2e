/** `buildCompanies`: the per-organisation model lists are folded into one
 *  record per company. Several hub organisations may belong to one company
 *  (they share the company name), and organisations the mapping table does
 *  not know are skipped. */
module Companies {
  import opened Base
  import opened OrderedDict
  import opened StableSort
  import opened Records

  const DEFAULT_COLOR := "#00d9ff"

  /** `COMPANY_COLORS[name] || '#00d9ff'`: an empty colour counts as none. */
  function ColorOf(name: string, colors: map<string, string>): string {
    if name in colors && colors[name] != "" then colors[name] else DEFAULT_COLOR
  }

  /** The record created the first time a company is met: its fixed facts
   *  from the mapping table and every count at zero. */
  function NewCompany(info: CompanyInfo, colors: map<string, string>): Company {
    Company(info.id, info.name, info.hq, info.lat, info.lng, ColorOf(info.name, colors),
            0, info.founded, 0, 0)
  }

  /** A company's fixed facts, its counts set to zero. */
  function Identity(c: Company): Company {
    c.(modelsCount := 0, totalDownloads := 0, totalLikes := 0)
  }

  function AddModel(c: Company, m: Model): Company {
    c.(totalDownloads := c.totalDownloads + m.downloads, totalLikes := c.totalLikes + m.likes)
  }

  /** The inner loop: each model's downloads and likes added in turn. */
  function AddModels(c: Company, models: seq<Model>): Company {
    if models == [] then c else AddModel(AddModels(c, models[..|models| - 1]), models[|models| - 1])
  }

  function Downloads(m: Model): int {
    m.downloads
  }

  function Likes(m: Model): int {
    m.likes
  }

  /** The inner loop adds exactly the sums of downloads and likes and
   *  touches nothing else. */
  lemma {:induction false} AddModelsSums(c: Company, models: seq<Model>)
    ensures AddModels(c, models).totalDownloads == c.totalDownloads + Sum(models, Downloads)
    ensures AddModels(c, models).totalLikes == c.totalLikes + Sum(models, Likes)
    ensures AddModels(c, models).modelsCount == c.modelsCount
    ensures Identity(AddModels(c, models)) == Identity(c)
  {
    if models != [] {
      AddModelsSums(c, models[..|models| - 1]);
    }
  }

  type Entry = (string, seq<Model>)

  /** One pass of the outer loop. */
  function AddOrg(table: Dict<Company>, e: Entry, orgToCompany: map<string, CompanyInfo>,
                  colors: map<string, string>): (r: Dict<Company>)
    requires table.Valid()
    ensures r.Valid()
  {
    if e.0 !in orgToCompany then table
    else
      var info := orgToCompany[e.0];
      var c := if info.name in table.values then table.values[info.name] else NewCompany(info, colors);
      Put(table, info.name, AddModels(c.(modelsCount := c.modelsCount + |e.1|), e.1))
  }

  /** `companyMap` after the outer loop has seen `entries`. */
  function CompanyTable(entries: seq<Entry>, orgToCompany: map<string, CompanyInfo>,
                        colors: map<string, string>): (t: Dict<Company>)
    ensures t.Valid()
  {
    if entries == [] then Empty()
    else AddOrg(CompanyTable(entries[..|entries| - 1], orgToCompany, colors), entries[|entries| - 1], orgToCompany, colors)
  }

  /** The organisation of an entry belongs to the company called `name`. */
  function OfCompany(name: string, orgToCompany: map<string, CompanyInfo>): Entry -> bool {
    (e: Entry) => e.0 in orgToCompany && orgToCompany[e.0].name == name
  }

  function EntrySize(e: Entry): int {
    |e.1|
  }

  function EntryDownloads(e: Entry): int {
    Sum(e.1, Downloads)
  }

  function EntryLikes(e: Entry): int {
    Sum(e.1, Likes)
  }

  function ByTotalDownloads(): Company -> Rank {
    (c: Company) => Ranked(c.totalDownloads as real)
  }

  /** The inner loop of `buildCompanies`: each model's downloads and likes
   *  added to the company's totals. */
  method Tally(c0: Company, models: seq<Model>) returns (c: Company)
    ensures c == AddModels(c0, models)
  {
    c := c0;
    for j := 0 to |models|
      invariant c == AddModels(c0, models[..j])
    {
      assert models[..j + 1][..j] == models[..j];
      c := AddModel(c, models[j]);
    }
    assert models[..|models|] == models;
  }

  /** One pass of the outer loop of `buildCompanies`: the entry's
   *  organisation, if it maps to a company, adds its models to that
   *  company's record, created on first sight. */
  method FileOrg(table: Dict<Company>, e: Entry, orgToCompany: map<string, CompanyInfo>,
                 colors: map<string, string>) returns (next: Dict<Company>)
    requires table.Valid()
    ensures next == AddOrg(table, e, orgToCompany, colors)
  {
    next := table;
    var org, models := e.0, e.1;
    if org in orgToCompany {
      var info := orgToCompany[org];
      var c := if info.name in table.values then table.values[info.name] else NewCompany(info, colors);
      var counted := c.(modelsCount := c.modelsCount + |models|);
      AddOrgKnown(table, e, orgToCompany, colors, counted);
      c := Tally(counted, models);
      next := Put(table, info.name, c);
    }
  }

  lemma AddOrgKnown(table: Dict<Company>, e: Entry, orgToCompany: map<string, CompanyInfo>,
                    colors: map<string, string>, counted: Company)
    requires table.Valid() && e.0 in orgToCompany
    requires var name := orgToCompany[e.0].name;
             var c := if name in table.values then table.values[name] else NewCompany(orgToCompany[e.0], colors);
             counted == c.(modelsCount := c.modelsCount + |e.1|)
    ensures AddOrg(table, e, orgToCompany, colors) == Put(table, orgToCompany[e.0].name, AddModels(counted, e.1))
  {
  }

  /** `buildCompanies`: fill `companyMap` entry by entry, then order its
   *  values by total downloads, most first, ties in insertion order. */
  method BuildCompanies(modelsByOrg: Dict<seq<Model>>, orgToCompany: map<string, CompanyInfo>,
                        colors: map<string, string>) returns (companies: seq<Company>)
    requires modelsByOrg.Valid()
    ensures companies == Sort(Values(CompanyTable(Entries(modelsByOrg), orgToCompany, colors)), ByTotalDownloads())
  {
    var entries := Entries(modelsByOrg);
    var table: Dict<Company> := Empty();
    for i := 0 to |entries|
      invariant table == CompanyTable(entries[..i], orgToCompany, colors)
    {
      CompanyTableSnoc(entries, i, orgToCompany, colors);
      table := FileOrg(table, entries[i], orgToCompany, colors);
    }
    assert entries[..|entries|] == entries;
    companies := SortedCopy(Values(table), ByTotalDownloads());
  }

  lemma CompanyTableSnoc(entries: seq<Entry>, i: nat, orgToCompany: map<string, CompanyInfo>, colors: map<string, string>)
    requires i < |entries|
    ensures CompanyTable(entries[..i + 1], orgToCompany, colors)
         == AddOrg(CompanyTable(entries[..i], orgToCompany, colors), entries[i], orgToCompany, colors)
  {
    assert entries[..i + 1][..i] == entries[..i];
  }

  /** An entry of another company leaves this company's record alone. */
  lemma AddOrgOther(before: Dict<Company>, e: Entry, orgToCompany: map<string, CompanyInfo>,
                    colors: map<string, string>, name: string)
    requires before.Valid() && !OfCompany(name, orgToCompany)(e)
    ensures var after := AddOrg(before, e, orgToCompany, colors);
            (name in after.values <==> name in before.values)
            && (name in before.values ==> after.values[name] == before.values[name])
  {
  }

  /** An entry of this company creates its record if needed and adds the
   *  entry's count and totals to it. */
  lemma AddOrgSame(before: Dict<Company>, e: Entry, orgToCompany: map<string, CompanyInfo>,
                   colors: map<string, string>, name: string)
    requires before.Valid() && OfCompany(name, orgToCompany)(e)
    ensures var after := AddOrg(before, e, orgToCompany, colors);
            var c1 := if name in before.values then before.values[name] else NewCompany(orgToCompany[e.0], colors);
            && name in after.values
            && after.values[name].modelsCount == c1.modelsCount + |e.1|
            && after.values[name].totalDownloads == c1.totalDownloads + EntryDownloads(e)
            && after.values[name].totalLikes == c1.totalLikes + EntryLikes(e)
            && Identity(after.values[name]) == Identity(c1)
  {
    var c1 := if name in before.values then before.values[name] else NewCompany(orgToCompany[e.0], colors);
    AddModelsSums(c1.(modelsCount := c1.modelsCount + |e.1|), e.1);
  }

  /** A company is in the table exactly when some entry's organisation maps
   *  to it, and it is filed under its own name. */
  lemma {:induction false} CompanyTableNames(entries: seq<Entry>, orgToCompany: map<string, CompanyInfo>,
                                             colors: map<string, string>, name: string)
    ensures var t := CompanyTable(entries, orgToCompany, colors);
            (name in t.values <==> Filter(entries, OfCompany(name, orgToCompany)) != [])
            && (name in t.values ==> t.values[name].name == name)
  {
    if entries != [] {
      var init, e := entries[..|entries| - 1], entries[|entries| - 1];
      var before := CompanyTable(init, orgToCompany, colors);
      assert entries == init + [e];
      FilterSnoc(init, e, OfCompany(name, orgToCompany));
      CompanyTableNames(init, orgToCompany, colors, name);
      if OfCompany(name, orgToCompany)(e) {
        AddOrgSame(before, e, orgToCompany, colors, name);
      } else {
        AddOrgOther(before, e, orgToCompany, colors, name);
      }
    }
  }

  /** `c` is what the entries in `mine` add up to: its model count,
   *  downloads and likes are their sums, and its fixed facts are those of
   *  the first one's organisation. */
  predicate Tallied(c: Company, mine: seq<Entry>, orgToCompany: map<string, CompanyInfo>, colors: map<string, string>) {
    && mine != []
    && mine[0].0 in orgToCompany
    && c.modelsCount == Sum(mine, EntrySize)
    && c.totalDownloads == Sum(mine, EntryDownloads)
    && c.totalLikes == Sum(mine, EntryLikes)
    && Identity(c) == NewCompany(orgToCompany[mine[0].0], colors)
  }

  lemma TalliedFirst(c: Company, e: Entry, orgToCompany: map<string, CompanyInfo>, colors: map<string, string>)
    requires e.0 in orgToCompany
    requires c.modelsCount == |e.1| && c.totalDownloads == EntryDownloads(e) && c.totalLikes == EntryLikes(e)
    requires Identity(c) == NewCompany(orgToCompany[e.0], colors)
    ensures Tallied(c, [e], orgToCompany, colors)
  {
    SumSnoc([], e, EntrySize);
    SumSnoc([], e, EntryDownloads);
    SumSnoc([], e, EntryLikes);
    assert [] + [e] == [e];
  }

  lemma TalliedSnoc(c: Company, mine: seq<Entry>, e: Entry, next: Company,
                    orgToCompany: map<string, CompanyInfo>, colors: map<string, string>)
    requires Tallied(c, mine, orgToCompany, colors)
    requires next.modelsCount == c.modelsCount + |e.1|
    requires next.totalDownloads == c.totalDownloads + EntryDownloads(e)
    requires next.totalLikes == c.totalLikes + EntryLikes(e)
    requires Identity(next) == Identity(c)
    ensures Tallied(next, mine + [e], orgToCompany, colors)
  {
    SumSnoc(mine, e, EntrySize);
    SumSnoc(mine, e, EntryDownloads);
    SumSnoc(mine, e, EntryLikes);
    assert (mine + [e])[0] == mine[0];
  }

  /** Merged organisations add up: a company's record is the tally of the
   *  entries of every organisation mapped to it. */
  lemma {:induction false} CompanyTableTotals(entries: seq<Entry>, orgToCompany: map<string, CompanyInfo>,
                                              colors: map<string, string>, name: string)
    requires name in CompanyTable(entries, orgToCompany, colors).values
    ensures Tallied(CompanyTable(entries, orgToCompany, colors).values[name],
                    Filter(entries, OfCompany(name, orgToCompany)), orgToCompany, colors)
  {
    if entries == [] {
      assert false;
    }
    var init, e := entries[..|entries| - 1], entries[|entries| - 1];
    var p := OfCompany(name, orgToCompany);
    var before := CompanyTable(init, orgToCompany, colors);
    var after := CompanyTable(entries, orgToCompany, colors);
    assert after == AddOrg(before, e, orgToCompany, colors);
    assert entries == init + [e];
    FilterSnoc(init, e, p);
    if p(e) {
      AddOrgSame(before, e, orgToCompany, colors, name);
      if name in before.values {
        CompanyTableTotals(init, orgToCompany, colors, name);
        TalliedSnoc(before.values[name], Filter(init, p), e, after.values[name], orgToCompany, colors);
      } else {
        CompanyTableNames(init, orgToCompany, colors, name);
        TalliedFirst(after.values[name], e, orgToCompany, colors);
        assert Filter(entries, p) == [e];
      }
    } else {
      AddOrgOther(before, e, orgToCompany, colors, name);
      CompanyTableTotals(init, orgToCompany, colors, name);
      assert Filter(entries, p) == Filter(init, p);
    }
  }

  /** The order of `buildCompanies`' result: total downloads never grow
   *  along it. */
  lemma CompaniesOrdered(vs: seq<Company>)
    ensures var cs := Sort(vs, ByTotalDownloads());
            forall i, j :: 0 <= i < j < |cs| ==> cs[i].totalDownloads >= cs[j].totalDownloads
  {
    var cs := Sort(vs, ByTotalDownloads());
    SortSorted(vs, ByTotalDownloads());
    forall i, j | 0 <= i < j < |cs| ensures cs[i].totalDownloads >= cs[j].totalDownloads {
      assert !Less(ByTotalDownloads()(cs[i]), ByTotalDownloads()(cs[j]));
    }
  }

  /** Every record `buildCompanies` returns is the tally of its company's
   *  entries. */
  lemma CompaniesTallied(entries: seq<Entry>, orgToCompany: map<string, CompanyInfo>, colors: map<string, string>)
    ensures var cs := Sort(Values(CompanyTable(entries, orgToCompany, colors)), ByTotalDownloads());
            forall c :: c in cs ==> Tallied(c, Filter(entries, OfCompany(c.name, orgToCompany)), orgToCompany, colors)
  {
    var t := CompanyTable(entries, orgToCompany, colors);
    var vs := Values(t);
    SortMembers(vs, ByTotalDownloads());
    forall c | c in Sort(vs, ByTotalDownloads())
      ensures Tallied(c, Filter(entries, OfCompany(c.name, orgToCompany)), orgToCompany, colors)
    {
      var i :| 0 <= i < |vs| && vs[i] == c;
      var k := t.keys[i];
      CompanyTableNames(entries, orgToCompany, colors, k);
      CompanyTableTotals(entries, orgToCompany, colors, k);
    }
  }

  /** `buildCompanies` returns one record per company that some mapped
   *  organisation belongs to, and none for unmapped organisations. */
  lemma CompaniesNamed(entries: seq<Entry>, orgToCompany: map<string, CompanyInfo>, colors: map<string, string>, name: string)
    ensures var t := CompanyTable(entries, orgToCompany, colors);
            var cs := Sort(Values(t), ByTotalDownloads());
            && |cs| == |t.keys| && NoDups(t.keys)
            && ((exists c :: c in cs && c.name == name) <==> Filter(entries, OfCompany(name, orgToCompany)) != [])
  {
    var t := CompanyTable(entries, orgToCompany, colors);
    var vs := Values(t);
    var cs := Sort(vs, ByTotalDownloads());
    SortMembers(vs, ByTotalDownloads());
    CompanyTableNames(entries, orgToCompany, colors, name);
    if exists c :: c in cs && c.name == name {
      var c :| c in cs && c.name == name;
      var i :| 0 <= i < |vs| && vs[i] == c;
      CompanyTableNames(entries, orgToCompany, colors, t.keys[i]);
    }
    if name in t.values {
      var i :| 0 <= i < |t.keys| && t.keys[i] == name;
      assert vs[i] in cs;
    }
  }
}
