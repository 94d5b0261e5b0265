/**
 * Reference resolution and relational load of court judgments.
 *
 * The database is abstract state: one sequence of rows per table and one
 * counter that hands out identifiers.  The name-to-id caches ("base maps")
 * are `map<string, int>` keyed by lower-cased names.  Pure functions give
 * the meaning of every step; the classes `Database` and `BaseMaps` and the
 * methods over them follow the loader's step-by-step updates and are proved
 * to agree with those functions.
 */
module Load {
  import opened Wrappers
  import opened Strings

  type NameMap = map<string, int>

  // ---------------------------------------------------------------------
  // Case records, as produced by the metadata reader merged with the
  // language-model summary.
  // ---------------------------------------------------------------------

  datatype Counsel = Counsel(counselName: string, chamberName: string)

  datatype Party = Party(partyName: string, partyRole: string, counsels: seq<Counsel>)

  /** `court_name`, `neutral_citation` and `judgment_date` may be `None`; the rest are strings. */
  datatype CaseRecord = CaseRecord(
    courtName: Option<string>,
    neutralCitation: Option<string>,
    judgmentDate: Option<string>,
    typeOfCrime: string,
    judgmentDescription: string,
    judge: string,
    parties: seq<Party>,
    ruling: string)

  // ---------------------------------------------------------------------
  // Rows and tables.
  // ---------------------------------------------------------------------

  /** A row of `role`, `court`, `chamber` or `judgment_type`, and an `(name, id)` pair returned by an insert. */
  datatype NamedRow = NamedRow(id: int, name: string)

  datatype CounselRow = CounselRow(id: int, name: string, chamberId: int)

  /** Columns in the order of the `judgment` table. */
  datatype JudgmentRow = JudgmentRow(
    neutralCitation: string,
    courtId: int,
    judgmentDate: string,
    judgmentSummary: string,
    inFavourOf: int,
    judgmentTypeId: int,
    judgeName: string)

  datatype PartyRow = PartyRow(id: int, name: string, roleId: int, neutralCitation: string)

  datatype AssignmentRow = AssignmentRow(partyId: int, counselId: int)

  datatype Tables = Tables(
    roles: seq<NamedRow>,
    courts: seq<NamedRow>,
    chambers: seq<NamedRow>,
    judgmentTypes: seq<NamedRow>,
    counsel: seq<CounselRow>,
    judgments: seq<JudgmentRow>,
    parties: seq<PartyRow>,
    assignments: seq<AssignmentRow>,
    nextId: int)

  /** Identifiers are assigned from 1 upwards, as a serial column does, and all lie below the counter. */
  ghost predicate WellFormed(t: Tables)
  {
    && t.nextId >= 1
    && (forall r | r in t.roles :: 1 <= r.id < t.nextId)
    && (forall r | r in t.courts :: 1 <= r.id < t.nextId)
    && (forall r | r in t.chambers :: 1 <= r.id < t.nextId)
    && (forall r | r in t.judgmentTypes :: 1 <= r.id < t.nextId)
    && (forall r | r in t.counsel :: 1 <= r.id < t.nextId)
    && (forall r | r in t.parties :: 1 <= r.id < t.nextId)
  }

  /** No two rows of a reference table share an id. */
  ghost predicate DistinctNamedIds(rows: seq<NamedRow>)
  {
    forall i, j | 0 <= i < j < |rows| :: rows[i].id != rows[j].id
  }

  /** Every table's ids are pairwise distinct, as a serial primary key keeps them. */
  ghost predicate DistinctIds(t: Tables)
  {
    && DistinctNamedIds(t.roles) && DistinctNamedIds(t.courts)
    && DistinctNamedIds(t.chambers) && DistinctNamedIds(t.judgmentTypes)
    && (forall i, j | 0 <= i < j < |t.counsel| :: t.counsel[i].id != t.counsel[j].id)
    && (forall i, j | 0 <= i < j < |t.parties| :: t.parties[i].id != t.parties[j].id)
  }

  /** The reference tables the base-table pass writes to. */
  datatype RefTable = RoleTable | CourtTable | ChamberTable

  /** The errors that end a load.  Connection failures are not modelled. */
  datatype LoadError =
    | AttributeError    // `.lower()` on a court name that is `None`
    | KeyError          // a party role or a chamber missing from its map
    | NoResultsToFetch  // `fetchall()` after an insert that returned no rows

  // ---------------------------------------------------------------------
  // Mapping readers.
  // ---------------------------------------------------------------------

  /** The lower-cased names of a table. */
  function NamesOf(rows: seq<NamedRow>): set<string>
  {
    set r | r in rows :: Lower(r.name)
  }

  /** No later row of `rows` has the same lower-cased name as row `i`. */
  predicate IsLastOfName(rows: seq<NamedRow>, i: int)
    requires 0 <= i < |rows|
  {
    forall j | i < j < |rows| :: Lower(rows[j].name) != Lower(rows[i].name)
  }

  /**
   * The comprehension `{x[name].lower(): x[id] for x in rows}`: keys are the
   * lower-cased names (not trimmed), every value is the id of a row with that
   * name, and when two rows share a lower-cased name the later one wins.
   */
  function NameMapOf(rows: seq<NamedRow>): (m: NameMap)
    ensures m.Keys == NamesOf(rows)
    ensures forall k | k in m :: exists r | r in rows :: Lower(r.name) == k && r.id == m[k]
    ensures forall i | 0 <= i < |rows| && IsLastOfName(rows, i) :: m[Lower(rows[i].name)] == rows[i].id
  {
    if rows == [] then map[]
    else
      var prefix := rows[..|rows| - 1];
      var last := rows[|rows| - 1];
      assert rows == prefix + [last];
      assert forall i | 0 <= i < |prefix| :: prefix[i] == rows[i];
      NameMapOf(prefix)[Lower(last.name) := last.id]
  }

  /** The `(counsel_name, counsel_id)` view of counsel rows. */
  function CounselNames(rows: seq<CounselRow>): seq<NamedRow>
  {
    seq(|rows|, i requires 0 <= i < |rows| => NamedRow(rows[i].id, rows[i].name))
  }

  /** The five caches of `get_base_maps`. */
  datatype Maps = Maps(
    roleMap: NameMap,
    chamberMap: NameMap,
    courtMap: NameMap,
    judgmentTypeMap: NameMap,
    counselMap: NameMap)

  predicate AllPositive(m: NameMap)
  {
    forall k | k in m :: m[k] >= 1
  }

  /**
   * `get_base_maps`: one map per reference table, each keyed by that table's
   * lower-cased names; on a well-formed database every id is truthy.
   */
  function ReadMaps(t: Tables): (m: Maps)
    ensures m.roleMap.Keys == NamesOf(t.roles)
    ensures m.chamberMap.Keys == NamesOf(t.chambers)
    ensures m.courtMap.Keys == NamesOf(t.courts)
    ensures m.judgmentTypeMap.Keys == NamesOf(t.judgmentTypes)
    ensures m.counselMap.Keys == NamesOf(CounselNames(t.counsel))
    ensures WellFormed(t) ==>
      && AllPositive(m.roleMap) && AllPositive(m.chamberMap) && AllPositive(m.courtMap)
      && AllPositive(m.judgmentTypeMap) && AllPositive(m.counselMap)
  {
    var counselNames := CounselNames(t.counsel);
    assert WellFormed(t) ==> forall r | r in counselNames :: r.id >= 1 by {
      if WellFormed(t) {
        forall r | r in counselNames ensures r.id >= 1 {
          var i :| 0 <= i < |counselNames| && counselNames[i] == r;
          assert t.counsel[i] in t.counsel;
        }
      }
    }
    Maps(
      NameMapOf(t.roles),
      NameMapOf(t.chambers),
      NameMapOf(t.courts),
      NameMapOf(t.judgmentTypes),
      NameMapOf(counselNames))
  }

  // ---------------------------------------------------------------------
  // The base-table pass (`seed_db_base_tables`).
  // ---------------------------------------------------------------------

  /** Lower-cased party roles of a batch; the ruling does not contribute. */
  function BatchRoles(batch: seq<CaseRecord>): set<string>
  {
    set i, j | 0 <= i < |batch| && 0 <= j < |batch[i].parties| :: Lower(batch[i].parties[j].partyRole)
  }

  /** Every court name is present, so `.lower()` can be applied to each. */
  predicate CourtsNamed(batch: seq<CaseRecord>)
  {
    forall i | 0 <= i < |batch| :: batch[i].courtName.Some?
  }

  function BatchCourts(batch: seq<CaseRecord>): set<string>
    requires CourtsNamed(batch)
  {
    set i | 0 <= i < |batch| :: Lower(batch[i].courtName.value)
  }

  function BatchChambers(batch: seq<CaseRecord>): set<string>
  {
    set i, j, k | 0 <= i < |batch| && 0 <= j < |batch[i].parties| && 0 <= k < |batch[i].parties[j].counsels|
      :: Lower(batch[i].parties[j].counsels[k].chamberName)
  }

  /** The names of a batch that the cache does not know. */
  function Missing(names: set<string>, known: NameMap): set<string>
  {
    set n | n in names && n !in known
  }

  /** `list` lists every element of `s` exactly once. */
  predicate IsEnumeration(list: seq<string>, s: set<string>)
  {
    && (forall i, j | 0 <= i < j < |list| :: list[i] != list[j])
    && (forall x | x in list :: x in s)
    && (forall x | x in s :: x in list)
  }

  /** Rows for `names`, numbered from `firstId` in list order. */
  function NewRows(names: seq<string>, firstId: int): seq<NamedRow>
  {
    seq(|names|, i requires 0 <= i < |names| => NamedRow(firstId + i, names[i]))
  }

  /** One `insert ... values %s` into a reference table. */
  function AppendNames(t: Tables, table: RefTable, names: seq<string>): Tables
  {
    var rows := NewRows(names, t.nextId);
    var next := t.nextId + |names|;
    match table
    case RoleTable => t.(roles := t.roles + rows, nextId := next)
    case CourtTable => t.(courts := t.courts + rows, nextId := next)
    case ChamberTable => t.(chambers := t.chambers + rows, nextId := next)
  }

  /**
   * The effect of a successful base-table pass that submitted `roles`,
   * `courts` and `chambers`, in that order.  Judgment types, counsel and
   * the case tables are never written.
   */
  function SeedEffect(t: Tables, roles: seq<string>, courts: seq<string>, chambers: seq<string>): (r: Tables)
    ensures r.judgmentTypes == t.judgmentTypes && r.counsel == t.counsel
    ensures r.judgments == t.judgments && r.parties == t.parties && r.assignments == t.assignments
    ensures r.roles == t.roles + NewRows(roles, t.nextId)
    ensures r.courts == t.courts + NewRows(courts, t.nextId + |roles|)
    ensures r.chambers == t.chambers + NewRows(chambers, t.nextId + |roles| + |courts|)
  {
    AppendNames(AppendNames(AppendNames(t, RoleTable, roles), CourtTable, courts), ChamberTable, chambers)
  }

  /** Appending fresh rows keeps the database well formed. */
  lemma AppendNamesWellFormed(t: Tables, table: RefTable, names: seq<string>)
    requires WellFormed(t)
    ensures WellFormed(AppendNames(t, table, names))
  {
    var rows := NewRows(names, t.nextId);
    assert forall r | r in rows :: t.nextId <= r.id < t.nextId + |names|;
  }

  /** Rows numbered from the counter onwards clash with no id below it, nor with each other. */
  lemma {:induction false} NewRowsDistinct(rows: seq<NamedRow>, names: seq<string>, next: int)
    requires DistinctNamedIds(rows) && forall r | r in rows :: r.id < next
    ensures DistinctNamedIds(rows + NewRows(names, next))
  {
    var all := rows + NewRows(names, next);
    forall i, j | 0 <= i < j < |all|
      ensures all[i].id != all[j].id
    {
      if j < |rows| {
        assert all[i] == rows[i] && all[j] == rows[j];
      } else if i < |rows| {
        assert all[i] == rows[i] && rows[i] in rows;
        assert all[j].id == next + (j - |rows|);
      } else {
        assert all[i].id == next + (i - |rows|) && all[j].id == next + (j - |rows|);
      }
    }
  }

  /** An insert into a reference table keeps every table's ids distinct. */
  lemma {:induction false} AppendNamesDistinct(t: Tables, table: RefTable, names: seq<string>)
    requires WellFormed(t) && DistinctIds(t)
    ensures DistinctIds(AppendNames(t, table, names))
  {
    match table
    case RoleTable => NewRowsDistinct(t.roles, names, t.nextId);
    case CourtTable => NewRowsDistinct(t.courts, names, t.nextId);
    case ChamberTable => NewRowsDistinct(t.chambers, names, t.nextId);
  }

  /**
   * A base-table pass keeps every id positive and below the counter, and the
   * ids of each table pairwise distinct.
   */
  lemma SeedEffectWellFormed(t: Tables, roles: seq<string>, courts: seq<string>, chambers: seq<string>)
    requires WellFormed(t)
    ensures WellFormed(SeedEffect(t, roles, courts, chambers))
    ensures DistinctIds(t) ==> DistinctIds(SeedEffect(t, roles, courts, chambers))
  {
    AppendNamesWellFormed(t, RoleTable, roles);
    var t1 := AppendNames(t, RoleTable, roles);
    AppendNamesWellFormed(t1, CourtTable, courts);
    var t2 := AppendNames(t1, CourtTable, courts);
    AppendNamesWellFormed(t2, ChamberTable, chambers);
    if DistinctIds(t) {
      AppendNamesDistinct(t, RoleTable, roles);
      AppendNamesDistinct(t1, CourtTable, courts);
      AppendNamesDistinct(t2, ChamberTable, chambers);
    }
  }

  /** Names that are already lower-cased keep their spelling as keys. */
  predicate AllLowered(s: set<string>)
  {
    forall n | n in s :: Lower(n) == n
  }

  /** Inserting already lower-cased names adds exactly those names to the table's keys. */
  lemma {:induction false} AppendedKeys(rows: seq<NamedRow>, names: seq<string>, firstId: int)
    requires forall n | n in names :: Lower(n) == n
    ensures NamesOf(rows + NewRows(names, firstId)) == NamesOf(rows) + (set n | n in names)
  {
    var added := NewRows(names, firstId);
    var all := rows + added;
    forall x | x in NamesOf(all) ensures x in NamesOf(rows) + (set n | n in names) {
      var r :| r in all && Lower(r.name) == x;
      if r !in rows {
        var i :| 0 <= i < |added| && added[i] == r;
        assert names[i] in names;
      }
    }
    forall x | x in NamesOf(rows) + (set n | n in names) ensures x in NamesOf(all) {
      if x !in NamesOf(rows) {
        var i :| 0 <= i < |names| && names[i] == x;
        assert added[i] in all;
        assert Lower(added[i].name) == x;
      }
    }
  }

  lemma BatchNamesLowered(batch: seq<CaseRecord>)
    ensures AllLowered(BatchRoles(batch))
    ensures AllLowered(BatchChambers(batch))
    ensures CourtsNamed(batch) ==> AllLowered(BatchCourts(batch))
  {
    forall s: string ensures Lower(Lower(s)) == Lower(s) {
      LowerIdempotent(s);
    }
  }

  /** Inserting the missing names of a set makes the whole set known. */
  lemma MissingAdded(rows: seq<NamedRow>, names: set<string>, list: seq<string>, firstId: int)
    requires AllLowered(names)
    requires IsEnumeration(list, Missing(names, NameMapOf(rows)))
    ensures NamesOf(rows + NewRows(list, firstId)) == NamesOf(rows) + names
  {
    AppendedKeys(rows, list, firstId);
    assert (set n | n in list) == Missing(names, NameMapOf(rows));
  }

  /** After a pass, the keys of each reference table are the old keys plus the batch's names. */
  lemma SeedAddsMissingKeys(t: Tables, batch: seq<CaseRecord>, roles: seq<string>, courts: seq<string>, chambers: seq<string>)
    requires CourtsNamed(batch)
    requires IsEnumeration(roles, Missing(BatchRoles(batch), ReadMaps(t).roleMap))
    requires IsEnumeration(courts, Missing(BatchCourts(batch), ReadMaps(t).courtMap))
    requires IsEnumeration(chambers, Missing(BatchChambers(batch), ReadMaps(t).chamberMap))
    ensures var s := SeedEffect(t, roles, courts, chambers);
      && NamesOf(s.roles) == NamesOf(t.roles) + BatchRoles(batch)
      && NamesOf(s.courts) == NamesOf(t.courts) + BatchCourts(batch)
      && NamesOf(s.chambers) == NamesOf(t.chambers) + BatchChambers(batch)
  {
    BatchNamesLowered(batch);
    var m0 := ReadMaps(t);
    assert m0.roleMap == NameMapOf(t.roles) && m0.courtMap == NameMapOf(t.courts) && m0.chamberMap == NameMapOf(t.chambers);
    MissingAdded(t.roles, BatchRoles(batch), roles, t.nextId);
    MissingAdded(t.courts, BatchCourts(batch), courts, t.nextId + |roles|);
    MissingAdded(t.chambers, BatchChambers(batch), chambers, t.nextId + |roles| + |courts|);
  }

  /**
   * Idempotence of the base-table pass: with the maps re-read after a pass,
   * the same batch has no missing role, court or chamber, so a second pass
   * submits nothing.
   */
  lemma ReseedSubmitsNothing(t: Tables, batch: seq<CaseRecord>, roles: seq<string>, courts: seq<string>, chambers: seq<string>)
    requires CourtsNamed(batch)
    requires IsEnumeration(roles, Missing(BatchRoles(batch), ReadMaps(t).roleMap))
    requires IsEnumeration(courts, Missing(BatchCourts(batch), ReadMaps(t).courtMap))
    requires IsEnumeration(chambers, Missing(BatchChambers(batch), ReadMaps(t).chamberMap))
    ensures var m := ReadMaps(SeedEffect(t, roles, courts, chambers));
      && Missing(BatchRoles(batch), m.roleMap) == {}
      && Missing(BatchCourts(batch), m.courtMap) == {}
      && Missing(BatchChambers(batch), m.chamberMap) == {}
  {
    SeedAddsMissingKeys(t, batch, roles, courts, chambers);
    var s := SeedEffect(t, roles, courts, chambers);
    var m := ReadMaps(s);
    assert m.roleMap.Keys == NamesOf(s.roles);
    assert m.courtMap.Keys == NamesOf(s.courts);
    assert m.chamberMap.Keys == NamesOf(s.chambers);
  }

  /** A submitted role is the role of some party: the ruling alone never adds a role. */
  lemma SubmittedRolesComeFromParties(batch: seq<CaseRecord>, known: NameMap, role: string)
    requires role in Missing(BatchRoles(batch), known)
    ensures role !in known
    ensures exists i, j | 0 <= i < |batch| && 0 <= j < |batch[i].parties| :: Lower(batch[i].parties[j].partyRole) == role
  {
  }

  // ---------------------------------------------------------------------
  // The per-case load (`seed_judgment_data`).
  // ---------------------------------------------------------------------

  /** Python truthiness of an optional string. */
  predicate Truthy(o: Option<string>)
  {
    o.Some? && o.value != ""
  }

  /** `m.get(k)` is truthy: the key is present and its id is not 0. */
  predicate Resolves(m: NameMap, k: string)
  {
    k in m && m[k] != 0
  }

  /**
   * The validation gate.  The ruling is lower-cased twice in the loader;
   * the second `.lower()` changes nothing (`LowerIdempotent`).
   */
  predicate Accepted(c: CaseRecord, m: Maps)
    requires c.courtName.Some?
  {
    var courtName := Lower(c.courtName.value);
    && courtName != ""
    && Truthy(c.judgmentDate)
    && Truthy(c.neutralCitation)
    && Resolves(m.courtMap, courtName)
    && Resolves(m.roleMap, Lower(c.ruling))
    && Resolves(m.judgmentTypeMap, Lower(c.typeOfCrime))
  }

  /** The judgment row of an accepted case. */
  function JudgmentRowOf(c: CaseRecord, m: Maps): JudgmentRow
    requires c.courtName.Some? && Accepted(c, m)
  {
    JudgmentRow(
      c.neutralCitation.value,
      m.courtMap[Lower(c.courtName.value)],
      c.judgmentDate.value,
      c.judgmentDescription,
      m.roleMap[Lower(c.ruling)],
      m.judgmentTypeMap[Lower(c.typeOfCrime)],
      c.judge)
  }

  datatype StagedParty = StagedParty(name: string, roleId: int, neutralCitation: string)

  datatype StagedCounsel = StagedCounsel(name: string, chamberId: int)

  datatype Staged = Staged(parties: seq<StagedParty>, counsel: seq<StagedCounsel>)

  predicate ChambersResolve(cs: seq<Counsel>, chamberMap: NameMap)
  {
    forall k | 0 <= k < |cs| :: Lower(cs[k].chamberName) in chamberMap
  }

  /** Every `role_map[...]` and `chamber_map[...]` lookup of the staging loop succeeds. */
  predicate PartiesResolve(ps: seq<Party>, m: Maps)
  {
    forall j | 0 <= j < |ps| :: Lower(ps[j].partyRole) in m.roleMap && ChambersResolve(ps[j].counsels, m.chamberMap)
  }

  /** The number of counsel entries whose lower-cased name the cache does not know. */
  function CountUnknown(cs: seq<Counsel>, counselMap: NameMap): nat
  {
    if cs == [] then 0
    else CountUnknown(cs[..|cs| - 1], counselMap) + (if Lower(cs[|cs| - 1].counselName) in counselMap then 0 else 1)
  }

  function SumUnknown(ps: seq<Party>, counselMap: NameMap): nat
  {
    if ps == [] then 0 else SumUnknown(ps[..|ps| - 1], counselMap) + CountUnknown(ps[|ps| - 1].counsels, counselMap)
  }

  /** The number of counsel entries on a list of parties. */
  function TotalCounsel(ps: seq<Party>): nat
  {
    if ps == [] then 0 else TotalCounsel(ps[..|ps| - 1]) + |ps[|ps| - 1].counsels|
  }

  predicate StagedNamed(staged: seq<StagedCounsel>, name: string)
  {
    exists s | s in staged :: s.name == name
  }

  /**
   * The counsel entries the cache does not know, front to back, each as the
   * row staged for it: its lower-cased name and the id of its lower-cased
   * chamber.
   */
  function UnknownCounsel(cs: seq<Counsel>, chamberMap: NameMap, counselMap: NameMap): seq<StagedCounsel>
    requires ChambersResolve(cs, chamberMap)
  {
    if cs == [] then []
    else
      var name := Lower(cs[0].counselName);
      assert forall k | 0 <= k < |cs[1..]| :: cs[1..][k] == cs[k + 1];
      (if name in counselMap then [] else [StagedCounsel(name, chamberMap[Lower(cs[0].chamberName)])])
        + UnknownCounsel(cs[1..], chamberMap, counselMap)
  }

  /** The unknown entries of a list with one more entry are those of the list, then that entry's. */
  lemma {:induction false} UnknownCounselSnoc(cs: seq<Counsel>, c: Counsel, chamberMap: NameMap, counselMap: NameMap)
    requires ChambersResolve(cs + [c], chamberMap)
    ensures ChambersResolve(cs, chamberMap) && ChambersResolve([c], chamberMap)
    ensures UnknownCounsel(cs + [c], chamberMap, counselMap)
         == UnknownCounsel(cs, chamberMap, counselMap) + UnknownCounsel([c], chamberMap, counselMap)
  {
    assert forall k | 0 <= k < |cs| :: (cs + [c])[k] == cs[k];
    assert (cs + [c])[|cs|] == c;
    if cs == [] {
      assert cs + [c] == [c];
    } else {
      assert (cs + [c])[1..] == cs[1..] + [c];
      assert forall k | 0 <= k < |cs[1..] + [c]| :: (cs[1..] + [c])[k] == (cs + [c])[k + 1];
      UnknownCounselSnoc(cs[1..], c, chamberMap, counselMap);
      assert (cs + [c])[0] == cs[0];
    }
  }

  /**
   * The counsel staging of one party: a row for every entry whose
   * lower-cased name is not in the cache (once per occurrence, since the
   * cache is not updated while staging), `None` for the `KeyError` of a
   * missing chamber.  The rows are the unknown entries in order, each
   * carrying its resolved chamber id.
   */
  function StageCounsels(cs: seq<Counsel>, chamberMap: NameMap, counselMap: NameMap): (r: Option<seq<StagedCounsel>>)
    ensures r.Some? <==> ChambersResolve(cs, chamberMap)
    ensures r.Some? ==> r.value == UnknownCounsel(cs, chamberMap, counselMap)
    ensures r.Some? ==> forall s | s in r.value :: s.name !in counselMap && Lower(s.name) == s.name
    ensures r.Some? ==> CounselsCovered(cs, counselMap, r.value)
    ensures r.Some? ==> |r.value| == CountUnknown(cs, counselMap)
  {
    if cs == [] then Some([])
    else
      var prefix := cs[..|cs| - 1];
      var c := cs[|cs| - 1];
      assert forall k | 0 <= k < |prefix| :: prefix[k] == cs[k];
      match StageCounsels(prefix, chamberMap, counselMap)
      case None => None
      case Some(acc) =>
        var chamberName := Lower(c.chamberName);
        var counselName := Lower(c.counselName);
        if chamberName !in chamberMap then None
        else
          var next := if counselName in counselMap then acc else acc + [StagedCounsel(counselName, chamberMap[chamberName])];
          StageCounselStep(cs, chamberMap, counselMap, acc, next);
          Some(next)
  }

  /** One more counsel entry: the staged rows of `cs` without it grow by the entry's row when the cache lacks it. */
  lemma {:induction false} StageCounselStep(cs: seq<Counsel>, chamberMap: NameMap, counselMap: NameMap,
                                            acc: seq<StagedCounsel>, next: seq<StagedCounsel>)
    requires cs != [] && ChambersResolve(cs[..|cs| - 1], chamberMap) && Lower(cs[|cs| - 1].chamberName) in chamberMap
    requires acc == UnknownCounsel(cs[..|cs| - 1], chamberMap, counselMap)
    requires forall s | s in acc :: s.name !in counselMap && Lower(s.name) == s.name
    requires CounselsCovered(cs[..|cs| - 1], counselMap, acc)
    requires |acc| == CountUnknown(cs[..|cs| - 1], counselMap)
    requires var c := cs[|cs| - 1];
      next == if Lower(c.counselName) in counselMap then acc
              else acc + [StagedCounsel(Lower(c.counselName), chamberMap[Lower(c.chamberName)])]
    ensures ChambersResolve(cs, chamberMap)
    ensures next == UnknownCounsel(cs, chamberMap, counselMap)
    ensures forall s | s in next :: s.name !in counselMap && Lower(s.name) == s.name
    ensures CounselsCovered(cs, counselMap, next)
    ensures |next| == CountUnknown(cs, counselMap)
  {
    var prefix := cs[..|cs| - 1];
    var c := cs[|cs| - 1];
    assert forall k | 0 <= k < |prefix| :: cs[k] == prefix[k];
    assert cs == prefix + [c];
    UnknownCounselSnoc(prefix, c, chamberMap, counselMap);
    StagedRowsStep(cs, chamberMap, counselMap, acc, next);
  }

  /** The names, the coverage and the count of the staged rows after one more counsel entry. */
  lemma {:induction false} StagedRowsStep(cs: seq<Counsel>, chamberMap: NameMap, counselMap: NameMap,
                                          acc: seq<StagedCounsel>, next: seq<StagedCounsel>)
    requires cs != [] && Lower(cs[|cs| - 1].chamberName) in chamberMap
    requires forall s | s in acc :: s.name !in counselMap && Lower(s.name) == s.name
    requires CounselsCovered(cs[..|cs| - 1], counselMap, acc)
    requires |acc| == CountUnknown(cs[..|cs| - 1], counselMap)
    requires var c := cs[|cs| - 1];
      next == if Lower(c.counselName) in counselMap then acc
              else acc + [StagedCounsel(Lower(c.counselName), chamberMap[Lower(c.chamberName)])]
    ensures forall s | s in next :: s.name !in counselMap && Lower(s.name) == s.name
    ensures CounselsCovered(cs, counselMap, next)
    ensures |next| == CountUnknown(cs, counselMap)
  {
    var prefix := cs[..|cs| - 1];
    var c := cs[|cs| - 1];
    LowerIdempotent(c.counselName);
    var row := StagedCounsel(Lower(c.counselName), chamberMap[Lower(c.chamberName)]);
    assert Lower(c.counselName) !in counselMap ==> row in next;
    forall k | 0 <= k < |cs| && Lower(cs[k].counselName) !in counselMap
      ensures StagedNamed(next, Lower(cs[k].counselName))
    {
      if k < |prefix| {
        assert cs[k] == prefix[k];
        var s :| s in acc && s.name == Lower(prefix[k].counselName);
        assert s in next;
      } else {
        assert row in next;
      }
    }
  }

  /** Every entry of `cs` is known to the cache or has a staged row. */
  predicate CounselsCovered(cs: seq<Counsel>, counselMap: NameMap, staged: seq<StagedCounsel>)
  {
    forall k | 0 <= k < |cs| :: Lower(cs[k].counselName) in counselMap || StagedNamed(staged, Lower(cs[k].counselName))
  }

  /** Every counsel entry of `ps` is known to the cache or has a staged row. */
  predicate CounselCovered(ps: seq<Party>, counselMap: NameMap, staged: seq<StagedCounsel>)
  {
    forall j | 0 <= j < |ps| :: CounselsCovered(ps[j].counsels, counselMap, staged)
  }

  /**
   * The staging loop: one party row per party, in order, and the counsel
   * rows of every party; `None` when a role or a chamber lookup raises.
   */
  function StageParties(ps: seq<Party>, m: Maps, citation: string): Option<Staged>
  {
    if ps == [] then Some(Staged([], []))
    else
      var p := ps[|ps| - 1];
      var prev := StageParties(ps[..|ps| - 1], m, citation);
      var role := Lower(p.partyRole);
      if prev.None? || role !in m.roleMap then None
      else match StageCounsels(p.counsels, m.chamberMap, m.counselMap)
        case None => None
        case Some(cs) =>
          Some(Staged(prev.value.parties + [StagedParty(p.partyName, m.roleMap[role], citation)], prev.value.counsel + cs))
  }

  /** The unknown counsel entries of every party, party by party. */
  function CaseUnknownCounsel(ps: seq<Party>, m: Maps): seq<StagedCounsel>
    requires PartiesResolve(ps, m)
  {
    if ps == [] then []
    else
      var prefix := ps[..|ps| - 1];
      assert forall j | 0 <= j < |prefix| :: prefix[j] == ps[j];
      CaseUnknownCounsel(prefix, m) + UnknownCounsel(ps[|ps| - 1].counsels, m.chamberMap, m.counselMap)
  }

  /**
   * Staging succeeds exactly when every role and chamber lookup does; then
   * there is one party row per party, in order, and the counsel rows are
   * the entries the cache does not know, party by party and in order, each
   * under its lower-cased name and with its resolved chamber id.
   */
  lemma StagePartiesSpec(ps: seq<Party>, m: Maps, citation: string)
    ensures var r := StageParties(ps, m, citation);
      && (r.Some? <==> PartiesResolve(ps, m))
      && (r.Some? ==> |r.value.parties| == |ps|)
      && (r.Some? ==> forall j | 0 <= j < |ps| ::
            r.value.parties[j] == StagedParty(ps[j].partyName, m.roleMap[Lower(ps[j].partyRole)], citation))
      && (r.Some? ==> r.value.counsel == CaseUnknownCounsel(ps, m))
      && (r.Some? ==> forall s | s in r.value.counsel :: s.name !in m.counselMap && Lower(s.name) == s.name)
      && (r.Some? ==> CounselCovered(ps, m.counselMap, r.value.counsel))
      && (r.Some? ==> |r.value.counsel| == SumUnknown(ps, m.counselMap))
  {
    StagedPartyRows(ps, m, citation);
    StagedCounselRows(ps, m, citation);
    StagedCounselUnknown(ps, m, citation);
  }

  /** The staged counsel rows are the unknown entries of every party, in order. */
  lemma {:induction false} StagedCounselUnknown(ps: seq<Party>, m: Maps, citation: string)
    ensures var r := StageParties(ps, m, citation);
      r.Some? ==> PartiesResolve(ps, m) && r.value.counsel == CaseUnknownCounsel(ps, m)
  {
    StagedPartyRows(ps, m, citation);
    if ps != [] && StageParties(ps, m, citation).Some? {
      var prefix := ps[..|ps| - 1];
      assert forall j | 0 <= j < |prefix| :: prefix[j] == ps[j];
      StagedCounselUnknown(prefix, m, citation);
    }
  }

  /** Staging succeeds exactly when every lookup does, with one party row per party, in order. */
  lemma {:induction false} StagedPartyRows(ps: seq<Party>, m: Maps, citation: string)
    ensures var r := StageParties(ps, m, citation);
      && (r.Some? <==> PartiesResolve(ps, m))
      && (r.Some? ==> |r.value.parties| == |ps|)
      && (r.Some? ==> forall j | 0 <= j < |ps| ::
            r.value.parties[j] == StagedParty(ps[j].partyName, m.roleMap[Lower(ps[j].partyRole)], citation))
  {
    if ps != [] {
      var prefix := ps[..|ps| - 1];
      StagedPartyRows(prefix, m, citation);
      PartiesResolveSnoc(ps, m);
      var r := StageParties(ps, m, citation);
      if r.Some? {
        var prev := StageParties(prefix, m, citation).value;
        forall j | 0 <= j < |ps|
          ensures r.value.parties[j] == StagedParty(ps[j].partyName, m.roleMap[Lower(ps[j].partyRole)], citation)
        {
          if j < |prefix| {
            assert prefix[j] == ps[j];
            assert r.value.parties[j] == prev.parties[j];
          }
        }
      }
    }
  }

  /** The lookups of a list of parties resolve exactly when those of all but the last do and the last's do. */
  lemma PartiesResolveSnoc(ps: seq<Party>, m: Maps)
    requires ps != []
    ensures var p := ps[|ps| - 1];
      (PartiesResolve(ps, m) <==>
         PartiesResolve(ps[..|ps| - 1], m) && Lower(p.partyRole) in m.roleMap && ChambersResolve(p.counsels, m.chamberMap))
  {
    var prefix := ps[..|ps| - 1];
    assert forall j | 0 <= j < |prefix| :: prefix[j] == ps[j];
  }

  /** The staged counsel rows: the unknown entries, lower-cased, covering every entry the cache lacks. */
  lemma {:induction false} StagedCounselRows(ps: seq<Party>, m: Maps, citation: string)
    ensures var r := StageParties(ps, m, citation);
      && (r.Some? ==> forall s | s in r.value.counsel :: s.name !in m.counselMap && Lower(s.name) == s.name)
      && (r.Some? ==> CounselCovered(ps, m.counselMap, r.value.counsel))
      && (r.Some? ==> |r.value.counsel| == SumUnknown(ps, m.counselMap))
  {
    if ps != [] {
      var prefix := ps[..|ps| - 1];
      var p := ps[|ps| - 1];
      StagedCounselRows(prefix, m, citation);
      var prev := StageParties(prefix, m, citation);
      var role := Lower(p.partyRole);
      if prev.Some? && role in m.roleMap {
        match StageCounsels(p.counsels, m.chamberMap, m.counselMap)
        case None =>
        case Some(cs) =>
          var counsel := prev.value.counsel + cs;
          assert StageParties(ps, m, citation).value.counsel == counsel;
          assert forall s | s in prev.value.counsel :: s in counsel;
          assert forall s | s in cs :: s in counsel;
          CounselCoveredGrows(ps, m.counselMap, prev.value.counsel, cs);
      }
    }
  }

  /** Covering the prefix and then the last party's counsel covers every party. */
  lemma CounselCoveredGrows(ps: seq<Party>, counselMap: NameMap, prev: seq<StagedCounsel>, cs: seq<StagedCounsel>)
    requires ps != []
    requires CounselCovered(ps[..|ps| - 1], counselMap, prev)
    requires CounselsCovered(ps[|ps| - 1].counsels, counselMap, cs)
    ensures CounselCovered(ps, counselMap, prev + cs)
  {
    var n := |ps| - 1;
    forall j, k | 0 <= j < |ps| && 0 <= k < |ps[j].counsels|
      ensures Lower(ps[j].counsels[k].counselName) in counselMap || StagedNamed(prev + cs, Lower(ps[j].counsels[k].counselName))
    {
      var name := Lower(ps[j].counsels[k].counselName);
      if name !in counselMap {
        var src := if j < n then prev else cs;
        if j < n {
          assert ps[..n][j] == ps[j];
        }
        var x :| x in src && x.name == name;
        assert x in prev + cs;
      }
    }
  }

  /** Party rows as inserted, numbered from `firstId`. */
  function PartyRowsFrom(staged: seq<StagedParty>, firstId: int): seq<PartyRow>
  {
    seq(|staged|, i requires 0 <= i < |staged| => PartyRow(firstId + i, staged[i].name, staged[i].roleId, staged[i].neutralCitation))
  }

  /** The `(party_name, party_id)` pairs the party insert returns. */
  function PartyReturned(staged: seq<StagedParty>, firstId: int): seq<NamedRow>
  {
    seq(|staged|, i requires 0 <= i < |staged| => NamedRow(firstId + i, staged[i].name))
  }

  function CounselRowsFrom(staged: seq<StagedCounsel>, firstId: int): seq<CounselRow>
  {
    seq(|staged|, i requires 0 <= i < |staged| => CounselRow(firstId + i, staged[i].name, staged[i].chamberId))
  }

  function InsertJudgmentRows(t: Tables, rows: seq<JudgmentRow>): Tables
  {
    t.(judgments := t.judgments + rows)
  }

  function InsertPartyRows(t: Tables, staged: seq<StagedParty>): Tables
  {
    t.(parties := t.parties + PartyRowsFrom(staged, t.nextId), nextId := t.nextId + |staged|)
  }

  function InsertCounselRows(t: Tables, staged: seq<StagedCounsel>): Tables
  {
    t.(counsel := t.counsel + CounselRowsFrom(staged, t.nextId), nextId := t.nextId + |staged|)
  }

  function InsertAssignmentRows(t: Tables, rows: seq<AssignmentRow>): Tables
  {
    t.(assignments := t.assignments + rows)
  }

  /** The party's name and each of its counsel names are in their maps. */
  predicate PartyCovered(p: Party, partyMap: NameMap, counselMap: NameMap)
  {
    && Lower(p.partyName) in partyMap
    && forall k | 0 <= k < |p.counsels| :: Lower(p.counsels[k].counselName) in counselMap
  }

  /** Every party-name and counsel-name lookup of the assignment loop succeeds. */
  predicate Covers(ps: seq<Party>, partyMap: NameMap, counselMap: NameMap)
  {
    forall j | 0 <= j < |ps| :: PartyCovered(ps[j], partyMap, counselMap)
  }

  /** One `(party_id, counsel_id)` pair per counsel entry of one party. */
  function PartyAssignments(p: Party, partyMap: NameMap, counselMap: NameMap): seq<AssignmentRow>
    requires PartyCovered(p, partyMap, counselMap)
  {
    seq(|p.counsels|, k requires 0 <= k < |p.counsels| =>
      AssignmentRow(partyMap[Lower(p.partyName)], counselMap[Lower(p.counsels[k].counselName)]))
  }

  /** The assignment loop: party by party, counsel by counsel. */
  function AssignmentRows(ps: seq<Party>, partyMap: NameMap, counselMap: NameMap): seq<AssignmentRow>
    requires Covers(ps, partyMap, counselMap)
  {
    if ps == [] then []
    else
      var prefix := ps[..|ps| - 1];
      assert forall j | 0 <= j < |prefix| :: prefix[j] == ps[j];
      AssignmentRows(prefix, partyMap, counselMap) + PartyAssignments(ps[|ps| - 1], partyMap, counselMap)
  }

  /** After the inserts, every party name and every counsel name of the case is in its map. */
  lemma StagedCovers(ps: seq<Party>, m: Maps, citation: string, st: Staged, partyId: int, counselId: int)
    requires StageParties(ps, m, citation) == Some(st)
    ensures Covers(ps, NameMapOf(PartyReturned(st.parties, partyId)), MergedCounsel(m.counselMap, st.counsel, counselId))
  {
    StagedPartyRows(ps, m, citation);
    StagedCounselRows(ps, m, citation);
    ReturnedPartiesNamed(ps, st.parties, partyId);
    MergedCounselCovers(ps, m.counselMap, st.counsel, counselId);
  }

  /** The map of the returned party rows holds every party's lower-cased name. */
  lemma ReturnedPartiesNamed(ps: seq<Party>, staged: seq<StagedParty>, firstId: int)
    requires |staged| == |ps| && forall j | 0 <= j < |ps| :: staged[j].name == ps[j].partyName
    ensures forall j | 0 <= j < |ps| :: Lower(ps[j].partyName) in NameMapOf(PartyReturned(staged, firstId))
  {
    var returned := PartyReturned(staged, firstId);
    forall j | 0 <= j < |ps| ensures Lower(ps[j].partyName) in NameMapOf(returned) {
      assert returned[j] in returned;
    }
  }

  /** After the merge, the counsel cache holds every counsel name the staging covered. */
  lemma MergedCounselCovers(ps: seq<Party>, counselMap: NameMap, staged: seq<StagedCounsel>, firstId: int)
    requires CounselCovered(ps, counselMap, staged)
    requires forall s | s in staged :: Lower(s.name) == s.name
    ensures forall j, k | 0 <= j < |ps| && 0 <= k < |ps[j].counsels| ::
      Lower(ps[j].counsels[k].counselName) in MergedCounsel(counselMap, staged, firstId)
  {
    var rows := CounselNames(CounselRowsFrom(staged, firstId));
    assert MergedCounsel(counselMap, staged, firstId) == counselMap + NameMapOf(rows);
    forall j, k | 0 <= j < |ps| && 0 <= k < |ps[j].counsels|
      ensures Lower(ps[j].counsels[k].counselName) in counselMap + NameMapOf(rows)
    {
      var n := Lower(ps[j].counsels[k].counselName);
      assert CounselsCovered(ps[j].counsels, counselMap, staged);
      if n !in counselMap {
        var x :| x in staged && x.name == n;
        var i :| 0 <= i < |staged| && staged[i] == x;
        assert rows[i] in rows;
      }
    }
  }

  /** The outcome of loading: the tables, the shared counsel cache and the error that stopped it, if any. */
  datatype Loaded = Loaded(tables: Tables, counselMap: NameMap, error: Option<LoadError>)

  /**
   * One iteration of the loader's case loop: lower-case, gate, stage, then
   * insert the judgment, the parties, the new counsel (merging their ids
   * into the counsel cache) and the assignments.
   */
  function LoadCase(t: Tables, m: Maps, c: CaseRecord): Loaded
  {
    if c.courtName.None? then Loaded(t, m.counselMap, Some(AttributeError))
    else if !Accepted(c, m) then Loaded(t, m.counselMap, None)
    else match StageParties(c.parties, m, c.neutralCitation.value)
      case None => Loaded(t, m.counselMap, Some(KeyError))
      case Some(st) => WriteCase(t, m, c, st)
  }

  /** The counsel cache after merging the ids of the counsel rows inserted from `firstId`. */
  function MergedCounsel(counselMap: NameMap, staged: seq<StagedCounsel>, firstId: int): NameMap
  {
    counselMap + NameMapOf(CounselNames(CounselRowsFrom(staged, firstId)))
  }

  /** The inserts of an accepted case whose staging succeeded. */
  function WriteCase(t: Tables, m: Maps, c: CaseRecord, st: Staged): Loaded
    requires c.courtName.Some? && Accepted(c, m)
    requires StageParties(c.parties, m, c.neutralCitation.value) == Some(st)
  {
    var t1 := InsertJudgmentRows(t, [JudgmentRowOf(c, m)]);
    if st.parties == [] then
      // the party insert ran nothing, so `fetchall()` reads the judgment insert, which returned no rows
      Loaded(t1, m.counselMap, Some(NoResultsToFetch))
    else
      var partyMap := NameMapOf(PartyReturned(st.parties, t1.nextId));
      var t2 := InsertPartyRows(t1, st.parties);
      var counselMap := MergedCounsel(m.counselMap, st.counsel, t2.nextId);
      StagedCovers(c.parties, m, c.neutralCitation.value, st, t1.nextId, t2.nextId);
      Loaded(InsertAssignmentRows(InsertCounselRows(t2, st.counsel), AssignmentRows(c.parties, partyMap, counselMap)), counselMap, None)
  }

  /** The whole case loop; the first error stops it, and what earlier cases wrote stays written. */
  function LoadBatch(t: Tables, m: Maps, batch: seq<CaseRecord>): Loaded
  {
    if batch == [] then Loaded(t, m.counselMap, None)
    else
      var prev := LoadBatch(t, m, batch[..|batch| - 1]);
      if prev.error.Some? then prev
      else LoadCase(prev.tables, m.(counselMap := prev.counselMap), batch[|batch| - 1])
  }

  // ---------------------------------------------------------------------
  // Properties of the load.
  // ---------------------------------------------------------------------

  /** There is one assignment per counsel entry. */
  lemma {:induction false} AssignmentCount(ps: seq<Party>, partyMap: NameMap, counselMap: NameMap)
    requires Covers(ps, partyMap, counselMap)
    ensures |AssignmentRows(ps, partyMap, counselMap)| == TotalCounsel(ps)
  {
    if ps != [] {
      var prefix := ps[..|ps| - 1];
      assert forall j | 0 <= j < |prefix| :: prefix[j] == ps[j];
      AssignmentCount(prefix, partyMap, counselMap);
    }
  }

  /**
   * Party-then-counsel order: the assignment for counsel `k` of party `j`
   * sits after all assignments of the earlier parties and pairs that
   * party's id with that counsel's id.
   */
  lemma {:induction false} AssignmentAt(ps: seq<Party>, partyMap: NameMap, counselMap: NameMap, j: nat, k: nat)
    requires Covers(ps, partyMap, counselMap)
    requires j < |ps| && k < |ps[j].counsels|
    ensures TotalCounsel(ps[..j]) + k < |AssignmentRows(ps, partyMap, counselMap)|
    ensures AssignmentRows(ps, partyMap, counselMap)[TotalCounsel(ps[..j]) + k]
         == AssignmentRow(partyMap[Lower(ps[j].partyName)], counselMap[Lower(ps[j].counsels[k].counselName)])
  {
    var prefix := ps[..|ps| - 1];
    assert forall i | 0 <= i < |prefix| :: prefix[i] == ps[i];
    AssignmentCount(prefix, partyMap, counselMap);
    if j == |ps| - 1 {
      assert ps[..j] == prefix;
    } else {
      assert prefix[..j] == ps[..j];
      AssignmentAt(prefix, partyMap, counselMap, j, k);
    }
  }

  /**
   * The validation gate writes all or nothing: a case with no court, one
   * that fails the gate, or one whose role or chamber lookup raises leaves
   * every table and the counsel cache as they were.
   */
  lemma RejectedCaseWritesNothing(t: Tables, m: Maps, c: CaseRecord)
    requires c.courtName.None? || !Accepted(c, m) || !PartiesResolve(c.parties, m)
    ensures LoadCase(t, m, c).tables == t
    ensures LoadCase(t, m, c).counselMap == m.counselMap
    ensures LoadCase(t, m, c).error == (
      if c.courtName.None? then Some(AttributeError)
      else if !Accepted(c, m) then None
      else Some(KeyError))
  {
    if c.courtName.Some? && Accepted(c, m) {
      StagePartiesSpec(c.parties, m, c.neutralCitation.value);
    }
  }

  /**
   * An accepted case with at least one party writes exactly one judgment
   * row, one party row per party in order, a counsel row for each unknown
   * counsel entry in order (lower-cased name, resolved chamber id, fresh
   * id after the party ids) and one assignment per counsel entry
   * (`AssignedIds` gives each one's ids); it touches no reference table.
   */
  lemma AcceptedCaseWrites(t: Tables, m: Maps, c: CaseRecord)
    requires c.courtName.Some? && Accepted(c, m) && PartiesResolve(c.parties, m) && c.parties != []
    ensures var r := LoadCase(t, m, c);
      && r.error == None
      && r.tables.judgments == t.judgments + [JudgmentRowOf(c, m)]
      && |r.tables.parties| == |t.parties| + |c.parties|
      && (forall j | 0 <= j < |c.parties| ::
            var row := r.tables.parties[|t.parties| + j];
            && row.id == t.nextId + j
            && row.name == c.parties[j].partyName
            && row.roleId == m.roleMap[Lower(c.parties[j].partyRole)]
            && row.neutralCitation == c.neutralCitation.value)
      && r.tables.counsel == t.counsel + CounselRowsFrom(CaseUnknownCounsel(c.parties, m), t.nextId + |c.parties|)
      && |r.tables.counsel| == |t.counsel| + SumUnknown(c.parties, m.counselMap)
      && |r.tables.assignments| == |t.assignments| + TotalCounsel(c.parties)
      && r.tables.roles == t.roles && r.tables.courts == t.courts
      && r.tables.chambers == t.chambers && r.tables.judgmentTypes == t.judgmentTypes
    ensures var r := LoadCase(t, m, c);
      var st := StageParties(c.parties, m, c.neutralCitation.value);
      && st.Some?
      && Covers(c.parties, NameMapOf(PartyReturned(st.value.parties, t.nextId)), r.counselMap)
      && r.tables.assignments == t.assignments + AssignmentRows(c.parties, NameMapOf(PartyReturned(st.value.parties, t.nextId)), r.counselMap)
  {
    AcceptedCaseCounts(t, m, c);
    AcceptedCaseCounsel(t, m, c);
    AcceptedCaseAssignments(t, m, c);
  }

  /** The judgment and party rows of an accepted case, and the sizes of its counsel and assignment rows. */
  lemma AcceptedCaseCounts(t: Tables, m: Maps, c: CaseRecord)
    requires c.courtName.Some? && Accepted(c, m) && PartiesResolve(c.parties, m) && c.parties != []
    ensures var r := LoadCase(t, m, c);
      && r.error == None
      && r.tables.judgments == t.judgments + [JudgmentRowOf(c, m)]
      && |r.tables.parties| == |t.parties| + |c.parties|
      && (forall j | 0 <= j < |c.parties| ::
            var row := r.tables.parties[|t.parties| + j];
            && row.id == t.nextId + j
            && row.name == c.parties[j].partyName
            && row.roleId == m.roleMap[Lower(c.parties[j].partyRole)]
            && row.neutralCitation == c.neutralCitation.value)
      && |r.tables.counsel| == |t.counsel| + SumUnknown(c.parties, m.counselMap)
      && |r.tables.assignments| == |t.assignments| + TotalCounsel(c.parties)
      && r.tables.roles == t.roles && r.tables.courts == t.courts
      && r.tables.chambers == t.chambers && r.tables.judgmentTypes == t.judgmentTypes
  {
    var cit := c.neutralCitation.value;
    StagePartiesSpec(c.parties, m, cit);
    var st := StageParties(c.parties, m, cit).value;
    assert LoadCase(t, m, c) == WriteCase(t, m, c, st);
    var t1 := InsertJudgmentRows(t, [JudgmentRowOf(c, m)]);
    var partyMap := NameMapOf(PartyReturned(st.parties, t1.nextId));
    var t2 := InsertPartyRows(t1, st.parties);
    var counselMap := MergedCounsel(m.counselMap, st.counsel, t2.nextId);
    StagedCovers(c.parties, m, cit, st, t1.nextId, t2.nextId);
    AssignmentCount(c.parties, partyMap, counselMap);
    var r := WriteCase(t, m, c, st);
    assert r.tables == InsertAssignmentRows(InsertCounselRows(t2, st.counsel), AssignmentRows(c.parties, partyMap, counselMap));
    assert r.tables.parties == t.parties + PartyRowsFrom(st.parties, t.nextId);
  }

  /** An accepted case whose lookups resolve is staged as the unknown counsel of its parties, then written. */
  lemma AcceptedCaseStaged(t: Tables, m: Maps, c: CaseRecord)
    requires c.courtName.Some? && Accepted(c, m) && PartiesResolve(c.parties, m)
    ensures var st := StageParties(c.parties, m, c.neutralCitation.value);
      && st.Some?
      && |st.value.parties| == |c.parties|
      && (forall j | 0 <= j < |c.parties| :: st.value.parties[j].name == c.parties[j].partyName)
      && st.value.counsel == CaseUnknownCounsel(c.parties, m)
      && LoadCase(t, m, c) == WriteCase(t, m, c, st.value)
  {
    StagedPartyRows(c.parties, m, c.neutralCitation.value);
    StagedCounselUnknown(c.parties, m, c.neutralCitation.value);
  }

  /** The counsel rows of an accepted case: the unknown counsel entries, numbered after the party rows. */
  lemma {:induction false} AcceptedCaseCounsel(t: Tables, m: Maps, c: CaseRecord)
    requires c.courtName.Some? && Accepted(c, m) && PartiesResolve(c.parties, m) && c.parties != []
    ensures LoadCase(t, m, c).tables.counsel == t.counsel + CounselRowsFrom(CaseUnknownCounsel(c.parties, m), t.nextId + |c.parties|)
  {
    AcceptedCaseStaged(t, m, c);
    var st := StageParties(c.parties, m, c.neutralCitation.value).value;
    WriteCaseRows(t, m, c, st);
  }

  /**
   * The assignments of an accepted case: one per counsel entry, in
   * party-then-counsel order, looking the party up among the party rows the
   * case returned and the counsel up in the merged cache.
   */
  lemma {:induction false} AcceptedCaseAssignments(t: Tables, m: Maps, c: CaseRecord)
    requires c.courtName.Some? && Accepted(c, m) && PartiesResolve(c.parties, m) && c.parties != []
    ensures var r := LoadCase(t, m, c);
      var st := StageParties(c.parties, m, c.neutralCitation.value);
      && st.Some?
      && Covers(c.parties, NameMapOf(PartyReturned(st.value.parties, t.nextId)), r.counselMap)
      && r.tables.assignments == t.assignments + AssignmentRows(c.parties, NameMapOf(PartyReturned(st.value.parties, t.nextId)), r.counselMap)
  {
    AcceptedCaseStaged(t, m, c);
    var st := StageParties(c.parties, m, c.neutralCitation.value).value;
    WriteCaseRows(t, m, c, st);
  }

  /**
   * The counsel rows and the assignments the inserts of a staged case
   * append: the assignments look the party names up among the party rows
   * numbered from `t.nextId` and the counsel names up in the merged cache.
   */
  lemma {:induction false} WriteCaseRows(t: Tables, m: Maps, c: CaseRecord, st: Staged)
    requires c.courtName.Some? && Accepted(c, m)
    requires StageParties(c.parties, m, c.neutralCitation.value) == Some(st) && |st.parties| == |c.parties| && st.parties != []
    ensures Covers(c.parties, NameMapOf(PartyReturned(st.parties, t.nextId)), WriteCase(t, m, c, st).counselMap)
    ensures WriteCase(t, m, c, st).tables.counsel == t.counsel + CounselRowsFrom(st.counsel, t.nextId + |c.parties|)
    ensures WriteCase(t, m, c, st).tables.assignments == t.assignments
      + AssignmentRows(c.parties, NameMapOf(PartyReturned(st.parties, t.nextId)), WriteCase(t, m, c, st).counselMap)
  {
    var t1 := InsertJudgmentRows(t, [JudgmentRowOf(c, m)]);
    var partyMap := NameMapOf(PartyReturned(st.parties, t1.nextId));
    var t2 := InsertPartyRows(t1, st.parties);
    var counselMap := MergedCounsel(m.counselMap, st.counsel, t2.nextId);
    StagedCovers(c.parties, m, c.neutralCitation.value, st, t1.nextId, t2.nextId);
    assert WriteCase(t, m, c, st)
        == Loaded(InsertAssignmentRows(InsertCounselRows(t2, st.counsel), AssignmentRows(c.parties, partyMap, counselMap)), counselMap, None);
  }

  /**
   * The merged counsel cache of a staged case: a name the cache knew keeps
   * its id; any other name has the id of the last counsel row the case
   * inserted under it, the counsel rows being numbered after the party rows.
   */
  lemma {:induction false} WriteCaseCounselIds(t: Tables, m: Maps, c: CaseRecord, st: Staged, name: string) returns (i: nat)
    requires c.courtName.Some? && Accepted(c, m)
    requires StageParties(c.parties, m, c.neutralCitation.value) == Some(st) && st.parties != []
    requires name in WriteCase(t, m, c, st).counselMap
    ensures name in m.counselMap ==> WriteCase(t, m, c, st).counselMap[name] == m.counselMap[name]
    ensures name !in m.counselMap ==>
      && i < |st.counsel| && st.counsel[i].name == name
      && (forall later | i < later < |st.counsel| :: st.counsel[later].name != name)
      && WriteCase(t, m, c, st).counselMap[name] == t.nextId + |st.parties| + i
  {
    StagedCounselRows(c.parties, m, c.neutralCitation.value);
    var t2 := InsertPartyRows(InsertJudgmentRows(t, [JudgmentRowOf(c, m)]), st.parties);
    assert WriteCase(t, m, c, st).counselMap == MergedCounsel(m.counselMap, st.counsel, t2.nextId);
    i := 0;
    if name in m.counselMap {
      MergeKeepsCached(m.counselMap, st.counsel, t2.nextId);
    } else {
      i := MergedCounselId(m.counselMap, st.counsel, t2.nextId, name);
    }
  }

  /** The last row of `rows` whose lower-cased name is that of row `j`. */
  lemma LastOfName(rows: seq<NamedRow>, j: nat) returns (i: nat)
    requires j < |rows|
    ensures j <= i < |rows| && Lower(rows[i].name) == Lower(rows[j].name) && IsLastOfName(rows, i)
    decreases |rows| - j
  {
    if IsLastOfName(rows, j) {
      return j;
    }
    var next :| j < next < |rows| && Lower(rows[next].name) == Lower(rows[j].name);
    i := LastOfName(rows, next);
  }

  /**
   * Assignment `k` of party `j` pairs the id of the last party row this
   * case wrote under that party's lower-cased name with the counsel's id:
   * the cached id when the cache knew the counsel's lower-cased name,
   * otherwise the id of the last counsel row this case wrote under it.
   */
  lemma {:induction false} AssignedIds(t: Tables, m: Maps, c: CaseRecord, j: nat, k: nat) returns (pi: nat, ci: nat)
    requires c.courtName.Some? && Accepted(c, m) && PartiesResolve(c.parties, m) && c.parties != []
    requires j < |c.parties| && k < |c.parties[j].counsels|
    ensures var r := LoadCase(t, m, c);
      var ps := c.parties;
      var at := |t.assignments| + TotalCounsel(ps[..j]) + k;
      && at < |r.tables.assignments|
      && j <= pi < |ps| && Lower(ps[pi].partyName) == Lower(ps[j].partyName)
      && (forall later | pi < later < |ps| :: Lower(ps[later].partyName) != Lower(ps[j].partyName))
      && r.tables.assignments[at].partyId == t.nextId + pi
    ensures var r := LoadCase(t, m, c);
      var ps := c.parties;
      var unknown := CaseUnknownCounsel(ps, m);
      var name := Lower(ps[j].counsels[k].counselName);
      var at := |t.assignments| + TotalCounsel(ps[..j]) + k;
      && at < |r.tables.assignments|
      && (name in m.counselMap ==> r.tables.assignments[at].counselId == m.counselMap[name])
      && (name !in m.counselMap ==>
            && ci < |unknown| && unknown[ci].name == name
            && (forall later | ci < later < |unknown| :: unknown[later].name != name)
            && r.tables.assignments[at].counselId == t.nextId + |ps| + ci)
  {
    AcceptedCaseStaged(t, m, c);
    var st := StageParties(c.parties, m, c.neutralCitation.value).value;
    pi, ci := WriteCaseAssignedIds(t, m, c, st, j, k);
  }

  /** `AssignedIds` for the rows written from a given staging of the case. */
  lemma {:induction false} WriteCaseAssignedIds(t: Tables, m: Maps, c: CaseRecord, st: Staged, j: nat, k: nat)
      returns (pi: nat, ci: nat)
    requires c.courtName.Some? && Accepted(c, m)
    requires StageParties(c.parties, m, c.neutralCitation.value) == Some(st) && |st.parties| == |c.parties| && st.parties != []
    requires forall j | 0 <= j < |c.parties| :: st.parties[j].name == c.parties[j].partyName
    requires j < |c.parties| && k < |c.parties[j].counsels|
    ensures var w := WriteCase(t, m, c, st);
      var ps := c.parties;
      var at := |t.assignments| + TotalCounsel(ps[..j]) + k;
      && at < |w.tables.assignments|
      && j <= pi < |ps| && Lower(ps[pi].partyName) == Lower(ps[j].partyName)
      && (forall later | pi < later < |ps| :: Lower(ps[later].partyName) != Lower(ps[j].partyName))
      && w.tables.assignments[at].partyId == t.nextId + pi
    ensures var w := WriteCase(t, m, c, st);
      var ps := c.parties;
      var name := Lower(ps[j].counsels[k].counselName);
      var at := |t.assignments| + TotalCounsel(ps[..j]) + k;
      && at < |w.tables.assignments|
      && (name in m.counselMap ==> w.tables.assignments[at].counselId == m.counselMap[name])
      && (name !in m.counselMap ==>
            && ci < |st.counsel| && st.counsel[ci].name == name
            && (forall later | ci < later < |st.counsel| :: st.counsel[later].name != name)
            && w.tables.assignments[at].counselId == t.nextId + |st.parties| + ci)
  {
    var ps := c.parties;
    var w := WriteCase(t, m, c, st);
    var partyMap := NameMapOf(PartyReturned(st.parties, t.nextId));
    WriteCaseRows(t, m, c, st);
    AssignmentAt(ps, partyMap, w.counselMap, j, k);
    var at := TotalCounsel(ps[..j]) + k;
    assert w.tables.assignments[|t.assignments| + at] == AssignmentRows(ps, partyMap, w.counselMap)[at];
    pi := ReturnedPartyId(ps, st.parties, t.nextId, j);
    assert w.tables.assignments[|t.assignments| + at].partyId == partyMap[Lower(ps[j].partyName)] == t.nextId + pi;
    var name := Lower(ps[j].counsels[k].counselName);
    ci := WriteCaseCounselIds(t, m, c, st, name);
  }

  /** The party map gives a party the id of the last returned row under the same lower-cased name. */
  lemma {:induction false} ReturnedPartyId(ps: seq<Party>, staged: seq<StagedParty>, firstId: int, j: nat) returns (i: nat)
    requires |staged| == |ps| && forall i | 0 <= i < |ps| :: staged[i].name == ps[i].partyName
    requires j < |ps|
    ensures j <= i < |ps| && Lower(ps[i].partyName) == Lower(ps[j].partyName)
    ensures forall later | i < later < |ps| :: Lower(ps[later].partyName) != Lower(ps[j].partyName)
    ensures Lower(ps[j].partyName) in NameMapOf(PartyReturned(staged, firstId))
    ensures NameMapOf(PartyReturned(staged, firstId))[Lower(ps[j].partyName)] == firstId + i
  {
    var rows := PartyReturned(staged, firstId);
    i := LastOfName(rows, j);
    assert rows[i] in rows;
    assert forall later | i < later < |ps| :: rows[later].name == ps[later].partyName;
  }

  /** After the merge, a name the cache did not know has the id of the last row inserted under that name. */
  lemma {:induction false} MergedCounselId(counselMap: NameMap, staged: seq<StagedCounsel>, firstId: int, name: string)
      returns (i: nat)
    requires forall s | s in staged :: Lower(s.name) == s.name
    requires name in MergedCounsel(counselMap, staged, firstId) && name !in counselMap
    ensures i < |staged| && staged[i].name == name
    ensures forall later | i < later < |staged| :: staged[later].name != name
    ensures MergedCounsel(counselMap, staged, firstId)[name] == firstId + i
  {
    var added := CounselNames(CounselRowsFrom(staged, firstId));
    assert MergedCounsel(counselMap, staged, firstId) == counselMap + NameMapOf(added);
    i := LastRowOfKey(added, name);
    assert added[i].name == staged[i].name;
    assert staged[i] in staged;
    forall later | i < later < |staged| ensures staged[later].name != name {
      assert staged[later] in staged;
      assert added[later].name == staged[later].name;
    }
  }

  /** A key of the name map comes from the last row carrying that lower-cased name. */
  lemma LastRowOfKey(rows: seq<NamedRow>, key: string) returns (i: nat)
    requires key in NameMapOf(rows)
    ensures i < |rows| && Lower(rows[i].name) == key && IsLastOfName(rows, i)
    ensures NameMapOf(rows)[key] == rows[i].id
  {
    var y :| y in rows && Lower(y.name) == key;
    var n :| 0 <= n < |rows| && rows[n] == y;
    i := LastOfName(rows, n);
  }

  /** Merging rows whose names the cache does not know keeps every cached id. */
  lemma MergeKeepsCached(counselMap: NameMap, staged: seq<StagedCounsel>, firstId: int)
    requires forall s | s in staged :: s.name !in counselMap && Lower(s.name) == s.name
    ensures forall k | k in counselMap :: k in MergedCounsel(counselMap, staged, firstId)
                                        && MergedCounsel(counselMap, staged, firstId)[k] == counselMap[k]
  {
    var rows := CounselNames(CounselRowsFrom(staged, firstId));
    NewCounselUncached(counselMap, staged, firstId);
    assert NameMapOf(rows).Keys == NamesOf(rows);
    assert MergedCounsel(counselMap, staged, firstId) == counselMap + NameMapOf(rows);
  }

  /** Rows inserted for names the cache does not know carry only such names. */
  lemma NewCounselUncached(counselMap: NameMap, staged: seq<StagedCounsel>, firstId: int)
    requires forall s | s in staged :: s.name !in counselMap && Lower(s.name) == s.name
    ensures forall k | k in NamesOf(CounselNames(CounselRowsFrom(staged, firstId))) :: k !in counselMap
  {
    var rows := CounselNames(CounselRowsFrom(staged, firstId));
    forall k | k in NamesOf(rows) ensures k !in counselMap {
      var r :| r in rows && Lower(r.name) == k;
      var i :| 0 <= i < |rows| && rows[i] == r;
      assert staged[i] in staged;
    }
  }

  /** The counsel cache only grows: every cached name keeps its id. */
  lemma CounselCacheGrows(t: Tables, m: Maps, c: CaseRecord)
    ensures forall k | k in m.counselMap :: k in LoadCase(t, m, c).counselMap && LoadCase(t, m, c).counselMap[k] == m.counselMap[k]
  {
    if c.courtName.Some? && Accepted(c, m) {
      StagePartiesSpec(c.parties, m, c.neutralCitation.value);
      if PartiesResolve(c.parties, m) {
        var st := StageParties(c.parties, m, c.neutralCitation.value).value;
        assert LoadCase(t, m, c) == WriteCase(t, m, c, st);
        if st.parties != [] {
          var t2 := InsertPartyRows(InsertJudgmentRows(t, [JudgmentRowOf(c, m)]), st.parties);
          MergeKeepsCached(m.counselMap, st.counsel, t2.nextId);
          assert WriteCase(t, m, c, st).counselMap == MergedCounsel(m.counselMap, st.counsel, t2.nextId);
        }
      }
    }
  }

  /** After an accepted case every one of its counsel names is cached. */
  lemma LoadedCounselCached(t: Tables, m: Maps, c: CaseRecord)
    requires c.courtName.Some? && Accepted(c, m) && PartiesResolve(c.parties, m) && c.parties != []
    ensures forall j, k | 0 <= j < |c.parties| && 0 <= k < |c.parties[j].counsels| ::
      Lower(c.parties[j].counsels[k].counselName) in LoadCase(t, m, c).counselMap
  {
    StagePartiesSpec(c.parties, m, c.neutralCitation.value);
    var st := StageParties(c.parties, m, c.neutralCitation.value).value;
    assert LoadCase(t, m, c) == WriteCase(t, m, c, st);
    var t1 := InsertJudgmentRows(t, [JudgmentRowOf(c, m)]);
    var t2 := InsertPartyRows(t1, st.parties);
    StagedCovers(c.parties, m, c.neutralCitation.value, st, t1.nextId, t2.nextId);
    assert WriteCase(t, m, c, st).counselMap == MergedCounsel(m.counselMap, st.counsel, t2.nextId);
    forall j, k | 0 <= j < |c.parties| && 0 <= k < |c.parties[j].counsels|
      ensures Lower(c.parties[j].counsels[k].counselName) in MergedCounsel(m.counselMap, st.counsel, t2.nextId)
    {
      assert PartyCovered(c.parties[j], NameMapOf(PartyReturned(st.parties, t1.nextId)), MergedCounsel(m.counselMap, st.counsel, t2.nextId));
    }
  }

  /**
   * Counsel reuse: once a case has been loaded, a later case naming one of
   * its counsel stages no new row for that name, whatever the chamber.
   */
  lemma CounselReused(t: Tables, m: Maps, first: CaseRecord, second: CaseRecord, j: nat, k: nat, citation: string)
    requires first.courtName.Some? && Accepted(first, m) && PartiesResolve(first.parties, m) && first.parties != []
    requires j < |first.parties| && k < |first.parties[j].counsels|
    ensures var after := m.(counselMap := LoadCase(t, m, first).counselMap);
      var staged := StageParties(second.parties, after, citation);
      staged.Some? ==> !StagedNamed(staged.value.counsel, Lower(first.parties[j].counsels[k].counselName))
  {
    LoadedCounselCached(t, m, first);
    StagePartiesSpec(second.parties, m.(counselMap := LoadCase(t, m, first).counselMap), citation);
  }

  /** Once the loop has stopped, the remaining cases change nothing. */
  lemma {:induction false} LoadBatchStops(t: Tables, m: Maps, batch: seq<CaseRecord>, i: nat)
    requires i <= |batch|
    requires LoadBatch(t, m, batch[..i]).error.Some?
    ensures LoadBatch(t, m, batch) == LoadBatch(t, m, batch[..i])
    decreases |batch|
  {
    if i < |batch| {
      var prefix := batch[..|batch| - 1];
      assert prefix[..i] == batch[..i];
      LoadBatchStops(t, m, prefix, i);
    } else {
      assert batch[..i] == batch;
    }
  }

  /** Across a whole batch the counsel cache only grows; the other maps are never written. */
  lemma {:induction false} BatchCounselCacheGrows(t: Tables, m: Maps, batch: seq<CaseRecord>)
    ensures forall k | k in m.counselMap :: k in LoadBatch(t, m, batch).counselMap && LoadBatch(t, m, batch).counselMap[k] == m.counselMap[k]
  {
    if batch != [] {
      var prefix := batch[..|batch| - 1];
      BatchCounselCacheGrows(t, m, prefix);
      var prev := LoadBatch(t, m, prefix);
      if prev.error.None? {
        CounselCacheGrows(prev.tables, m.(counselMap := prev.counselMap), batch[|batch| - 1]);
      }
    }
  }

  /**
   * After the base-table pass and a re-read of the maps, every court of the
   * batch resolves to a truthy id and every role and chamber lookup succeeds.
   */
  lemma SeedResolvesBatch(t: Tables, batch: seq<CaseRecord>, roles: seq<string>, courts: seq<string>, chambers: seq<string>)
    requires WellFormed(t) && CourtsNamed(batch)
    requires IsEnumeration(roles, Missing(BatchRoles(batch), ReadMaps(t).roleMap))
    requires IsEnumeration(courts, Missing(BatchCourts(batch), ReadMaps(t).courtMap))
    requires IsEnumeration(chambers, Missing(BatchChambers(batch), ReadMaps(t).chamberMap))
    ensures var m := ReadMaps(SeedEffect(t, roles, courts, chambers));
      forall i | 0 <= i < |batch| ::
        && Lower(batch[i].courtName.value) in m.courtMap
        && m.courtMap[Lower(batch[i].courtName.value)] >= 1
        && PartiesResolve(batch[i].parties, m)
  {
    SeedAddsMissingKeys(t, batch, roles, courts, chambers);
    SeedEffectWellFormed(t, roles, courts, chambers);
    var m := ReadMaps(SeedEffect(t, roles, courts, chambers));
    forall i | 0 <= i < |batch| ensures PartiesResolve(batch[i].parties, m) {
      forall j | 0 <= j < |batch[i].parties|
        ensures Lower(batch[i].parties[j].partyRole) in m.roleMap
        ensures ChambersResolve(batch[i].parties[j].counsels, m.chamberMap)
      {
        assert Lower(batch[i].parties[j].partyRole) in BatchRoles(batch);
        forall k | 0 <= k < |batch[i].parties[j].counsels|
          ensures Lower(batch[i].parties[j].counsels[k].chamberName) in m.chamberMap
        {
          assert Lower(batch[i].parties[j].counsels[k].chamberName) in BatchChambers(batch);
        }
      }
    }
    forall i | 0 <= i < |batch| ensures Lower(batch[i].courtName.value) in m.courtMap {
      assert Lower(batch[i].courtName.value) in BatchCourts(batch);
    }
  }

  /** A batch whose roles and chambers all resolve never stops on a `KeyError`. */
  lemma {:induction false} ResolvedBatchHasNoKeyError(t: Tables, m: Maps, batch: seq<CaseRecord>)
    requires forall i | 0 <= i < |batch| :: PartiesResolve(batch[i].parties, m)
    ensures LoadBatch(t, m, batch).error != Some(KeyError)
  {
    if batch != [] {
      var prefix := batch[..|batch| - 1];
      assert forall i | 0 <= i < |prefix| :: prefix[i] == batch[i];
      ResolvedBatchHasNoKeyError(t, m, prefix);
      var prev := LoadBatch(t, m, prefix);
      var c := batch[|batch| - 1];
      assert PartiesResolve(c.parties, m.(counselMap := prev.counselMap));
      if c.courtName.Some? && Accepted(c, m.(counselMap := prev.counselMap)) {
        StagePartiesSpec(c.parties, m.(counselMap := prev.counselMap), c.neutralCitation.value);
      }
    }
  }

  // ---------------------------------------------------------------------
  // The database and the caches as mutable state.
  // ---------------------------------------------------------------------

  class Database {
    var roles: seq<NamedRow>
    var courts: seq<NamedRow>
    var chambers: seq<NamedRow>
    var judgmentTypes: seq<NamedRow>
    var counsel: seq<CounselRow>
    var judgments: seq<JudgmentRow>
    var parties: seq<PartyRow>
    var assignments: seq<AssignmentRow>
    var nextId: int

    function State(): Tables
      reads this
    {
      Tables(roles, courts, chambers, judgmentTypes, counsel, judgments, parties, assignments, nextId)
    }

    ghost predicate Valid()
      reads this
    {
      WellFormed(State())
    }

    constructor (t: Tables)
      requires WellFormed(t)
      ensures Valid() && State() == t
    {
      roles, courts, chambers, judgmentTypes := t.roles, t.courts, t.chambers, t.judgmentTypes;
      counsel, judgments, parties, assignments := t.counsel, t.judgments, t.parties, t.assignments;
      nextId := t.nextId;
    }

    /** `insert into <table> (<name>) values %s returning ...`, committed; the returned ids are not fetched. */
    method InsertNames(table: RefTable, names: seq<string>)
      requires Valid()
      modifies this
      ensures Valid()
      ensures State() == AppendNames(old(State()), table, names)
    {
      AppendNamesWellFormed(State(), table, names);
      var rows := NewRows(names, nextId);
      match table {
        case RoleTable => roles := roles + rows;
        case CourtTable => courts := courts + rows;
        case ChamberTable => chambers := chambers + rows;
      }
      nextId := nextId + |names|;
    }

    /** `insert_judgment_table`. */
    method InsertJudgments(rows: seq<JudgmentRow>)
      requires Valid()
      modifies this
      ensures Valid()
      ensures State() == InsertJudgmentRows(old(State()), rows)
    {
      judgments := judgments + rows;
    }

    /**
     * `insert_party_table`: the rows get fresh ids and `(name, id)` pairs come
     * back.  With no rows nothing is executed, and `fetchall()` then reads the
     * cursor's previous statement, the judgment insert, which has no result.
     */
    method InsertParties(staged: seq<StagedParty>) returns (returned: Option<seq<NamedRow>>)
      requires Valid()
      modifies this
      ensures Valid()
      ensures staged == [] ==> returned == None && State() == old(State())
      ensures staged != [] ==> returned == Some(PartyReturned(staged, old(nextId)))
                               && State() == InsertPartyRows(old(State()), staged)
    {
      if staged == [] {
        return None;
      }
      var rows := PartyRowsFrom(staged, nextId);
      assert forall r | r in rows :: nextId <= r.id < nextId + |staged|;
      returned := Some(PartyReturned(staged, nextId));
      parties := parties + rows;
      nextId := nextId + |staged|;
    }

    /**
     * `insert_counsel_table`: with no rows nothing is executed and `fetchall()`
     * finds the party insert's result already consumed, so no pairs come back.
     */
    method InsertCounsel(staged: seq<StagedCounsel>) returns (returned: seq<NamedRow>)
      requires Valid()
      modifies this
      ensures Valid()
      ensures returned == CounselNames(CounselRowsFrom(staged, old(nextId)))
      ensures State() == InsertCounselRows(old(State()), staged)
    {
      var rows := CounselRowsFrom(staged, nextId);
      assert forall r | r in rows :: nextId <= r.id < nextId + |staged|;
      returned := CounselNames(rows);
      counsel := counsel + rows;
      nextId := nextId + |staged|;
    }

    /** `insert_counsel_assignment_table`. */
    method InsertAssignments(rows: seq<AssignmentRow>)
      requires Valid()
      modifies this
      ensures Valid()
      ensures State() == InsertAssignmentRows(old(State()), rows)
    {
      assignments := assignments + rows;
    }
  }

  /** The dictionary of caches that `get_base_maps` returns and the loader updates in place. */
  class BaseMaps {
    var roleMap: NameMap
    var chamberMap: NameMap
    var courtMap: NameMap
    var judgmentTypeMap: NameMap
    var counselMap: NameMap

    function Value(): Maps
      reads this
    {
      Maps(roleMap, chamberMap, courtMap, judgmentTypeMap, counselMap)
    }

    constructor (m: Maps)
      ensures Value() == m
    {
      roleMap, chamberMap, courtMap := m.roleMap, m.chamberMap, m.courtMap;
      judgmentTypeMap, counselMap := m.judgmentTypeMap, m.counselMap;
    }

    /** `counsel_map.update(new_counsel_map)`: new entries win, nothing is removed. */
    method UpdateCounsel(added: NameMap)
      modifies this`counselMap
      ensures counselMap == old(counselMap) + added
    {
      counselMap := counselMap + added;
    }
  }

  /** `get_base_maps`: a fresh dictionary read from the current tables. */
  method GetBaseMaps(db: Database) returns (maps: BaseMaps)
    ensures fresh(maps)
    ensures maps.Value() == ReadMaps(db.State())
  {
    maps := new BaseMaps(ReadMaps(db.State()));
  }

  /**
   * Lists a set in some order, as iterating a Python set does; each element
   * appears exactly once.
   */
  method Enumerate(s: set<string>) returns (list: seq<string>)
    ensures IsEnumeration(list, s)
  {
    list := [];
    var rest := s;
    while rest != {}
      invariant rest <= s
      invariant forall x :: x in list <==> x in s && x !in rest
      invariant forall i, j | 0 <= i < j < |list| :: list[i] != list[j]
      decreases |rest|
    {
      var x :| x in rest;
      list := list + [x];
      rest := rest - {x};
    }
  }

  /**
   * `seed_db_base_tables`: roles, then courts, then chambers, each as the
   * list of lower-cased batch names absent from the given maps.  The maps
   * are only read.  A court name that is `None` raises after the roles have
   * been committed.
   */
  method SeedDbBaseTables(batch: seq<CaseRecord>, db: Database, maps: BaseMaps)
    returns (error: Option<LoadError>, roleList: seq<string>, courtList: seq<string>, chamberList: seq<string>)
    requires db.Valid()
    modifies db
    ensures db.Valid()
    ensures IsEnumeration(roleList, Missing(BatchRoles(batch), maps.roleMap))
    ensures CourtsNamed(batch) ==> && error == None
                                   && IsEnumeration(courtList, Missing(BatchCourts(batch), maps.courtMap))
                                   && IsEnumeration(chamberList, Missing(BatchChambers(batch), maps.chamberMap))
    ensures !CourtsNamed(batch) ==> error == Some(AttributeError) && courtList == [] && chamberList == []
    ensures db.State() == SeedEffect(old(db.State()), roleList, courtList, chamberList)
  {
    roleList := Enumerate(Missing(BatchRoles(batch), maps.roleMap));
    db.InsertNames(RoleTable, roleList);
    if !CourtsNamed(batch) {
      return Some(AttributeError), roleList, [], [];
    }
    courtList := Enumerate(Missing(BatchCourts(batch), maps.courtMap));
    db.InsertNames(CourtTable, courtList);
    chamberList := Enumerate(Missing(BatchChambers(batch), maps.chamberMap));
    db.InsertNames(ChamberTable, chamberList);
    error := None;
  }

  /** The counsel loop for one party: stage each unknown counsel with its chamber's id. */
  method StagePartyCounsel(maps: BaseMaps, counsels: seq<Counsel>) returns (staged: Option<seq<StagedCounsel>>)
    ensures staged == StageCounsels(counsels, maps.chamberMap, maps.counselMap)
  {
    var rows: seq<StagedCounsel> := [];
    var k := 0;
    while k < |counsels|
      invariant 0 <= k <= |counsels|
      invariant ChambersResolve(counsels[..k], maps.chamberMap)
      invariant rows == UnknownCounsel(counsels[..k], maps.chamberMap, maps.counselMap)
    {
      var counsel := counsels[k];
      var chamberName := Lower(counsel.chamberName);
      if chamberName !in maps.chamberMap {
        assert !ChambersResolve(counsels, maps.chamberMap);
        return None;
      }
      var chamberId := maps.chamberMap[chamberName];
      var counselName := Lower(counsel.counselName);
      assert counsels[..k + 1] == counsels[..k] + [counsel];
      assert ChambersResolve(counsels[..k + 1], maps.chamberMap);
      UnknownCounselSnoc(counsels[..k], counsel, maps.chamberMap, maps.counselMap);
      if counselName !in maps.counselMap {
        rows := rows + [StagedCounsel(counselName, chamberId)];
      }
      k := k + 1;
    }
    assert counsels[..k] == counsels;
    return Some(rows);
  }

  /** The party loop of one case: a party row per party and the counsel rows of each. */
  method StageCase(maps: BaseMaps, parties: seq<Party>, citation: string) returns (staged: Option<Staged>)
    ensures staged == StageParties(parties, maps.Value(), citation)
  {
    var partyRows: seq<StagedParty> := [];
    var counselRows: seq<StagedCounsel> := [];
    var j := 0;
    while j < |parties|
      invariant 0 <= j <= |parties|
      invariant StageParties(parties[..j], maps.Value(), citation) == Some(Staged(partyRows, counselRows))
    {
      var party := parties[j];
      assert parties[..j + 1][..j] == parties[..j];
      var partyRole := Lower(party.partyRole);
      if partyRole !in maps.roleMap {
        assert !PartiesResolve(parties, maps.Value());
        StagePartiesSpec(parties, maps.Value(), citation);
        return None;
      }
      partyRows := partyRows + [StagedParty(party.partyName, maps.roleMap[partyRole], citation)];
      var partyCounsel := StagePartyCounsel(maps, party.counsels);
      if partyCounsel.None? {
        assert !PartiesResolve(parties, maps.Value());
        StagePartiesSpec(parties, maps.Value(), citation);
        return None;
      }
      counselRows := counselRows + partyCounsel.value;
      j := j + 1;
    }
    assert parties[..j] == parties;
    return Some(Staged(partyRows, counselRows));
  }

  /** The assignment loop: a `(party_id, counsel_id)` pair per counsel entry, party by party. */
  method CollectAssignments(parties: seq<Party>, partyMap: NameMap, counselMap: NameMap) returns (rows: seq<AssignmentRow>)
    requires Covers(parties, partyMap, counselMap)
    ensures rows == AssignmentRows(parties, partyMap, counselMap)
  {
    rows := [];
    var j := 0;
    while j < |parties|
      invariant 0 <= j <= |parties|
      invariant Covers(parties[..j], partyMap, counselMap)
      invariant rows == AssignmentRows(parties[..j], partyMap, counselMap)
    {
      var party := parties[j];
      assert parties[..j + 1][..j] == parties[..j];
      assert PartyCovered(party, partyMap, counselMap);
      var partyId := partyMap[Lower(party.partyName)];
      var k := 0;
      ghost var before := rows;
      ghost var all := PartyAssignments(party, partyMap, counselMap);
      while k < |party.counsels|
        invariant 0 <= k <= |party.counsels|
        invariant rows == before + all[..k]
      {
        var counselId := counselMap[Lower(party.counsels[k].counselName)];
        assert all[..k + 1] == all[..k] + [AssignmentRow(partyId, counselId)];
        rows := rows + [AssignmentRow(partyId, counselId)];
        k := k + 1;
      }
      assert all[..k] == all;
      j := j + 1;
    }
    assert parties[..j] == parties;
  }

  /** One iteration of the case loop of `seed_judgment_data`, proved equal to `LoadCase`. */
  method SeedCase(db: Database, maps: BaseMaps, c: CaseRecord) returns (error: Option<LoadError>)
    requires db.Valid()
    modifies db, maps`counselMap
    ensures db.Valid()
    ensures var r := LoadCase(old(db.State()), old(maps.Value()), c);
      db.State() == r.tables && maps.counselMap == r.counselMap && error == r.error
  {
    ghost var m := maps.Value();
    ghost var t := db.State();
    if c.courtName.None? {
      return Some(AttributeError);
    }
    if !Accepted(c, maps.Value()) {
      return None;
    }
    var citation := c.neutralCitation.value;
    var staged := StageCase(maps, c.parties, citation);
    if staged.None? {
      return Some(KeyError);
    }
    var st := staged.value;
    db.InsertJudgments([JudgmentRowOf(c, maps.Value())]);
    ghost var partyId := db.nextId;
    var returned := db.InsertParties(st.parties);
    if returned.None? {
      return Some(NoResultsToFetch);
    }
    var partyMap := NameMapOf(returned.value);
    ghost var counselId := db.nextId;
    var newCounsel := db.InsertCounsel(st.counsel);
    maps.UpdateCounsel(NameMapOf(newCounsel));
    assert maps.counselMap == MergedCounsel(m.counselMap, st.counsel, counselId);
    StagedCovers(c.parties, m, citation, st, partyId, counselId);
    var rows := CollectAssignments(c.parties, partyMap, maps.counselMap);
    db.InsertAssignments(rows);
    assert LoadCase(t, m, c) == WriteCase(t, m, c, st);
    error := None;
  }

  /**
   * `seed_judgment_data`: the case loop, stopping at the first error; the
   * counsel cache inside `maps` is updated in place and the other four maps
   * are left alone.
   */
  method SeedJudgmentData(db: Database, batch: seq<CaseRecord>, maps: BaseMaps) returns (error: Option<LoadError>)
    requires db.Valid()
    modifies db, maps`counselMap
    ensures db.Valid()
    ensures var r := LoadBatch(old(db.State()), old(maps.Value()), batch);
      db.State() == r.tables && maps.counselMap == r.counselMap && error == r.error
  {
    ghost var t0 := db.State();
    ghost var m0 := maps.Value();
    var i := 0;
    while i < |batch|
      invariant 0 <= i <= |batch|
      invariant db.Valid()
      invariant maps.Value() == m0.(counselMap := maps.counselMap)
      invariant LoadBatch(t0, m0, batch[..i]) == Loaded(db.State(), maps.counselMap, None)
    {
      assert batch[..i + 1][..i] == batch[..i];
      error := SeedCase(db, maps, batch[i]);
      if error.Some? {
        LoadBatchStops(t0, m0, batch, i + 1);
        return;
      }
      i := i + 1;
    }
    assert batch[..i] == batch;
    error := None;
  }
}
