/**
 * The relational store the title service writes to: the `title` table, five
 * name-keyed dictionary tables, three plain join tables, the people join
 * table (with a role) and the rating table (with a value), plus the id
 * sequence. Queries are functions on table contents; inserts are methods of
 * `Store`.
 */
module TitleStore {
  import opened Wrappers
  import opened TitleFields

  /** The name-keyed dictionary tables (`genre`, `language`, `country`, `people`, `titleRatingSource`). */
  datatype Dictionary = Genre | Language | Country | People | RatingSource

  /** The join tables whose rows carry only the two ids. */
  datatype JoinTable = TitleGenre | TitleLanguage | TitleCountry

  const AllDictionaries: set<Dictionary> := {Genre, Language, Country, People, RatingSource}
  const AllJoinTables: set<JoinTable> := {TitleGenre, TitleLanguage, TitleCountry}

  /** The dictionary a join table points into (its foreign-key field). */
  function TargetOf(j: JoinTable): Dictionary {
    match j
    case TitleGenre => Genre
    case TitleLanguage => Language
    case TitleCountry => Country
  }

  lemma EveryTable()
    ensures forall d: Dictionary :: d in AllDictionaries
    ensures forall j: JoinTable :: j in AllJoinTables
  {
    forall d: Dictionary ensures d in AllDictionaries {
      match d
      case Genre =>
      case Language =>
      case Country =>
      case People =>
      case RatingSource =>
    }
    forall j: JoinTable ensures j in AllJoinTables {
      match j
      case TitleGenre =>
      case TitleLanguage =>
      case TitleCountry =>
    }
  }

  function TableName(d: Dictionary): string {
    match d
    case Genre => "genre"
    case Language => "language"
    case Country => "country"
    case People => "people"
    case RatingSource => "titleRatingSource"
  }

  datatype Row = Row(id: nat, name: string)
  datatype Link = Link(titleId: nat, entityId: nat)
  datatype Role = Actor | Writer | Director
  datatype PersonLink = PersonLink(titleId: nat, peopleId: nat, role: Role)
  datatype RatingRow = RatingRow(sourceId: nat, titleId: nat, value: string)
  datatype TitleRow = TitleRow(id: nat, data: TitleData)

  /** The contents of every table at one moment. */
  datatype Tables = Tables(
    titles: seq<TitleRow>,
    dictionaries: map<Dictionary, seq<Row>>,
    joins: map<JoinTable, seq<Link>>,
    titlePeople: seq<PersonLink>,
    titleRatings: seq<RatingRow>)

  // ------------------------------------------------------------- predicates

  predicate Distinct<T(==)>(s: seq<T>) {
    forall i, j :: 0 <= i < j < |s| ==> s[i] != s[j]
  }

  function NamesOf(rows: seq<Row>): set<string> {
    set r | r in rows :: r.name
  }

  function RowIds(rows: seq<Row>): set<nat> {
    set r | r in rows :: r.id
  }

  function TitleIds(titles: seq<TitleRow>): set<nat> {
    set t | t in titles :: t.id
  }

  /** A dictionary table: names are unique, ids increase in insertion order and stay below the sequence. */
  ghost predicate WellFormed(rows: seq<Row>, bound: nat) {
    && (forall i, j :: 0 <= i < j < |rows| ==> rows[i].name != rows[j].name && rows[i].id < rows[j].id)
    && (forall i :: 0 <= i < |rows| ==> rows[i].id < bound)
  }

  /** The title table: ids increase and stay below the sequence, and `imdb_id` is unique. */
  ghost predicate TitlesWellFormed(titles: seq<TitleRow>, bound: nat) {
    && (forall i, j :: 0 <= i < j < |titles| ==>
          titles[i].id < titles[j].id
          && (titles[i].data.imdbId.Some? ==> titles[i].data.imdbId != titles[j].data.imdbId))
    && (forall i :: 0 <= i < |titles| ==> titles[i].id < bound)
  }

  /** Whether a title with this `imdb_id` is already stored (the unique index rejects a second). */
  predicate ImdbTaken(titles: seq<TitleRow>, imdbId: Option<string>) {
    imdbId.Some? && exists t :: t in titles && t.data.imdbId == imdbId
  }

  /** Foreign keys of a join table. */
  ghost predicate LinksReference(links: seq<Link>, titles: seq<TitleRow>, rows: seq<Row>) {
    forall l :: l in links ==> l.titleId in TitleIds(titles) && l.entityId in RowIds(rows)
  }

  ghost predicate PersonLinksReference(links: seq<PersonLink>, titles: seq<TitleRow>, rows: seq<Row>) {
    forall l :: l in links ==> l.titleId in TitleIds(titles) && l.peopleId in RowIds(rows)
  }

  ghost predicate RatingsReference(ratings: seq<RatingRow>, titles: seq<TitleRow>, rows: seq<Row>) {
    forall r :: r in ratings ==> r.titleId in TitleIds(titles) && r.sourceId in RowIds(rows)
  }

  /** Every table exists, every table is well formed, and every foreign key resolves. */
  ghost predicate Consistent(t: Tables, bound: nat) {
    && (forall d: Dictionary :: d in t.dictionaries)
    && (forall j: JoinTable :: j in t.joins)
    && (forall d :: d in t.dictionaries ==> WellFormed(t.dictionaries[d], bound))
    && TitlesWellFormed(t.titles, bound)
    && (forall j :: j in t.joins ==> LinksReference(t.joins[j], t.titles, t.dictionaries[TargetOf(j)]))
    && PersonLinksReference(t.titlePeople, t.titles, t.dictionaries[People])
    && RatingsReference(t.titleRatings, t.titles, t.dictionaries[RatingSource])
  }

  /** Every table of `a` is a prefix of the same table of `b`: nothing was changed or removed. */
  ghost predicate Grows(a: Tables, b: Tables) {
    && a.titles <= b.titles
    && (forall d :: d in a.dictionaries ==> d in b.dictionaries && a.dictionaries[d] <= b.dictionaries[d])
    && (forall j :: j in a.joins ==> j in b.joins && a.joins[j] <= b.joins[j])
    && a.titlePeople <= b.titlePeople
    && a.titleRatings <= b.titleRatings
  }

  lemma GrowsTransitive(a: Tables, b: Tables, c: Tables)
    requires Grows(a, b) && Grows(b, c)
    ensures Grows(a, c)
  {
  }

  // ------------------------------------------------------------------ queries

  /** `findMany({ where: { name: { in: names } } })`: the rows whose name is listed, in table order. */
  function Select(rows: seq<Row>, names: seq<string>): seq<Row> {
    if |rows| == 0 then []
    else (if rows[0].name in names then [rows[0]] else []) + Select(rows[1..], names)
  }

  lemma {:induction false} SelectMembers(rows: seq<Row>, names: seq<string>)
    ensures forall x :: x in Select(rows, names) <==> x in rows && x.name in names
  {
    if |rows| > 0 {
      SelectMembers(rows[1..], names);
      assert rows == [rows[0]] + rows[1..];
    }
  }

  lemma {:induction false} SelectAppend(a: seq<Row>, b: seq<Row>, names: seq<string>)
    ensures Select(a + b, names) == Select(a, names) + Select(b, names)
  {
    if |a| == 0 {
      assert a + b == b;
    } else {
      assert (a + b)[1..] == a[1..] + b;
      SelectAppend(a[1..], b, names);
    }
  }

  /** A query returns no row whose name is not asked for. */
  lemma {:induction false} SelectNone(rows: seq<Row>, names: seq<string>)
    requires forall r :: r in rows ==> r.name !in names
    ensures Select(rows, names) == []
  {
    if |rows| > 0 {
      assert rows[0] in rows;
      SelectNone(rows[1..], names);
    }
  }

  /** A query on a well-formed table returns a well-formed table (a subsequence of it). */
  lemma {:induction false} SelectWellFormed(rows: seq<Row>, names: seq<string>, bound: nat)
    requires WellFormed(rows, bound)
    ensures WellFormed(Select(rows, names), bound)
  {
    if |rows| > 0 {
      var tail := Select(rows[1..], names);
      SelectWellFormed(rows[1..], names, bound);
      SelectMembers(rows[1..], names);
      forall x | x in tail ensures x.name != rows[0].name && rows[0].id < x.id {
        var k :| 0 <= k < |rows[1..]| && rows[1..][k] == x;
        assert rows[k + 1] == x;
      }
      if rows[0].name in names {
        ConsWellFormed(rows[0], tail, bound);
      }
    }
  }

  lemma ConsWellFormed(r: Row, rows: seq<Row>, bound: nat)
    requires WellFormed(rows, bound) && r.id < bound
    requires forall x :: x in rows ==> x.name != r.name && r.id < x.id
    ensures WellFormed([r] + rows, bound)
  {
    var all := [r] + rows;
    forall i, j | 0 <= i < j < |all|
      ensures all[i].name != all[j].name && all[i].id < all[j].id
    {
      if i == 0 {
        assert all[j] in rows;
      } else {
        assert all[i] == rows[i - 1] && all[j] == rows[j - 1];
      }
    }
  }

  /** `new Set(existing.map((e) => e.name))`: the names of the matching rows. */
  lemma SelectNames(rows: seq<Row>, names: seq<string>)
    ensures forall n :: n in names ==> (n in NamesOf(Select(rows, names)) <==> n in NamesOf(rows))
  {
    SelectMembers(rows, names);
    forall n | n in names && n in NamesOf(rows)
      ensures n in NamesOf(Select(rows, names))
    {
      var r :| r in rows && r.name == n;
      assert r in Select(rows, names);
    }
  }

  // ------------------------------------------------------------------ inserts

  /** `names.filter((name) => !existingNames.has(name))`: the names to insert, in order, repeats kept. */
  function Unmatched(names: seq<string>, existing: set<string>): seq<string> {
    if |names| == 0 then []
    else (if names[0] in existing then [] else [names[0]]) + Unmatched(names[1..], existing)
  }

  lemma {:induction false} UnmatchedMembers(names: seq<string>, existing: set<string>)
    ensures forall n :: n in Unmatched(names, existing) <==> n in names && n !in existing
  {
    if |names| > 0 {
      UnmatchedMembers(names[1..], existing);
      assert names == [names[0]] + names[1..];
    }
  }

  /** When every listed name is stored, there is nothing to insert. */
  lemma {:induction false} UnmatchedAllStored(names: seq<string>, existing: set<string>)
    requires forall n :: n in names ==> n in existing
    ensures Unmatched(names, existing) == []
  {
    if |names| > 0 {
      assert names[0] in names;
      assert forall n :: n in names[1..] ==> n in names;
      UnmatchedAllStored(names[1..], existing);
    }
  }

  /** Only membership of the listed names matters to the filter. */
  lemma {:induction false} UnmatchedCongruent(names: seq<string>, a: set<string>, b: set<string>)
    requires forall n :: n in names ==> (n in a <==> n in b)
    ensures Unmatched(names, a) == Unmatched(names, b)
  {
    if |names| > 0 {
      assert names[0] in names;
      UnmatchedCongruent(names[1..], a, b);
    }
  }

  /** A name that is not stored is kept by the filter as often as it is listed. */
  lemma {:induction false} UnmatchedMultiplicity(names: seq<string>, existing: set<string>, n: string)
    requires n !in existing
    ensures multiset(Unmatched(names, existing))[n] == multiset(names)[n]
  {
    if |names| > 0 {
      UnmatchedMultiplicity(names[1..], existing, n);
      assert names == [names[0]] + names[1..];
    }
  }

  /** A sequence holding some value twice is not free of repeats. */
  lemma {:induction false} RepeatNotDistinct<T>(s: seq<T>, x: T)
    requires multiset(s)[x] >= 2
    ensures !Distinct(s)
  {
    assert s == [s[0]] + s[1..];
    if s[0] == x {
      assert x in s[1..];
      var k :| 0 <= k < |s[1..]| && s[1..][k] == x;
      assert s[0] == s[k + 1];
    } else {
      RepeatNotDistinct(s[1..], x);
      var i, j :| 0 <= i < j < |s[1..]| && s[1..][i] == s[1..][j];
      assert s[i + 1] == s[j + 1];
    }
  }

  /** The rows `createMany` inserts for `names`, numbered from `start`. */
  function NewRows(names: seq<string>, start: nat): (r: seq<Row>)
    ensures |r| == |names|
    ensures forall k :: 0 <= k < |r| ==> r[k] == Row(start + k, names[k])
  {
    seq(|names|, k requires 0 <= k < |names| => Row(start + k, names[k]))
  }

  /** The table after resolving `names`: the stored rows, then one new row per missing name. */
  function Resolved(rows: seq<Row>, names: seq<string>, start: nat): seq<Row> {
    rows + NewRows(Unmatched(names, NamesOf(rows)), start)
  }

  /** After resolution every listed name has a row, and every old row is still there, first. */
  lemma ResolvedCovers(rows: seq<Row>, names: seq<string>, start: nat)
    ensures rows <= Resolved(rows, names, start)
    ensures forall n :: n in names ==> n in NamesOf(Resolved(rows, names, start))
  {
    var missing := Unmatched(names, NamesOf(rows));
    var added := NewRows(missing, start);
    UnmatchedMembers(names, NamesOf(rows));
    forall n | n in names
      ensures n in NamesOf(rows + added)
    {
      if n in NamesOf(rows) {
        var r :| r in rows && r.name == n;
        assert r in rows + added;
      } else {
        var k :| 0 <= k < |missing| && missing[k] == n;
        assert added[k] in rows + added;
      }
    }
  }

  /**
   * Inserting names that are distinct, not stored yet, with ids from the
   * sequence keeps a dictionary table well formed.
   */
  lemma InsertWellFormed(rows: seq<Row>, names: seq<string>, start: nat)
    requires WellFormed(rows, start)
    requires Distinct(names) && forall n :: n in names ==> n !in NamesOf(rows)
    ensures WellFormed(rows + NewRows(names, start), start + |names|)
  {
    var added := NewRows(names, start);
    var all := rows + added;
    forall i, j | 0 <= i < j < |all|
      ensures all[i].name != all[j].name && all[i].id < all[j].id
    {
      if j >= |rows| && i < |rows| {
        assert all[i] in rows;
        assert all[j].name in names;
      }
    }
  }

  /**
   * With a well-formed table holding every listed name, the query returns
   * exactly one row per distinct name: `names` with its repeats removed.
   */
  lemma SelectOnePerName(rows: seq<Row>, names: seq<string>, bound: nat)
    requires WellFormed(rows, bound)
    requires forall n :: n in names ==> n in NamesOf(rows)
    ensures NamesOf(Select(rows, names)) == set n | n in names
    ensures |Select(rows, names)| == |set n | n in names|
  {
    var sel := Select(rows, names);
    SelectMembers(rows, names);
    SelectNames(rows, names);
    SelectWellFormed(rows, names, bound);
    DistinctNamesCount(sel, bound);
  }

  lemma {:induction false} DistinctNamesCount(rows: seq<Row>, bound: nat)
    requires WellFormed(rows, bound)
    ensures |NamesOf(rows)| == |rows|
  {
    if |rows| > 0 {
      var tail := rows[1..];
      assert WellFormed(tail, bound);
      DistinctNamesCount(tail, bound);
      NamesOfCons(rows);
      forall x | x in tail ensures x.name != rows[0].name {
        var k :| 0 <= k < |tail| && tail[k] == x;
        assert rows[k + 1] == x;
      }
      assert rows[0].name !in NamesOf(tail);
    }
  }

  lemma NamesOfCons(rows: seq<Row>)
    requires |rows| > 0
    ensures NamesOf(rows) == {rows[0].name} + NamesOf(rows[1..])
  {
    assert rows == [rows[0]] + rows[1..];
  }

  /**
   * A name that is missing from the table and listed twice is inserted twice
   * by the filter, so the batch violates the unique index on `name`.
   */
  lemma RepeatedNewNameRepeatsInBatch(rows: seq<Row>, names: seq<string>, i: nat, j: nat)
    requires i < j < |names| && names[i] == names[j] && names[i] !in NamesOf(rows)
    ensures !Distinct(Unmatched(names, NamesOf(rows)))
  {
    var n := names[i];
    assert multiset(names)[n] >= 2 by {
      assert names == names[..j] + names[j..];
      assert names[..j][i] == n && names[j..][0] == n;
    }
    UnmatchedMultiplicity(names, NamesOf(rows), n);
    RepeatNotDistinct(Unmatched(names, NamesOf(rows)), n);
  }

  // -------------------------------------------------------------- join rows

  /** `allEntities.map((entity) => ({ titleId, [foreignKeyField]: entity.id }))`. */
  function LinksFor(titleId: nat, rows: seq<Row>): (r: seq<Link>)
    ensures |r| == |rows|
    ensures forall k :: 0 <= k < |r| ==> r[k] == Link(titleId, rows[k].id)
  {
    seq(|rows|, k requires 0 <= k < |rows| => Link(titleId, rows[k].id))
  }

  /** `allPeople.map((person) => ({ titleId, peopleId: person.id, role }))`. */
  function PersonLinksFor(titleId: nat, rows: seq<Row>, role: Role): (r: seq<PersonLink>)
    ensures |r| == |rows|
    ensures forall k :: 0 <= k < |r| ==> r[k] == PersonLink(titleId, rows[k].id, role)
  {
    seq(|rows|, k requires 0 <= k < |rows| => PersonLink(titleId, rows[k].id, role))
  }

  /**
   * One rating row per entry: the id the source's query result maps the
   * entry's source name to, and the entry's value.
   */
  function RatingRowsFor(titleId: nat, ratings: seq<RatingEntry>, sources: seq<Row>): (r: seq<RatingRow>)
    requires forall k :: 0 <= k < |ratings| ==> ratings[k].source in NamesOf(sources)
    ensures |r| == |ratings|
    ensures forall k :: 0 <= k < |r| ==>
              && r[k].titleId == titleId
              && r[k].value == ratings[k].value
              && Row(r[k].sourceId, ratings[k].source) in sources
  {
    RatingRowsWith(titleId, ratings, IdsByName(sources))
  }

  /** `ratings.map((rating) => ({ sourceId: sourceMap.get(rating.Source)!, titleId, value: rating.Value }))`. */
  function RatingRowsWith(titleId: nat, ratings: seq<RatingEntry>, ids: map<string, nat>): seq<RatingRow>
    requires forall k :: 0 <= k < |ratings| ==> ratings[k].source in ids
  {
    seq(|ratings|, k requires 0 <= k < |ratings| =>
      RatingRow(ids[ratings[k].source], titleId, ratings[k].value))
  }

  /** Join rows built from rows of a table refer to that table. */
  lemma LinksForReference(titleId: nat, sel: seq<Row>, rows: seq<Row>)
    requires forall x :: x in sel ==> x in rows
    ensures forall l :: l in LinksFor(titleId, sel) ==> l.titleId == titleId && l.entityId in RowIds(rows)
  {
    var links := LinksFor(titleId, sel);
    forall l | l in links ensures l.titleId == titleId && l.entityId in RowIds(rows) {
      var k :| 0 <= k < |links| && links[k] == l;
      assert sel[k] in rows;
    }
  }

  lemma PersonLinksForReference(titleId: nat, sel: seq<Row>, role: Role, rows: seq<Row>)
    requires forall x :: x in sel ==> x in rows
    ensures forall l :: l in PersonLinksFor(titleId, sel, role) ==> l.titleId == titleId && l.peopleId in RowIds(rows)
  {
    var links := PersonLinksFor(titleId, sel, role);
    forall l | l in links ensures l.titleId == titleId && l.peopleId in RowIds(rows) {
      var k :| 0 <= k < |links| && links[k] == l;
      assert sel[k] in rows;
    }
  }

  lemma RatingRowsForReference(titleId: nat, ratings: seq<RatingEntry>, sources: seq<Row>, rows: seq<Row>)
    requires forall k :: 0 <= k < |ratings| ==> ratings[k].source in NamesOf(sources)
    requires forall x :: x in sources ==> x in rows
    ensures forall x :: x in RatingRowsFor(titleId, ratings, sources) ==> x.titleId == titleId && x.sourceId in RowIds(rows)
  {
    var added := RatingRowsFor(titleId, ratings, sources);
    forall x | x in added ensures x.titleId == titleId && x.sourceId in RowIds(rows) {
      var k :| 0 <= k < |added| && added[k] == x;
      assert Row(x.sourceId, ratings[k].source) in rows;
    }
  }

  /**
   * `new Map(rows.map((r) => [r.name, r.id]))`: built entry by entry, a
   * later row overwriting an earlier one with the same name.
   */
  function IdsByName(rows: seq<Row>): (m: map<string, nat>)
    ensures forall n :: n in m <==> n in NamesOf(rows)
    ensures forall n :: n in m ==> Row(m[n], n) in rows
  {
    if |rows| == 0 then map[]
    else
      var init := rows[..|rows| - 1];
      var last := rows[|rows| - 1];
      assert rows == init + [last];
      IdsByName(init)[last.name := last.id]
  }

  /** The join rows of one title. */
  function LinksOfTitle(links: seq<Link>, titleId: nat): seq<Link> {
    if |links| == 0 then []
    else (if links[0].titleId == titleId then [links[0]] else []) + LinksOfTitle(links[1..], titleId)
  }

  function PersonLinksOfTitle(links: seq<PersonLink>, titleId: nat, role: Role): seq<PersonLink> {
    if |links| == 0 then []
    else (if links[0].titleId == titleId && links[0].role == role then [links[0]] else [])
         + PersonLinksOfTitle(links[1..], titleId, role)
  }

  function RatingsOfTitle(ratings: seq<RatingRow>, titleId: nat): seq<RatingRow> {
    if |ratings| == 0 then []
    else (if ratings[0].titleId == titleId then [ratings[0]] else []) + RatingsOfTitle(ratings[1..], titleId)
  }

  lemma {:induction false} LinksOfTitleAppend(a: seq<Link>, b: seq<Link>, titleId: nat)
    ensures LinksOfTitle(a + b, titleId) == LinksOfTitle(a, titleId) + LinksOfTitle(b, titleId)
  {
    if |a| == 0 {
      assert a + b == b;
    } else {
      assert (a + b)[1..] == a[1..] + b;
      LinksOfTitleAppend(a[1..], b, titleId);
    }
  }

  lemma {:induction false} LinksOfTitleAll(links: seq<Link>, titleId: nat)
    requires forall l :: l in links ==> l.titleId == titleId
    ensures LinksOfTitle(links, titleId) == links
  {
    if |links| > 0 {
      assert links[0] in links;
      LinksOfTitleAll(links[1..], titleId);
      assert links == [links[0]] + links[1..];
    }
  }

  lemma {:induction false} LinksOfTitleNone(links: seq<Link>, titleId: nat)
    requires forall l :: l in links ==> l.titleId != titleId
    ensures LinksOfTitle(links, titleId) == []
  {
    if |links| > 0 {
      assert links[0] in links;
      LinksOfTitleNone(links[1..], titleId);
    }
  }

  lemma {:induction false} PersonLinksOfTitleAppend(a: seq<PersonLink>, b: seq<PersonLink>, titleId: nat, role: Role)
    ensures PersonLinksOfTitle(a + b, titleId, role)
         == PersonLinksOfTitle(a, titleId, role) + PersonLinksOfTitle(b, titleId, role)
  {
    if |a| == 0 {
      assert a + b == b;
    } else {
      assert (a + b)[1..] == a[1..] + b;
      PersonLinksOfTitleAppend(a[1..], b, titleId, role);
    }
  }

  /** Links of the title under one role, out of a batch that all carry the title and that role. */
  lemma {:induction false} PersonLinksOfTitleAll(links: seq<PersonLink>, titleId: nat, role: Role)
    requires forall l :: l in links ==> l.titleId == titleId && l.role == role
    ensures PersonLinksOfTitle(links, titleId, role) == links
  {
    if |links| > 0 {
      assert links[0] in links;
      PersonLinksOfTitleAll(links[1..], titleId, role);
      assert links == [links[0]] + links[1..];
    }
  }

  lemma {:induction false} PersonLinksOfTitleOther(links: seq<PersonLink>, titleId: nat, role: Role)
    requires forall l :: l in links ==> l.titleId != titleId || l.role != role
    ensures PersonLinksOfTitle(links, titleId, role) == []
  {
    if |links| > 0 {
      assert links[0] in links;
      PersonLinksOfTitleOther(links[1..], titleId, role);
    }
  }

  lemma {:induction false} RatingsOfTitleAppend(a: seq<RatingRow>, b: seq<RatingRow>, titleId: nat)
    ensures RatingsOfTitle(a + b, titleId) == RatingsOfTitle(a, titleId) + RatingsOfTitle(b, titleId)
  {
    if |a| == 0 {
      assert a + b == b;
    } else {
      assert (a + b)[1..] == a[1..] + b;
      RatingsOfTitleAppend(a[1..], b, titleId);
    }
  }

  lemma {:induction false} RatingsOfTitleAll(ratings: seq<RatingRow>, titleId: nat)
    requires forall r :: r in ratings ==> r.titleId == titleId
    ensures RatingsOfTitle(ratings, titleId) == ratings
  {
    if |ratings| > 0 {
      assert ratings[0] in ratings;
      RatingsOfTitleAll(ratings[1..], titleId);
      assert ratings == [ratings[0]] + ratings[1..];
    }
  }

  lemma {:induction false} RatingsOfTitleNone(ratings: seq<RatingRow>, titleId: nat)
    requires forall r :: r in ratings ==> r.titleId != titleId
    ensures RatingsOfTitle(ratings, titleId) == []
  {
    if |ratings| > 0 {
      assert ratings[0] in ratings;
      RatingsOfTitleNone(ratings[1..], titleId);
    }
  }

  // -------------------------------------------------------------- the store

  /** The database behind one Prisma client; `nextId` is the id sequence. */
  class Store {
    var titles: seq<TitleRow>
    var dictionaries: map<Dictionary, seq<Row>>
    var joins: map<JoinTable, seq<Link>>
    var titlePeople: seq<PersonLink>
    var titleRatings: seq<RatingRow>
    var nextId: nat

    function Snapshot(): Tables
      reads this
    {
      Tables(titles, dictionaries, joins, titlePeople, titleRatings)
    }

    ghost predicate Valid()
      reads this
    {
      Consistent(Snapshot(), nextId)
    }

    /** An empty database. */
    constructor ()
      ensures Valid()
      ensures titles == [] && titlePeople == [] && titleRatings == [] && nextId == 0
      ensures forall d: Dictionary :: d in dictionaries && dictionaries[d] == []
      ensures forall j: JoinTable :: j in joins && joins[j] == []
    {
      titles := [];
      EveryTable();
      dictionaries := map d | d in AllDictionaries :: [];
      joins := map j | j in AllJoinTables :: [];
      titlePeople := [];
      titleRatings := [];
      nextId := 0;
    }

    /** `tx.title.create({ data })`: the unique index on `imdb_id` rejects a second title with the same id. */
    method CreateTitleRow(data: TitleData) returns (r: Result<nat, Failure>)
      requires Valid()
      modifies this
      ensures Valid()
      ensures r.Err? <==> ImdbTaken(old(titles), data.imdbId)
      ensures r.Err? ==> (r.error == UniqueViolation("title")
                          && Snapshot() == old(Snapshot()) && nextId == old(nextId))
      ensures r.Ok? ==> && r.value == old(nextId) && nextId == old(nextId) + 1
                        && Snapshot() == old(Snapshot()).(titles := old(titles) + [TitleRow(r.value, data)])
    {
      if ImdbTaken(titles, data.imdbId) {
        return Err(UniqueViolation("title"));
      }
      var row := TitleRow(nextId, data);
      ghost var before := Snapshot();
      titles := titles + [row];
      nextId := nextId + 1;
      r := Ok(row.id);
      StillConsistentAfterTitle(before, row, nextId);
    }

    /**
     * `tx[entityTable].createMany({ data: names.map((name) => ({ name })) })`:
     * the unique index on `name` rejects the batch when a name repeats in it
     * or is already stored.
     */
    method InsertNames(d: Dictionary, names: seq<string>) returns (r: Outcome<Failure>)
      requires Valid()
      modifies this
      ensures Valid()
      ensures r.Pass? <==> Distinct(names) && forall n :: n in names ==> n !in NamesOf(old(dictionaries[d]))
      ensures r.Fail? ==> (r.error == UniqueViolation(TableName(d))
                           && Snapshot() == old(Snapshot()) && nextId == old(nextId))
      ensures r.Pass? ==> && nextId == old(nextId) + |names|
                          && Snapshot() == old(Snapshot()).(dictionaries :=
                               old(dictionaries)[d := old(dictionaries[d]) + NewRows(names, old(nextId))])
    {
      if !(Distinct(names) && forall n :: n in names ==> n !in NamesOf(dictionaries[d])) {
        return Fail(UniqueViolation(TableName(d)));
      }
      ghost var before := Snapshot();
      var rows := dictionaries[d] + NewRows(names, nextId);
      InsertWellFormed(dictionaries[d], names, nextId);
      dictionaries := dictionaries[d := rows];
      nextId := nextId + |names|;
      r := Pass;
      StillConsistentAfterNames(before, d, old(nextId), rows, nextId);
    }

    /** `tx[linkTable].createMany(...)` for a plain join table. */
    method InsertLinks(j: JoinTable, links: seq<Link>)
      requires Valid()
      requires forall l :: l in links ==> l.titleId in TitleIds(titles) && l.entityId in RowIds(dictionaries[TargetOf(j)])
      modifies this
      ensures Valid() && nextId == old(nextId)
      ensures Snapshot() == old(Snapshot()).(joins := old(joins)[j := old(joins[j]) + links])
    {
      joins := joins[j := joins[j] + links];
    }

    /** `tx.titlePeople.createMany(...)`. */
    method InsertPersonLinks(links: seq<PersonLink>)
      requires Valid()
      requires forall l :: l in links ==> l.titleId in TitleIds(titles) && l.peopleId in RowIds(dictionaries[People])
      modifies this
      ensures Valid() && nextId == old(nextId)
      ensures Snapshot() == old(Snapshot()).(titlePeople := old(titlePeople) + links)
    {
      titlePeople := titlePeople + links;
    }

    /** `tx.titleRating.createMany(...)`. */
    method InsertRatings(rows: seq<RatingRow>)
      requires Valid()
      requires forall r :: r in rows ==> r.titleId in TitleIds(titles) && r.sourceId in RowIds(dictionaries[RatingSource])
      modifies this
      ensures Valid() && nextId == old(nextId)
      ensures Snapshot() == old(Snapshot()).(titleRatings := old(titleRatings) + rows)
    {
      titleRatings := titleRatings + rows;
    }

    /** Rollback of a transaction: the tables return to `s`; the id sequence is not rolled back. */
    method Restore(s: Tables, ghost bound: nat)
      requires Valid() && Consistent(s, bound) && bound <= nextId
      modifies this
      ensures Valid() && Snapshot() == s && nextId == old(nextId)
    {
      ConsistentRaise(s, bound, nextId);
      titles, dictionaries, joins, titlePeople, titleRatings := s.titles, s.dictionaries, s.joins, s.titlePeople, s.titleRatings;
    }
  }

  // --------------------------------------------- consistency is preserved

  lemma TitleIdsGrow(a: seq<TitleRow>, b: seq<TitleRow>)
    requires a <= b
    ensures TitleIds(a) <= TitleIds(b)
  {
    forall id | id in TitleIds(a) ensures id in TitleIds(b) {
      var t :| t in a && t.id == id;
      var k :| 0 <= k < |a| && a[k] == t;
      assert b[k] == t;
    }
  }

  lemma RowIdsGrow(a: seq<Row>, b: seq<Row>)
    requires a <= b
    ensures RowIds(a) <= RowIds(b) && NamesOf(a) <= NamesOf(b)
  {
    forall r | r in a ensures r in b {
      var k :| 0 <= k < |a| && a[k] == r;
      assert b[k] == r;
    }
  }

  lemma ConsistentRaise(t: Tables, bound: nat, bound': nat)
    requires Consistent(t, bound) && bound <= bound'
    ensures Consistent(t, bound')
  {
  }

  lemma StillConsistentAfterTitle(t: Tables, row: TitleRow, bound: nat)
    requires Consistent(t, row.id) && row.id + 1 == bound
    requires !ImdbTaken(t.titles, row.data.imdbId)
    ensures Consistent(t.(titles := t.titles + [row]), bound)
  {
    var titles := t.titles + [row];
    TitleIdsGrow(t.titles, titles);
    forall i, j | 0 <= i < j < |titles|
      ensures titles[i].id < titles[j].id
      ensures titles[i].data.imdbId.Some? ==> titles[i].data.imdbId != titles[j].data.imdbId
    {
      if j == |titles| - 1 {
        assert titles[i] in t.titles;
      }
    }
  }

  lemma StillConsistentAfterNames(t: Tables, d: Dictionary, bound: nat, rows: seq<Row>, bound': nat)
    requires Consistent(t, bound) && d in t.dictionaries
    requires t.dictionaries[d] <= rows && WellFormed(rows, bound') && bound <= bound'
    ensures Consistent(t.(dictionaries := t.dictionaries[d := rows]), bound')
  {
    RowIdsGrow(t.dictionaries[d], rows);
  }
}
